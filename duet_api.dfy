/**
 * The parts of the controller's client library that the filter relies on:
 * G-code parameters and their values, the lookup of a parameter by letter,
 * the implicit conversion of a parameter to a number, an intercepted code,
 * and the interception connection, which here only records what it is asked
 * to do (the transport itself is not part of this model).
 */
module DuetApi {
  import opened Wrappers

  /** A parameter value, by the type the library parsed it into. */
  datatype Value =
    | Float(f: real)               // a single floating-point number
    | FloatList(fs: seq<real>)     // a colon-separated list, e.g. one E amount per extruder
    | Other(number: Option<real>)  // any other type (integer, string, ...); `number` is what the
                                   // library's implicit conversion to a number yields, None where it throws

  /** A code parameter: its letter and its value. */
  datatype Param = Param(letter: char, value: Value)

  /** An intercepted code as a value: whether it came from a macro, its offset in the file, its parameters in order. */
  datatype Command = Command(isFromMacro: bool, filePosition: Option<int>, params: seq<Param>)

  /** What the filter asks of the interception connection. */
  datatype Action =
    | IgnoreCode                     // let the controller run the intercepted code as it is
    | PerformCode(params: seq<Param>) // run this code (a snapshot of the parameters when it was sent)
    | ResolveSuccess                 // resolve the intercepted code as successful

  /** The index of the first parameter with the given letter, or |ps| when there is none. */
  function FirstIndex(ps: seq<Param>, letter: char): (k: nat)
    ensures k <= |ps|
    ensures forall j :: 0 <= j < k ==> ps[j].letter != letter
    ensures k < |ps| ==> ps[k].letter == letter
  {
    if ps == [] then 0
    else if ps[0].letter == letter then 0
    else 1 + FirstIndex(ps[1..], letter)
  }

  /** The library's `code.Parameter(letter)`: the first parameter with that letter, if any. */
  function Lookup(ps: seq<Param>, letter: char): (r: Option<Param>)
    ensures r.None? <==> forall j :: 0 <= j < |ps| ==> ps[j].letter != letter
    ensures r.Some? ==> r.value.letter == letter && r.value == ps[FirstIndex(ps, letter)]
  {
    var k := FirstIndex(ps, letter);
    if k < |ps| then Some(ps[k]) else None
  }

  /** The library's implicit conversion of a parameter value to a number; None where it throws. */
  function AsNumber(v: Value): Option<real>
  {
    match v
    case Float(f) => Some(f)
    case FloatList(_) => None
    case Other(n) => n
  }

  /** An intercepted code. Only its parameter list is changed in place, slot by slot. */
  class Code {
    const isFromMacro: bool
    const filePosition: Option<int>
    const parameters: array<Param>

    /** The code as a value. */
    function AsCommand(): Command
      reads parameters
    {
      Command(isFromMacro, filePosition, parameters[..])
    }

    /** A freshly received code with the given contents. */
    constructor (c: Command)
      ensures AsCommand() == c && fresh(parameters)
    {
      isFromMacro := c.isFromMacro;
      filePosition := c.filePosition;
      parameters := new Param[|c.params|](i requires 0 <= i < |c.params| => c.params[i]);
      new;
      assert parameters[..] == c.params;
    }
  }

  /** The interception connection, reduced to the record of the calls made on it. */
  class Connection {
    var log: seq<Action>

    constructor ()
      ensures log == []
    {
      log := [];
    }

    method IgnoreCode()
      modifies this
      ensures log == old(log) + [Action.IgnoreCode]
    {
      log := log + [Action.IgnoreCode];
    }

    method PerformCode(code: Code)
      modifies this
      ensures log == old(log) + [Action.PerformCode(code.parameters[..])]
    {
      log := log + [Action.PerformCode(code.parameters[..])];
    }

    method ResolveCode()
      modifies this
      ensures log == old(log) + [ResolveSuccess]
    {
      log := log + [ResolveSuccess];
    }
  }
}
