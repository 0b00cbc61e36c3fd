# AutoSegmentation: the G0/G1 smoothing filter, modelled and proved in Dafny

AutoSegmentation is a plugin for Duet3D controllers. It intercepts every G0/G1 code on the File
channel before the controller runs it. Each steady-state move is replaced by two moves. The first
goes to the midpoint between the previous target and the new one, with its extrusion (E) amount
halved. The second goes to the full target and keeps the halved E. Codes from macros, codes without
X or Y, and the first move(s) of a print pass through unchanged.

This project models the filter's decision logic in `Program.cs`. The filter keeps three pieces of
state: the last commanded `x`, the last commanded `y`, and the last file position. For each code it
chooses one of three paths:

- **irrelevant**: the code is from a macro, or it carries neither X nor Y;
- **new stream**: no file position is known yet, the position went backwards, or X or Y is still
  unknown;
- **steady**: every other case.

On the steady path the filter rewrites the code's parameter list in place, in three passes:

1. interpolate X and Y;
2. halve the first E;
3. restore X and Y.

Files:

- `wrappers.dfy`: `Option`, which stands for C#'s nullable values.
- `duet_api.dfy` (module `DuetApi`): the library side. It holds parameter values and parameters,
  `Parameter(letter)` as `Lookup`, the implicit conversion to a number as `AsNumber`, and an
  intercepted `Code` whose parameter list is an `array`. It also holds the interception `Connection`,
  which records the calls made on it as `Action`s.
- `smoothing.dfy` (module `Smoothing`): the filter as values. It defines the classification, the
  three passes as functions, one step (`Step`) and a whole run (`Run`), with the lemmas that say what
  they produce.
- `engine.dfy` (module `AutoSegmentation`): the imperative model. It is a class `Engine` whose fields
  `x`, `y` and `lastFilePosition` carry the state from one code to the next. `Process` is one pass of
  the receive loop and rewrites the code's array in place with the three loops of the source.
  `Serve` is the loop over a finite sequence of received codes. Each method is proved equal to the
  value-level definition.
- `scenarios.dfy` (module `Scenarios`): concrete moves worked through the definitions.

Modelling choices:

- Coordinates and amounts are `real`. A parameter value is `Float` (a single float), `FloatList`
  (a float array, e.g. one E amount per extruder) or `Other` (any other type). `Other` carries what
  the library's conversion to a number yields, or `None` where that conversion throws.
- A parameter is looked up by its exact letter, and the first parameter with that letter is used.
- The file position is `Option<int>`. C#'s lifted `<` is false when either side is null
  (`LiftedLess`). So a code without a position never counts as a restart against a known position,
  and it clears the stored position.
- An X or Y value that cannot be converted to a number raises an exception at `Program.cs:33`,
  `:37`, `:56` or `:63`. That ends the process. It is modelled as the outcome `Crash`, with no
  connection call for that code and an end to the run.

Notable behaviours of the code, which the model keeps:

- A restart does not reset an axis to unknown. An axis the code lacks keeps its old value
  (`Program.cs:31-38`).
- X and Y are not coupled. After a first move with only X, `x` is known and `y` is not. The next
  relevant code is then a restart again.
- "Steady after the first move" holds only once both axes and the file position are known. It also
  needs positions that never decrease and are never missing (`SteadyOnceEstablished`).
- The restored code gets the state's `x`/`y` in every X/Y slot (`Program.cs:101-108`). That is the
  value of the last X (Y) in the code, not each slot's own original value.
- Within one code the interpolation runs slot by slot. A second X is averaged with the first X's
  value, not with the previous state.
- The code never suppresses a code. Every path is either IgnoreCode, or two PerformCode calls and a
  ResolveCode.

## Model

| member | source | states |
|---|---|---|
| DuetApi.FirstIndex | Program.cs:25 | the index of the first parameter with a letter: no earlier parameter has it, and the one at the index does (or there is none) |
| DuetApi.Lookup | Program.cs:31-37 | `Parameter(letter)` is absent exactly when no parameter has the letter; otherwise it is the first one with it |
| DuetApi.Connection.IgnoreCode | Program.cs:40 | passing a code through appends one IgnoreCode to the connection's record |
| DuetApi.Connection.PerformCode | Program.cs:93 | sending a code appends a snapshot of its parameter list as it is at that moment |
| DuetApi.Connection.ResolveCode | Program.cs:114 | resolving the intercepted code appends one ResolveSuccess |
| DuetApi.Code.constructor | Program.cs:24 | a received code is a fresh object whose contents are the given command |
| Smoothing.Classify | Program.cs:25-27 | a code is irrelevant exactly when it is from a macro or has no X and no Y. A relevant code is a new stream exactly when the position is unset, a known position is strictly greater than the code's (C#'s lifted `<`, `LiftedLess`, false when either side is null), or x or y is unknown. An equal position with everything known is steady |
| Smoothing.StepCases | Program.cs:25-128 | what `Step` (dispatching on `Classify` to `NewStreamStep` or `SteadyStep`) does on each path. Irrelevant: pass through, state unchanged. New stream: pass through, position taken from the code; an axis the code carries takes the conversion (`AsNumber`) of its first such parameter, an absent axis keeps its value, and the step crashes exactly when that first X or Y is not a number. Steady: crashes exactly when some X or Y is not a number; otherwise both axes stay known and the position is taken from the code |
| Smoothing.InterpolateCorrect | Program.cs:48-67 | the interpolation pass `Interpolate`, a fold of `InterpolateStep` over the slots, keeps length and letters. Every X (Y) slot holds the midpoint of the previous X (or the state's x) and its own value; other slots are unchanged. The final x, y are the last commanded values, not the midpoints. It reports a move exactly when the code has an X or Y |
| Smoothing.UnmovedIsIdentity | Program.cs:116-121 | when nothing was interpolated, the parameter list is exactly as received |
| Smoothing.HalveAll | Program.cs:83-84 | an E list is halved element by element, with length and order kept |
| Smoothing.HalveFirstE | Program.cs:72-88 | the first E is halved by `HalveE` (a float halved, a float list halved element-wise, any other type kept); every non-E parameter and every later E is unchanged; length is kept |
| Smoothing.RelevantHasAxis | Program.cs:25 | a code that passes the filter carries an X or a Y |
| Smoothing.MidpointSlots | Program.cs:50-88 | the first emitted code, slot by slot: midpoints in X/Y slots, the first E halved, the rest as received |
| Smoothing.RestoredSlots | Program.cs:98-109 | the second emitted code (`Restore` applied to the halved interpolation, with the state's x, y), slot by slot against the received code: the last commanded X/Y in every X/Y slot, the same halved first E, the rest as received |
| Smoothing.SteadyReplaces | Program.cs:42-115 | a steady code whose X/Y are numbers is replaced by the halved interpolation and its restoration, and the state becomes the running x, y after the last X/Y with the code's position |
| Smoothing.SteadyRewrite | Program.cs:42-115 | a steady code with numeric X/Y is always replaced, so the "nothing to interpolate" branch cannot be reached. Both codes have these slot contents and the received letters in the same places, so an absent axis is absent from both. The new state is the commanded target and the code's position |
| Smoothing.RunAdvance | Program.cs:22-24 | handling one more code of a run: a crash stops the run with the calls so far, otherwise that code's calls are appended and the count grows by one |
| Smoothing.OneDispositionPerCode | Program.cs:22-129 | the trace of a run (`Run`, the codes handled one after another) splits into blocks, each either one IgnoreCode or two PerformCodes then one ResolveSuccess. There is one disposition per handled code, and every code is handled unless the run crashed |
| Smoothing.SteadyOnceEstablished | Program.cs:20-46 | once x, y and the position are known, and positions are present and never decrease, no later code is classified as a new stream |
| AutoSegmentation.Engine.constructor | Program.cs:20-21 | x, y and the file position start unknown |
| AutoSegmentation.Engine.Process | Program.cs:25-128 | one loop pass in place: it succeeds exactly when `Step` does. The new fields, the code's final parameter list and the calls made on the connection are those `Step` gives. On a crash no call is made |
| AutoSegmentation.Engine.StartStream | Program.cs:27-40 | the new-stream branch on the fields: the axes and position it stores, the single IgnoreCode, and a crash, with no call, exactly when `NewStreamStep` crashes |
| AutoSegmentation.Engine.Smooth | Program.cs:42-121 | the steady branch on the fields and the code's array: the state, the final array and the calls made are those of `SteadyStep` |
| AutoSegmentation.Engine.InterpolateAxes | Program.cs:49-67 | the in-place interpolation loop: it fails exactly when some X/Y is not a number. Otherwise the array, x, y and the moved flag are what `Interpolate` gives |
| AutoSegmentation.HalveFirstAmount | Program.cs:72-88 | the in-place E loop with its early break leaves the array equal to `HalveFirstE` of the old contents |
| AutoSegmentation.RestoreAxes | Program.cs:98-109 | the in-place restore loop leaves the array equal to `Restore` of the old contents |
| AutoSegmentation.Engine.Receive | Program.cs:24-128 | a received command becomes a fresh code object and is processed: success, the new fields and the calls made are those `Step` gives |
| AutoSegmentation.Engine.Serve | Program.cs:22-129 | the receive loop over a finite input: the calls made, the number of codes handled, whether it crashed, and the final state (without a crash) are those `Run` gives |
| Scenarios.MidpointLaw | Program.cs:50-114 | from x=10, y=20: X14 Y28 E2 is sent as X12 Y24 E1, then X14 Y28 E1, and the state becomes 14, 28 |
| Scenarios.SingleAxisMove | Program.cs:60-108 | from x=10, y=20: Y30 E2 is sent as Y25 E1, then Y30 E1. X is absent from both; x stays 10 and y becomes 30 |
| Scenarios.MultiExtruderAmounts | Program.cs:81-85 | an E list [2, 4] becomes [1, 2] in both emitted codes |
| Scenarios.RewoundFile | Program.cs:27-40 | a position behind the stored one passes the code through. The code's X becomes the baseline and y is kept |
| Scenarios.OnlyFirstAmount | Program.cs:72-88 | of two E parameters only the first is halved |
| Scenarios.MissingFilePosition | Program.cs:27-46 | a code without a position is steady against a known state and clears the stored position |

## Left out

- Connecting to the controller, receiving codes and the transport itself (`Program.cs:12-13`, `24`).
  These are network calls into the client library. The received codes are the input sequence of
  `Serve`, and the calls made are recorded as `Action`s. Transport failures, which are fatal, are
  not modelled.
- Cancellation through Ctrl+C and the `do … while (!cts.IsCancellationRequested)` condition
  (`Program.cs:16-17`, `129`). This is signal handling. The loop runs over a finite sequence instead.
- Console logging. It has no effect on behaviour.
- Setting the `Asynchronous` flag before the first PerformCode (`Program.cs:92`). It is a transport
  hint that does not affect the parameters.
- IEEE arithmetic. Coordinates are `double` and E amounts are `float`, with `/ 2F` rounding. The
  model uses exact reals, so the midpoint and halving laws hold exactly.
- How the library parses text into typed values, for instance whether `E2` becomes an integer or a
  float. The model takes a value's type as given; an integer-typed E counts as `Other` and is not
  halved, as in the source.
- AutoSegmentation.Engine.Process: on a crash it promises only that no connection call was made. It
  says nothing about the fields or the parameter array, which the source may have partly updated
  before the exception, because the process ends there.
- AutoSegmentation.Engine.InterpolateAxes: on a failed conversion it does not say which slots were
  already rewritten, for the same reason.
