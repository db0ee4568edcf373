# rpt2pnp core in Dafny

rpt2pnp turns the part list of a PCB placement report into motion
instructions for a paste dispenser or a pick-and-place machine. This project
models the two pieces of its logic that are not text formatting:

- **The report-to-machine conversion** (`main.cc`, module `Report` in
  `report.dfy`). One pass over the parts finds the bounding box
  `min_x, min_y, max_x, max_y`. The printer is then driven in a fixed order:
  `Init` once with the rectangle `[offset_x, max_x-min_x+offset_x] ×
  [offset_y, max_y-min_y+offset_y]`, `PrintPart` once per part in list order,
  and `Finish` once. Each part goes to machine space by `x' = x - min_x +
  offset_x` and `y' = max_y - y + offset_y`, so X is shifted and Y is
  mirrored. The printer is modelled as a `Printer` class that records the
  calls it receives as a sequence of events. The proofs show that the
  session follows the protocol, that every printed position lies inside the
  `Init` rectangle, and that the transform preserves distances.
- **The feeder configuration parsers** (`pnp-config.cc`).
  - `ParsePnPConfiguration` (module `ConfigParser`) reads the declarative
    layout. Its directives are `Board:`, `Tape:`, `origin:`, `spacing:` and
    `count:`, and any error makes the result null.
  - `ParseSimplePnPConfiguration` and `FindPartPos` (module
    `SimpleConfigParser`) read a calibration log of `tapeN:` and `board:`
    lines. Unusable lines are skipped.
  - Both build a `PnPConfig` (module `Config`). It holds a list of tape
    records and a map from component key to tape index. A pointer shared by
    several keys becomes an index shared by those keys. A tape setter becomes
    an update of one record in the list.
  - Each parser is a method with a `while` loop over the lines. It is proved
    equal to a fold of a one-line step function (`Step`/`Run`,
    `SimpleStep`/`SimpleRun`). The lemmas state what the source promises
    about those folds.

Coordinates are `real` (no IEEE rounding). Each input line is taken as
already tokenised:
- a `ConfigLine` holds the directive token, the words after it, the leading
  numbers `%f` would convert, and the integer `%d` would convert;
- a `LogLine` is a `tapeN:` match, a `board:` match, or unparsable.

A `sscanf` asking for n floats succeeds exactly when at least n leading
numbers are present.

Two behaviours of `ParsePnPConfiguration` look unintended. The model
keeps them as the code has them:
- `angle:` never sets a tape's angle. The branch at pnp-config.cc:84 tests
  `"spacing:"` a second time, so it is never reached. Its own error message,
  "Parse problem angle" at line 91, and its `SetAngle` call at line 94 show
  that it was meant for `angle:`. The model ignores `angle:` like any unknown
  directive, and `ParsedConfigValid` records that every parsed tape has no
  angle.
- A `Tape:` line with no names binds the empty key `""` to the new tape. The
  token is cleared at pnp-config.cc:44, and a failed read at line 48 leaves
  it empty (`TapeNames`).

## Model

| member | source | states |
|---|---|---|
| Report.ComputeBoundingBox | main.cc:154-161 | for a non-empty part list, every part lies within the returned box and each of its four bounds is the coordinate of some part |
| Report.BoundingBoxUnique | main.cc:154-161 | two boxes that both bound the list in that sense are equal, so the box does not depend on how or in what order it is computed |
| Report.BoundingBoxOfPermutation | main.cc:154-170 | the box computed before OptimizeParts is still the bounding box of any reordering of the parts |
| Report.InitRect | main.cc:172-173 | the Init rectangle has its lower-left corner at the offset and the width and height of the board |
| Report.ToMachine | main.cc:177-180 | a position inside the board's box maps inside the Init rectangle; a part at min_x maps to x' = offset_x, one at max_y to y' = offset_y, one at min_y to y' = max_y - min_y + offset_y |
| Report.ToMachineIsometry | main.cc:179-180 | X differences are kept and Y differences negated, so X order is kept, Y order is reversed and distances are unchanged |
| Report.ToMachineExample | main.cc:179-180 | with min_x = 0, min_y = 0, max_y = 100 and offset (10, 10), (5, 100) maps to (15, 10) and (5, 0) to (15, 110) |
| Report.Printer.constructor | main.cc:163-168 | a new printer has received no calls |
| Report.Printer.Init | main.cc:172-173 | records one Init call with its rectangle |
| Report.Printer.PrintPart | main.cc:179-181 | records one PrintPart call with the machine position and the part |
| Report.Printer.Finish | main.cc:184 | records one Finish call |
| Report.PartEventsAt | main.cc:175-182 | the emission loop makes exactly one PrintPart per part, the k-th carrying the k-th part unchanged at its machine position |
| Report.SessionProtocol | main.cc:172-184 | a session is Init exactly once and first, PrintPart for each part in order, Finish exactly once and last |
| Report.SessionInsideInitRect | main.cc:172-182 | when the printed parts are a reordering of the bounded ones, every PrintPart position lies inside the Init rectangle |
| Report.ConvertReport | main.cc:154-184 | computes the bounding box of the parts and appends to the printer exactly Init, one PrintPart per part of the optimizer's order, and Finish |
| ConfigParser.TapeNames | pnp-config.cc:44-50 | a Tape: line always binds at least one key, the line's own names when there are any |
| ConfigParser.BindAll | pnp-config.cc:47-50 | after binding, each listed name maps to the new tape and every other key keeps its previous tape or stays unbound |
| ConfigParser.BindNames | pnp-config.cc:47-50 | the name loop leaves the key map exactly as BindAll describes it |
| ConfigParser.Step | pnp-config.cc:29-107 | one line keeps the configuration well formed: every key refers to an existing tape, no tape has spacing (0, 0), no tape has an angle, and the current tape exists |
| ConfigParser.Run | pnp-config.cc:28-108 | the loop keeps the configuration well formed up to the first null |
| ConfigParser.ParsePnP | pnp-config.cc:17-110 | a non-null result is well formed in the same sense |
| ConfigParser.ParsePnPConfiguration | pnp-config.cc:17-110 | the imperative parse loop returns exactly the result of the line-by-line fold, and a non-null result is well formed |
| ConfigParser.IgnoredLine | pnp-config.cc:35-36 | blank lines, `#` lines, unknown directives and `angle:` (whose branch at line 84 is unreachable) change nothing |
| ConfigParser.TapeDirective | pnp-config.cc:40-50 | Tape: appends one fresh tape, makes it current, binds every listed name (or "" when none) to it and leaves all other keys, the old tapes and the board origin as they were |
| ConfigParser.OriginDirective | pnp-config.cc:51-67 | with a current tape, `origin:` sets that tape's first position from three numbers and leaves everything else as it was: the other tapes, that tape's spacing, angle and count, the key map, the board origin and the current tape. With no current tape it sets the board origin from two numbers and nothing else changes. Fewer numbers make the result null |
| ConfigParser.ErrorLines | pnp-config.cc:68-106 | spacing: or count: without a current tape, a malformed spacing: or count: payload, and spacing (0, 0) make the result null |
| ConfigParser.SpacingAndCountDirectives | pnp-config.cc:74-106 | a valid spacing: or count: changes only that field of the current tape |
| ConfigParser.RunAppend | pnp-config.cc:28-108 | parsing a + b is parsing a and continuing from its state with b, or null if a ended null |
| ConfigParser.NullIsFinal | pnp-config.cc:28 | once a prefix of the file has made the result null, the whole parse returns null |
| ConfigParser.SharedTape | pnp-config.cc:40-58 | the names of one Tape: line share one tape: an origin: after it is seen through every one of them |
| ConfigParser.BoardClosesTape | pnp-config.cc:38-67 | after Board:, an origin: line sets the board origin even if a tape was current, and no tape or key changes |
| SimpleConfigParser.PartPosition | pnp-config.cc:112-121 | returns the position of the first part with the given name, or nothing exactly when no part has that name |
| SimpleConfigParser.FindPartPos | pnp-config.cc:112-121 | the search loop reports found exactly when some part has the name, and then gives that first part's position |
| SimpleConfigParser.BackComputedSpacing | pnp-config.cc:148-152 | the derived spacing puts slot N of the tape at the measured (x, y): first + (N - 1) · spacing = measured, with N - 1 never zero |
| SimpleConfigParser.SimpleStep | pnp-config.cc:136-166 | one log line keeps every key pointing at an existing tape and every tape with a first position |
| SimpleConfigParser.SimpleRun | pnp-config.cc:136-167 | the loop over log lines keeps that invariant |
| SimpleConfigParser.ParseSimple | pnp-config.cc:123-170 | the configuration read from a log is never null and satisfies that invariant |
| SimpleConfigParser.ParseSimplePnPConfiguration | pnp-config.cc:123-170 | the imperative loop returns exactly the line-by-line fold |
| SimpleConfigParser.SlotOneLine | pnp-config.cc:139-142 | tape1:K appends a tape whose first position is the measured one and binds K to it, replacing any earlier binding of K; other keys and the origin are unchanged |
| SimpleConfigParser.LaterSlotLine | pnp-config.cc:143-153 | tapeN:K with N ≠ 1 changes only the spacing of K's tape, to the step that puts slot N at the measured position. The tape's first position, angle and count, the other tapes, the key map and the board origin are unchanged. With K unbound the line has no effect |
| SimpleConfigParser.AnchoredOrigin | pnp-config.cc:157-160 | the origin from a found board line is the measured position minus the report position of the first part with that designator, the one FindPartPos returns |
| SimpleConfigParser.BoardLine | pnp-config.cc:155-166 | a found board: line sets only the origin; an unfound one and an unparsable line change nothing |
| SimpleConfigParser.OriginKept | pnp-config.cc:155-163 | without a found board: line the origin stays as it was |
| SimpleConfigParser.OriginLastWins | pnp-config.cc:155-160 | the last found board: line alone decides the origin, overwriting earlier ones |
| SimpleConfigParser.SpacingExample | pnp-config.cc:139-153 | slot 1 at (0, 0) and slot 3 at (8, 0) give spacing (4, 0) |
| SimpleConfigParser.ZeroSpacingAccepted | pnp-config.cc:143-153 | unlike the declarative layout, a log can yield a tape with spacing (0, 0) |

## Left out

- The concrete printers are left out because they only format text: `GCodePrinter`, `GCodeCornerIndicator` and `PostScriptPrinter` (main.cc:31-100, postscript-printer.h). `Report.Printer` records the calls main.cc makes through `Printer`: a constructor without arguments, `Init` with four coordinates, `PrintPart` with a position and a part, and `Finish`. The header postscript-printer.h declares a different interface: a constructor taking the configuration, `Init` taking a dimension, and `PrintPart` taking only a part.
- Command-line handling (`getopt`, `usage`, main.cc:102-146) is left out. The choice of printer and the offset (10, 10) of main.cc:24-25 are parameters of `ConvertReport`.
- `ReadRptFile` is left out as I/O. The part list is an input.
- `OptimizeParts` (main.cc:170) is not part of this model. Its output is the parameter `ordered`, which must be a reordering of the parts.
- `CornerPartCollector` is not part of this model.
- `rpt-parser.h`, `printer.h`, `tape.h` and `board.h` are not part of this model. A tape is only the four fields its setters store. A field no setter has written is `None`, and so is a board origin no line has set, because the constructors' defaults are not known.
- `GetPos` at pnp-config.cc:150 is taken to return the tape's first position. The tape is created with that position at line 140 and is never advanced while parsing.
- Tape picking (`NextPosition`, the cursor, exhaustion) is left out because its code is not available.
- File opening is left out as I/O. This covers the `ifstream` at pnp-config.cc:27 and the `fopen` at line 127. The `fopen` path returns null when the file cannot be opened (lines 128-131).
- Two input failures make the source's `ParsePnPConfiguration` loop forever: an `ifstream` that failed to open, and a line with 1024 or more characters after its first word. The first word is read at pnp-config.cc:30, and the `getline` at line 33 stores only 1023 of the remaining characters and sets failbit. Both failures set failbit but never eofbit, so `while (result && !in.eof())` at line 28 keeps reading empty tokens. The model's loop runs over a finite list of lines and always terminates, so it does not capture either hang.
- Line reading and tokenising (`operator>>`, `getline`, `fgets`, `sscanf`) and text-to-number conversion are left out. Each line arrives already classified. The 1024-byte line buffer and the 256-byte designator buffer are not modelled.
- The diagnostics written to stderr are left out.
- Float rounding is left out: coordinates are `real`. The 32-bit range of `count` and of `tape_idx` is not modelled either. So `tape_idx - 1` cannot overflow in the model, and no `%d` value is out of range.
- After `result.reset(NULL)`, the source still calls a setter on the current tape (pnp-config.cc:58, 83, 94, 106). That call acts on a result that is already discarded, so it is not modelled.
- Memory management (`new`, `delete`, `unique_ptr`) is not modelled.
- FindPartPos: says nothing about `pos` when no part is found. The source leaves the caller's variable untouched there, and the model has no caller-owned variable to keep.
