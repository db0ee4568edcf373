/** ParseSimplePnPConfiguration: a configuration inferred from a calibration
    log.  `tape1:K x y z` starts a tape for key K at the measured position,
    `tapeN:K x y z` (N other than 1) derives that tape's spacing from slot N,
    and `board:D x y z` anchors the board origin at part D of the board.
    Lines it cannot use are reported and skipped. */
module SimpleConfigParser {
  import opened Geometry
  import opened Config

  /** One log line, already matched against the two line formats. */
  datatype LogLine =
    | TapeSlot(slot: int, key: string, x: real, y: real, z: real)
    | BoardRef(designator: string, x: real, y: real, z: real)
    | Unparsable

  /** Where the first part named `name` sits, if the board has one. */
  function PartPosition(parts: seq<Part>, name: string): (r: Option<Position>)
    ensures r.None? <==> forall i :: 0 <= i < |parts| ==> parts[i].componentName != name
    ensures r.Some? ==> (exists i :: 0 <= i < |parts| && parts[i].componentName == name && parts[i].pos == r.value &&
                                     (forall j :: 0 <= j < i ==> parts[j].componentName != name))
    decreases |parts|
  {
    if parts == [] then None
    else if parts[0].componentName == name then Some(parts[0].pos)
    else
      var r := PartPosition(parts[1..], name);
      if r.Some? then
        ghost var i :| 0 <= i < |parts[1..]| && parts[1..][i].componentName == name && parts[1..][i].pos == r.value
          && forall j :: 0 <= j < i ==> parts[1..][j].componentName != name;
        assert forall j :: 0 <= j < i + 1 ==> parts[j].componentName != name by {
          forall j | 0 <= j < i + 1 ensures parts[j].componentName != name {
            if j > 0 { assert parts[j] == parts[1..][j - 1]; }
          }
        }
        assert parts[i + 1] == parts[1..][i];
        r
      else
        assert forall i :: 0 <= i < |parts| ==> parts[i].componentName != name by {
          forall i | 0 <= i < |parts| ensures parts[i].componentName != name {
            if i > 0 { assert parts[i] == parts[1..][i - 1]; }
          }
        }
        r
  }

  /** FindPartPos: the search over the board's parts, stopping at the first
      part with the given designator. */
  method FindPartPos(parts: seq<Part>, name: string) returns (found: bool, pos: Position)
    ensures found <==> exists i :: 0 <= i < |parts| && parts[i].componentName == name
    ensures found ==> PartPosition(parts, name) == Some(pos)
  {
    pos := Position(0.0, 0.0);
    for i := 0 to |parts|
      invariant forall j :: 0 <= j < i ==> parts[j].componentName != name
    {
      if parts[i].componentName == name {
        return true, parts[i].pos;
      }
    }
    return false, pos;
  }

  /** What every configuration this parser returns satisfies: keys refer to
      tapes, and every tape has a first position (a tape is only ever created
      by a slot-1 line, which sets it). */
  predicate SimpleConfigValid(c: PnPConfig)
  {
    RegistryValid(c) && forall i :: 0 <= i < |c.tapes| ==> c.tapes[i].first.Some?
  }

  /** The spacing that puts slot `slot` of a tape starting at `first` at the
      measured (x, y): the step averaged over the slot - 1 advances. */
  function BackComputedSpacing(first: Pos3, slot: int, x: real, y: real): (s: Spacing)
    requires slot != 1
    ensures first.x + (slot - 1) as real * s.dx == x
    ensures first.y + (slot - 1) as real * s.dy == y
  {
    var advance := (slot - 1) as real;
    Spacing((x - first.x) / advance, (y - first.y) / advance)
  }

  /** One log line. */
  function SimpleStep(parts: seq<Part>, c: PnPConfig, line: LogLine): (r: PnPConfig)
    requires SimpleConfigValid(c)
    ensures SimpleConfigValid(r)
  {
    match line
    case TapeSlot(slot, key, x, y, z) =>
      if slot == 1 then
        c.(tapes := c.tapes + [NewTape.(first := Some(Pos3(x, y, z)))],
           tapeFor := c.tapeFor[key := |c.tapes|])
      else if key in c.tapeFor then
        var t := c.tapeFor[key];
        var tape := c.tapes[t];
        c.(tapes := c.tapes[t := tape.(spacing := Some(BackComputedSpacing(tape.first.value, slot, x, y)))])
      else c
    case BoardRef(designator, x, y, _) =>
      (match PartPosition(parts, designator)
       case Some(p) => c.(boardOrigin := Some(Position(x - p.x, y - p.y)))
       case None => c)
    case Unparsable => c
  }

  function SimpleRun(parts: seq<Part>, c: PnPConfig, lines: seq<LogLine>): (r: PnPConfig)
    requires SimpleConfigValid(c)
    ensures SimpleConfigValid(r)
    decreases |lines|
  {
    if lines == [] then c else SimpleRun(parts, SimpleStep(parts, c, lines[0]), lines[1..])
  }

  /** The configuration a calibration log describes.  Once the file is open
      there is no null result: every line either applies or is skipped. */
  function ParseSimple(parts: seq<Part>, lines: seq<LogLine>): (r: PnPConfig)
    ensures SimpleConfigValid(r)
  {
    SimpleRun(parts, EmptyConfig, lines)
  }

  method ParseSimplePnPConfiguration(parts: seq<Part>, lines: seq<LogLine>) returns (result: PnPConfig)
    ensures result == ParseSimple(parts, lines)
    ensures SimpleConfigValid(result)
  {
    var tapes: seq<Tape> := [];
    var tapeFor: map<string, nat> := map[];
    var boardOrigin: Option<Position> := None;
    var i := 0;
    while i < |lines|
      invariant 0 <= i <= |lines|
      invariant SimpleConfigValid(PnPConfig(tapes, tapeFor, boardOrigin))
      invariant ParseSimple(parts, lines) == SimpleRun(parts, PnPConfig(tapes, tapeFor, boardOrigin), lines[i..])
    {
      ghost var before := PnPConfig(tapes, tapeFor, boardOrigin);
      match lines[i] {
      case TapeSlot(slot, key, x, y, z) =>
        if slot == 1 {
          tapes := tapes + [NewTape.(first := Some(Pos3(x, y, z)))];
          tapeFor := tapeFor[key := |tapes| - 1];
        } else if key in tapeFor {
          var t := tapeFor[key];
          var advance := slot - 1;
          var firstPos := tapes[t].first.value;  // GetPos: the tape is never advanced while parsing
          var spacing := Spacing((x - firstPos.x) / advance as real, (y - firstPos.y) / advance as real);
          assert spacing == BackComputedSpacing(firstPos, slot, x, y);
          tapes := tapes[t := tapes[t].(spacing := Some(spacing))];
        }
        assert SimpleStep(parts, before, lines[i]) == PnPConfig(tapes, tapeFor, boardOrigin);
      case BoardRef(designator, x, y, _) =>
        var found, partPos := FindPartPos(parts, designator);
        if found {
          boardOrigin := Some(Position(x - partPos.x, y - partPos.y));
        }
        assert SimpleStep(parts, before, lines[i]) == PnPConfig(tapes, tapeFor, boardOrigin);
      case Unparsable =>
        // reported on the diagnostic stream and skipped
        assert SimpleStep(parts, before, lines[i]) == before;
      }
      assert lines[i..][0] == lines[i] && lines[i..][1..] == lines[i + 1..];
      i := i + 1;
    }
    assert lines[i..] == [];
    result := PnPConfig(tapes, tapeFor, boardOrigin);
  }

  // ---------------------------------------------------------------------
  // Properties of single lines

  /** `tape1:K x y z` appends a tape whose first position is the measured
      one and binds K to it, replacing any earlier binding of K. */
  lemma SlotOneLine(parts: seq<Part>, c: PnPConfig, key: string, x: real, y: real, z: real)
    requires SimpleConfigValid(c)
    ensures var r := SimpleStep(parts, c, TapeSlot(1, key, x, y, z));
      && |r.tapes| == |c.tapes| + 1
      && r.tapes[..|c.tapes|] == c.tapes
      && key in r.tapeFor && r.tapeFor[key] == |c.tapes|
      && TapeFor(r, key) == Some(Tape(Some(Pos3(x, y, z)), None, None, None))
      && (forall k :: k != key ==> (k in r.tapeFor <==> k in c.tapeFor) && (k in c.tapeFor ==> r.tapeFor[k] == c.tapeFor[k]))
      && r.boardOrigin == c.boardOrigin
  {
  }

  /** `tapeN:K x y z` with N other than 1: if K has a tape, only that tape's
      spacing changes, to the step that puts slot N at the measured position;
      if K has no tape the line changes nothing. */
  lemma LaterSlotLine(parts: seq<Part>, c: PnPConfig, slot: int, key: string, x: real, y: real, z: real)
    requires SimpleConfigValid(c)
    requires slot != 1
    ensures var r := SimpleStep(parts, c, TapeSlot(slot, key, x, y, z));
      if key !in c.tapeFor then r == c
      else
        var t := c.tapeFor[key];
        var first := c.tapes[t].first.value;
        && r.tapeFor == c.tapeFor && r.boardOrigin == c.boardOrigin
        && |r.tapes| == |c.tapes|
        && (forall i :: 0 <= i < |c.tapes| && i != t ==> r.tapes[i] == c.tapes[i])
        && r.tapes[t].first == c.tapes[t].first
        && r.tapes[t].angle == c.tapes[t].angle
        && r.tapes[t].count == c.tapes[t].count
        && r.tapes[t].spacing.Some?
        && first.x + (slot - 1) as real * r.tapes[t].spacing.value.dx == x
        && first.y + (slot - 1) as real * r.tapes[t].spacing.value.dy == y
  {
  }

  /** A board reference is found when the board has a part of that name. */
  predicate Anchors(parts: seq<Part>, line: LogLine)
  {
    line.BoardRef? && PartPosition(parts, line.designator).Some?
  }

  /** The board origin a found reference line yields: measured position
      minus the part's report position. */
  function AnchoredOrigin(parts: seq<Part>, line: LogLine): (o: Position)
    requires Anchors(parts, line)
    ensures exists i :: (0 <= i < |parts| && parts[i].componentName == line.designator &&
                         o == Position(line.x - parts[i].pos.x, line.y - parts[i].pos.y) &&
                         (forall j :: 0 <= j < i ==> parts[j].componentName != line.designator))
  {
    var p := PartPosition(parts, line.designator).value;
    Position(line.x - p.x, line.y - p.y)
  }

  /** A found board line sets the origin and nothing else; any other line
      leaves the origin alone, and a board line never touches the tapes. */
  lemma BoardLine(parts: seq<Part>, c: PnPConfig, line: LogLine)
    requires SimpleConfigValid(c)
    ensures Anchors(parts, line) ==>
      SimpleStep(parts, c, line) == c.(boardOrigin := Some(AnchoredOrigin(parts, line)))
    ensures !Anchors(parts, line) ==> SimpleStep(parts, c, line).boardOrigin == c.boardOrigin
    ensures line.BoardRef? && !Anchors(parts, line) ==> SimpleStep(parts, c, line) == c
    ensures line.Unparsable? ==> SimpleStep(parts, c, line) == c
  {
  }

  // ---------------------------------------------------------------------
  // Properties of the whole log

  /** Without a found board line the origin stays as it was. */
  lemma {:induction false} OriginKept(parts: seq<Part>, c: PnPConfig, lines: seq<LogLine>)
    requires SimpleConfigValid(c)
    requires forall j :: 0 <= j < |lines| ==> !Anchors(parts, lines[j])
    ensures SimpleRun(parts, c, lines).boardOrigin == c.boardOrigin
    decreases |lines|
  {
    if lines != [] {
      BoardLine(parts, c, lines[0]);
      OriginKept(parts, SimpleStep(parts, c, lines[0]), lines[1..]);
    }
  }

  /** The last found board line alone decides the origin; earlier ones are
      overwritten, not averaged. */
  lemma {:induction false} OriginLastWins(parts: seq<Part>, c: PnPConfig, lines: seq<LogLine>, k: nat)
    requires SimpleConfigValid(c)
    requires k < |lines| && Anchors(parts, lines[k])
    requires forall j :: k < j < |lines| ==> !Anchors(parts, lines[j])
    ensures SimpleRun(parts, c, lines).boardOrigin == Some(AnchoredOrigin(parts, lines[k]))
    decreases |lines|
  {
    BoardLine(parts, c, lines[0]);
    var next := SimpleStep(parts, c, lines[0]);
    if k == 0 {
      OriginKept(parts, next, lines[1..]);
    } else {
      OriginLastWins(parts, next, lines[1..], k - 1);
    }
  }

  /** Slot 1 measured at (0, 0) and slot 3 at (8, 0) give a spacing of (4, 0), not (8, 0). */
  lemma SpacingExample(parts: seq<Part>)
    ensures var c := ParseSimple(parts, [TapeSlot(1, "R1", 0.0, 0.0, 0.0), TapeSlot(3, "R1", 8.0, 0.0, 0.0)]);
      TapeFor(c, "R1") == Some(Tape(Some(Pos3(0.0, 0.0, 0.0)), Some(Spacing(4.0, 0.0)), None, None))
  {
  }

  /** Unlike the declarative layout, the log may yield a zero spacing: a
      later slot measured where slot 1 was. */
  lemma ZeroSpacingAccepted(parts: seq<Part>)
    ensures var c := ParseSimple(parts, [TapeSlot(1, "C1", 5.0, 5.0, 1.0), TapeSlot(2, "C1", 5.0, 5.0, 1.0)]);
      TapeFor(c, "C1").Some? && TapeFor(c, "C1").value.spacing == Some(Spacing(0.0, 0.0))
  {
  }
}
