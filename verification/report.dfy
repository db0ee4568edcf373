/** The conversion at the heart of main.cc: compute the bounding box of the
    report's parts, then drive a printer with Init, one PrintPart per part in
    machine coordinates (X shifted to the smallest X, Y mirrored at the
    largest Y, both moved by a fixed offset), and Finish. */
module Report {
  import opened Geometry

  /** An axis-aligned rectangle; also the four arguments of Printer::Init. */
  datatype Box = Box(minX: real, minY: real, maxX: real, maxY: real)

  predicate Within(b: Box, p: Position)
  {
    b.minX <= p.x <= b.maxX && b.minY <= p.y <= b.maxY
  }

  /** `b` is the smallest box holding every part: it contains them all and
      each of its four sides touches some part. */
  ghost predicate IsBoundingBox(parts: seq<Part>, b: Box)
  {
    && (forall i :: 0 <= i < |parts| ==> Within(b, parts[i].pos))
    && (exists i :: 0 <= i < |parts| && parts[i].pos.x == b.minX)
    && (exists i :: 0 <= i < |parts| && parts[i].pos.y == b.minY)
    && (exists i :: 0 <= i < |parts| && parts[i].pos.x == b.maxX)
    && (exists i :: 0 <= i < |parts| && parts[i].pos.y == b.maxY)
  }

  /** std::min / std::max on the coordinates. */
  function Min(a: real, b: real): real { if b < a then b else a }
  function Max(a: real, b: real): real { if a < b then b else a }

  /** The single pass over the part list that finds min_x, min_y, max_x and
      max_y.  The first part is read before the loop, so the list must not
      be empty. */
  method ComputeBoundingBox(parts: seq<Part>) returns (b: Box)
    requires |parts| > 0
    ensures IsBoundingBox(parts, b)
  {
    var minX, minY := parts[0].pos.x, parts[0].pos.y;
    var maxX, maxY := parts[0].pos.x, parts[0].pos.y;
    ghost var wMinX, wMinY, wMaxX, wMaxY := 0, 0, 0, 0;
    var i := 0;
    while i < |parts|
      invariant 0 <= i <= |parts|
      invariant forall j :: 0 <= j < i ==> Within(Box(minX, minY, maxX, maxY), parts[j].pos)
      invariant 0 <= wMinX < |parts| && parts[wMinX].pos.x == minX
      invariant 0 <= wMinY < |parts| && parts[wMinY].pos.y == minY
      invariant 0 <= wMaxX < |parts| && parts[wMaxX].pos.x == maxX
      invariant 0 <= wMaxY < |parts| && parts[wMaxY].pos.y == maxY
    {
      var p := parts[i].pos;
      if p.x < minX { wMinX := i; }
      if p.y < minY { wMinY := i; }
      if maxX < p.x { wMaxX := i; }
      if maxY < p.y { wMaxY := i; }
      minX := Min(minX, p.x);
      minY := Min(minY, p.y);
      maxX := Max(maxX, p.x);
      maxY := Max(maxY, p.y);
      i := i + 1;
    }
    b := Box(minX, minY, maxX, maxY);
  }

  /** The bounding box does not depend on the order of the parts nor on how
      it was computed: two boxes that both bound the list are equal. */
  lemma BoundingBoxUnique(parts: seq<Part>, b1: Box, b2: Box)
    requires IsBoundingBox(parts, b1) && IsBoundingBox(parts, b2)
    ensures b1 == b2
  {
  }

  /** Reordering the parts (as the path optimizer does) keeps the box. */
  lemma BoundingBoxOfPermutation(parts: seq<Part>, ordered: seq<Part>, b: Box)
    requires multiset(ordered) == multiset(parts)
    requires IsBoundingBox(parts, b)
    ensures IsBoundingBox(ordered, b)
  {
    forall i | 0 <= i < |ordered| ensures Within(b, ordered[i].pos) {
      assert ordered[i] in multiset(parts);
    }
    var a :| 0 <= a < |parts| && parts[a].pos.x == b.minX;
    var c :| 0 <= c < |parts| && parts[c].pos.y == b.minY;
    var d :| 0 <= d < |parts| && parts[d].pos.x == b.maxX;
    var e :| 0 <= e < |parts| && parts[e].pos.y == b.maxY;
    assert parts[a] in multiset(ordered) && parts[c] in multiset(ordered);
    assert parts[d] in multiset(ordered) && parts[e] in multiset(ordered);
  }

  /** The rectangle handed to Printer::Init: the board moved so that its
      lower-left corner sits at the offset. */
  function InitRect(b: Box, offset: Position): (r: Box)
    ensures r.minX == offset.x && r.minY == offset.y
    ensures r.maxX - r.minX == b.maxX - b.minX && r.maxY - r.minY == b.maxY - b.minY
  {
    Box(offset.x, offset.y, (b.maxX - b.minX) + offset.x, (b.maxY - b.minY) + offset.y)
  }

  /** Report space to machine space: X is shifted so that the smallest X
      lands on the offset, Y is mirrored at the largest Y. */
  function ToMachine(b: Box, offset: Position, p: Position): (q: Position)
    ensures Within(b, p) ==> Within(InitRect(b, offset), q)
    ensures p.x == b.minX ==> q.x == offset.x
    ensures p.y == b.maxY ==> q.y == offset.y
    ensures p.y == b.minY ==> q.y == b.maxY - b.minY + offset.y
  {
    Position(p.x + offset.x - b.minX, b.maxY - p.y + offset.y)
  }

  /** The transform is a rigid motion: X differences are kept, Y differences
      change sign, so X order is kept, Y order reversed and distances kept. */
  lemma ToMachineIsometry(b: Box, offset: Position, p1: Position, p2: Position)
    ensures ToMachine(b, offset, p1).x - ToMachine(b, offset, p2).x == p1.x - p2.x
    ensures ToMachine(b, offset, p1).y - ToMachine(b, offset, p2).y == -(p1.y - p2.y)
    ensures p1.x < p2.x <==> ToMachine(b, offset, p1).x < ToMachine(b, offset, p2).x
    ensures p1.y < p2.y <==> ToMachine(b, offset, p1).y > ToMachine(b, offset, p2).y
    ensures SquaredDistance(ToMachine(b, offset, p1), ToMachine(b, offset, p2)) == SquaredDistance(p1, p2)
  {
  }

  /** Y from 0 to 100 and offset (10, 10): a point on the top edge maps to y' = 10, one on the bottom edge to y' = 110. */
  lemma ToMachineExample(b: Box)
    requires b.minX == 0.0 && b.minY == 0.0 && b.maxY == 100.0
    ensures ToMachine(b, Position(10.0, 10.0), Position(5.0, 100.0)) == Position(15.0, 10.0)
    ensures ToMachine(b, Position(10.0, 10.0), Position(5.0, 0.0)) == Position(15.0, 110.0)
  {
  }

  /** What a printer is asked to do, in order. */
  datatype Event =
    | InitEvent(rect: Box)
    | PrintPartEvent(pos: Position, part: Part)
    | FinishEvent

  /** Stands for any of the concrete printers (G-code dispensing, corner
      indicator, PostScript): it records the calls it receives. */
  class Printer {
    var events: seq<Event>

    constructor ()
      ensures events == []
    {
      events := [];
    }

    method Init(minX: real, minY: real, maxX: real, maxY: real)
      modifies this
      ensures events == old(events) + [InitEvent(Box(minX, minY, maxX, maxY))]
    {
      events := events + [InitEvent(Box(minX, minY, maxX, maxY))];
    }

    method PrintPart(pos: Position, part: Part)
      modifies this
      ensures events == old(events) + [PrintPartEvent(pos, part)]
    {
      events := events + [PrintPartEvent(pos, part)];
    }

    method Finish()
      modifies this
      ensures events == old(events) + [FinishEvent]
    {
      events := events + [FinishEvent];
    }
  }

  /** One PrintPart per part, in list order, at its machine position. */
  function PartEvents(b: Box, offset: Position, ordered: seq<Part>): seq<Event>
    decreases |ordered|
  {
    if ordered == [] then []
    else
      var last := ordered[|ordered| - 1];
      PartEvents(b, offset, ordered[..|ordered| - 1]) + [PrintPartEvent(ToMachine(b, offset, last.pos), last)]
  }

  /** Everything a printer receives for one board. */
  function Session(b: Box, offset: Position, ordered: seq<Part>): seq<Event>
  {
    [InitEvent(InitRect(b, offset))] + PartEvents(b, offset, ordered) + [FinishEvent]
  }

  /** The printer protocol: Init exactly once and first, Finish exactly once
      and last, only PrintPart calls in between. */
  predicate WellFormedSession(events: seq<Event>)
  {
    && |events| >= 2
    && events[0].InitEvent?
    && events[|events| - 1].FinishEvent?
    && forall i :: 0 < i < |events| - 1 ==> events[i].PrintPartEvent?
  }

  lemma {:induction false} PartEventsAt(b: Box, offset: Position, ordered: seq<Part>)
    ensures |PartEvents(b, offset, ordered)| == |ordered|
    ensures forall k :: 0 <= k < |ordered| ==>
      PartEvents(b, offset, ordered)[k] == PrintPartEvent(ToMachine(b, offset, ordered[k].pos), ordered[k])
    decreases |ordered|
  {
    if ordered != [] {
      var init := ordered[..|ordered| - 1];
      PartEventsAt(b, offset, init);
      forall k | 0 <= k < |ordered|
        ensures PartEvents(b, offset, ordered)[k] == PrintPartEvent(ToMachine(b, offset, ordered[k].pos), ordered[k])
      {
        if k < |init| {
          assert ordered[k] == init[k];
        }
      }
    }
  }

  /** The session follows the printer protocol, and the k-th PrintPart
      carries the k-th part unchanged at its machine position. */
  lemma SessionProtocol(b: Box, offset: Position, ordered: seq<Part>)
    ensures WellFormedSession(Session(b, offset, ordered))
    ensures |Session(b, offset, ordered)| == |ordered| + 2
    ensures Session(b, offset, ordered)[0] == InitEvent(InitRect(b, offset))
    ensures forall k :: 0 <= k < |ordered| ==>
      Session(b, offset, ordered)[k + 1] == PrintPartEvent(ToMachine(b, offset, ordered[k].pos), ordered[k])
  {
    PartEventsAt(b, offset, ordered);
    var s := Session(b, offset, ordered);
    forall i | 0 < i < |s| - 1 ensures s[i].PrintPartEvent? {
      assert s[i] == PartEvents(b, offset, ordered)[i - 1];
    }
  }

  /** Every position sent to PrintPart lies inside the rectangle sent to
      Init, when the printed parts are a reordering of the bounded ones. */
  lemma SessionInsideInitRect(parts: seq<Part>, b: Box, offset: Position, ordered: seq<Part>)
    requires IsBoundingBox(parts, b)
    requires multiset(ordered) == multiset(parts)
    ensures Session(b, offset, ordered)[0] == InitEvent(InitRect(b, offset))
    ensures forall i :: 0 < i < |Session(b, offset, ordered)| - 1 ==>
      Session(b, offset, ordered)[i].PrintPartEvent? &&
      Within(InitRect(b, offset), Session(b, offset, ordered)[i].pos)
  {
    SessionProtocol(b, offset, ordered);
    BoundingBoxOfPermutation(parts, ordered, b);
    var s := Session(b, offset, ordered);
    forall i | 0 < i < |s| - 1 ensures s[i].PrintPartEvent? && Within(InitRect(b, offset), s[i].pos) {
      assert s[i] == PrintPartEvent(ToMachine(b, offset, ordered[i - 1].pos), ordered[i - 1]);
      assert Within(b, ordered[i - 1].pos);
    }
  }

  /** main.cc from the parsed part list to Finish: bounding box, Init with
      the shifted rectangle, PrintPart per part of the optimizer's order,
      Finish.  `ordered` is the list after OptimizeParts, which reorders the
      parts without changing them. */
  method ConvertReport(parts: seq<Part>, ordered: seq<Part>, offset: Position, printer: Printer)
    returns (b: Box)
    requires |parts| > 0
    requires multiset(ordered) == multiset(parts)
    modifies printer
    ensures IsBoundingBox(parts, b)
    ensures printer.events == old(printer.events) + Session(b, offset, ordered)
  {
    b := ComputeBoundingBox(parts);
    printer.Init(offset.x, offset.y, (b.maxX - b.minX) + offset.x, (b.maxY - b.minY) + offset.y);
    ghost var before := old(printer.events) + [InitEvent(InitRect(b, offset))];
    var i := 0;
    while i < |ordered|
      invariant 0 <= i <= |ordered|
      invariant printer.events == before + PartEvents(b, offset, ordered[..i])
    {
      var part := ordered[i];
      printer.PrintPart(Position(part.pos.x + offset.x - b.minX, b.maxY - part.pos.y + offset.y), part);
      assert ordered[..i + 1][..i] == ordered[..i];
      i := i + 1;
    }
    assert ordered[..i] == ordered;
    printer.Finish();
  }
}
