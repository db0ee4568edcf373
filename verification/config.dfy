/** The feeder registry both configuration parsers build: a list of tapes
    and a map from component key to the index of the tape that serves it.
    Several keys may share one tape, so the map holds indices rather than
    copies; a tape's setters become updates of its record in the list. */
module Config {
  import opened Geometry

  /** A pick position on the machine, with height. */
  datatype Pos3 = Pos3(x: real, y: real, z: real)

  /** Offset from one component slot of a tape to the next. */
  datatype Spacing = Spacing(dx: real, dy: real)

  /** The fields a tape's setters store: SetFirstComponentPosition,
      SetComponentSpacing, SetAngle and SetNumberComponents.  `None` is a
      field no setter has written yet. */
  datatype Tape = Tape(
    first: Option<Pos3>,
    spacing: Option<Spacing>,
    angle: Option<real>,
    count: Option<int>)

  /** A tape as `new Tape()` leaves it. */
  const NewTape: Tape := Tape(None, None, None, None)

  /** The parse result: the tapes, the key-to-tape map and the board origin
      (`None` while no line has set it). */
  datatype PnPConfig = PnPConfig(
    tapes: seq<Tape>,
    tapeFor: map<string, nat>,
    boardOrigin: Option<Position>)

  /** A freshly constructed configuration. */
  const EmptyConfig: PnPConfig := PnPConfig([], map[], None)

  /** Every key refers to a tape of the registry. */
  predicate RegistryValid(c: PnPConfig)
  {
    forall k :: k in c.tapeFor ==> c.tapeFor[k] < |c.tapes|
  }

  /** The tape that serves `key`, if any. */
  function TapeFor(c: PnPConfig, key: string): (t: Option<Tape>)
    requires RegistryValid(c)
    ensures t.Some? <==> key in c.tapeFor
    ensures t.Some? ==> t.value in c.tapes
  {
    if key in c.tapeFor then Some(c.tapes[c.tapeFor[key]]) else None
  }
}
