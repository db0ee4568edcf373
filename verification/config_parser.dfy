/** ParsePnPConfiguration: the declarative feeder layout.  Each line starts
    with a directive token; `Tape:` opens a new tape for the names that
    follow, `origin:`, `spacing:` and `count:` fill in the open tape,
    `Board:` closes it so that a following `origin:` sets the board origin.
    Any error makes the whole result null and ends the parse. */
module ConfigParser {
  import opened Geometry
  import opened Config

  /** One line of the layout file, already split up: the first word, the
      words after it (as the name list of `Tape:` reads them), the leading
      numbers `%f` converts from the rest of the line (so a `sscanf` asking
      for n floats succeeds exactly when there are at least n), and the
      integer `%d` converts from it, if any.  Text-to-number conversion is
      not modelled. */
  datatype ConfigLine = ConfigLine(
    token: string,
    names: seq<string>,
    numbers: seq<real>,
    integer: Option<int>)

  /** The parser's state besides the result: the tape lines currently
      apply to (`current_tape`, as an index). */
  datatype ParseState = ParseState(config: PnPConfig, current: Option<nat>)

  const Initial: ParseState := ParseState(EmptyConfig, None)

  /** What every configuration this parser returns satisfies: keys refer to
      tapes, no tape has a zero spacing, and no tape has an angle. */
  predicate ParsedConfigValid(c: PnPConfig)
  {
    && RegistryValid(c)
    && (forall i :: 0 <= i < |c.tapes| ==> c.tapes[i].spacing != Some(Spacing(0.0, 0.0)))
    && (forall i :: 0 <= i < |c.tapes| ==> c.tapes[i].angle == None)
  }

  predicate StateValid(st: ParseState)
  {
    ParsedConfigValid(st.config) && (st.current.Some? ==> st.current.value < |st.config.tapes|)
  }

  /** A line that is skipped before any directive is looked at. */
  predicate IsSkipped(line: ConfigLine)
  {
    line.token == "" || line.token[0] == '#'
  }

  /** The names a `Tape:` line binds.  The token is cleared before the name
      list is read, and a read that finds no word leaves it empty, so a
      `Tape:` line without names binds the empty key. */
  function TapeNames(names: seq<string>): (r: seq<string>)
    ensures |r| > 0
    ensures names != [] ==> r == names
  {
    if names == [] then [""] else names
  }

  /** The key map after binding every name in `names` to tape `idx`, one
      assignment per name in order. */
  function BindAll(m: map<string, nat>, names: seq<string>, idx: nat): (r: map<string, nat>)
    ensures forall k :: k in r <==> k in m || k in names
    ensures forall k :: k in r ==> r[k] == if k in names then idx else m[k]
    decreases |names|
  {
    if names == [] then m
    else BindAll(m, names[..|names| - 1], idx)[names[|names| - 1] := idx]
  }

  /** One turn of the parse loop.  `None` is the null result. */
  function Step(st: ParseState, line: ConfigLine): (r: Option<ParseState>)
    requires StateValid(st)
    ensures r.Some? ==> StateValid(r.value)
  {
    var c := st.config;
    var n := line.numbers;
    if IsSkipped(line) then Some(st)
    else if line.token == "Board:" then Some(st.(current := None))
    else if line.token == "Tape:" then
      var idx := |c.tapes|;
      Some(ParseState(
        c.(tapes := c.tapes + [NewTape], tapeFor := BindAll(c.tapeFor, TapeNames(line.names), idx)),
        Some(idx)))
    else if line.token == "origin:" then
      if st.current.Some? then
        if |n| < 3 then None
        else
          var t := st.current.value;
          Some(st.(config := c.(tapes := c.tapes[t := c.tapes[t].(first := Some(Pos3(n[0], n[1], n[2])))])))
      else if |n| < 2 then None
      else Some(st.(config := c.(boardOrigin := Some(Position(n[0], n[1])))))
    else if line.token == "spacing:" then
      if st.current.None? || |n| < 2 || (n[0] == 0.0 && n[1] == 0.0) then None
      else
        var t := st.current.value;
        Some(st.(config := c.(tapes := c.tapes[t := c.tapes[t].(spacing := Some(Spacing(n[0], n[1])))])))
    else if line.token == "count:" then
      if st.current.None? || line.integer.None? then None
      else
        var t := st.current.value;
        Some(st.(config := c.(tapes := c.tapes[t := c.tapes[t].(count := line.integer)])))
    else
      // Unknown directives, `angle:` among them, are ignored.
      Some(st)
  }

  /** The loop over the remaining lines; it stops at the first null. */
  function Run(st: ParseState, lines: seq<ConfigLine>): (r: Option<ParseState>)
    requires StateValid(st)
    ensures r.Some? ==> StateValid(r.value)
    decreases |lines|
  {
    if lines == [] then Some(st)
    else
      match Step(st, lines[0])
      case None => None
      case Some(next) => Run(next, lines[1..])
  }

  /** The configuration the layout file describes, or `None` for null. */
  function ParsePnP(lines: seq<ConfigLine>): (r: Option<PnPConfig>)
    ensures r.Some? ==> ParsedConfigValid(r.value)
  {
    match Run(Initial, lines)
    case None => None
    case Some(st) => Some(st.config)
  }

  /** The inner loop of `Tape:`: bind each name in turn to tape `idx`. */
  method BindNames(m: map<string, nat>, names: seq<string>, idx: nat) returns (r: map<string, nat>)
    ensures r == BindAll(m, names, idx)
  {
    r := m;
    var j := 0;
    while j < |names|
      invariant 0 <= j <= |names|
      invariant r == BindAll(m, names[..j], idx)
    {
      r := r[names[j] := idx];
      assert names[..j + 1][..j] == names[..j];
      j := j + 1;
    }
    assert names[..j] == names;
  }

  method ParsePnPConfiguration(lines: seq<ConfigLine>) returns (result: Option<PnPConfig>)
    ensures result == ParsePnP(lines)
    ensures result.Some? ==> ParsedConfigValid(result.value)
  {
    var tapes: seq<Tape> := [];
    var tapeFor: map<string, nat> := map[];
    var boardOrigin: Option<Position> := None;
    var current: Option<nat> := None;
    var failed := false;
    var i := 0;
    while !failed && i < |lines|
      invariant 0 <= i <= |lines|
      invariant StateValid(ParseState(PnPConfig(tapes, tapeFor, boardOrigin), current))
      invariant failed ==> Run(Initial, lines) == None
      invariant !failed ==>
        Run(Initial, lines) == Run(ParseState(PnPConfig(tapes, tapeFor, boardOrigin), current), lines[i..])
    {
      ghost var st := ParseState(PnPConfig(tapes, tapeFor, boardOrigin), current);
      var line := lines[i];
      var token := line.token;
      var n := line.numbers;
      if token == "" || token[0] == '#' {
        // continue
        assert Step(st, line) == Some(st);
      } else if token == "Board:" {
        current := None;
        assert Step(st, line) == Some(st.(current := None));
      } else if token == "Tape:" {
        tapes := tapes + [NewTape];
        current := Some(|tapes| - 1);
        tapeFor := BindNames(tapeFor, TapeNames(line.names), |tapes| - 1);
        assert Step(st, line) == Some(ParseState(PnPConfig(tapes, tapeFor, boardOrigin), current));
      } else if token == "origin:" {
        if current.Some? {
          if |n| < 3 {
            failed := true;
          } else {
            tapes := tapes[current.value := tapes[current.value].(first := Some(Pos3(n[0], n[1], n[2])))];
          }
        } else {
          if |n| < 2 {
            failed := true;
          } else {
            boardOrigin := Some(Position(n[0], n[1]));
          }
        }
        assert Step(st, line) == if failed then None else Some(ParseState(PnPConfig(tapes, tapeFor, boardOrigin), current));
      } else if token == "spacing:" {
        // Without a tape the source breaks out of the loop; the flag ends it the same way.
        if current.None? {
          failed := true;
        } else if |n| < 2 {
          failed := true;
        } else if n[0] == 0.0 && n[1] == 0.0 {
          failed := true;
        } else {
          tapes := tapes[current.value := tapes[current.value].(spacing := Some(Spacing(n[0], n[1])))];
        }
        assert Step(st, line) == if failed then None else Some(ParseState(PnPConfig(tapes, tapeFor, boardOrigin), current));
      } else if token == "count:" {
        if current.None? {
          failed := true;
        } else if line.integer.None? {
          failed := true;
        } else {
          tapes := tapes[current.value := tapes[current.value].(count := line.integer)];
        }
        assert Step(st, line) == if failed then None else Some(ParseState(PnPConfig(tapes, tapeFor, boardOrigin), current));
      } else {
        assert Step(st, line) == Some(st);
      }
      assert lines[i..][0] == line && lines[i..][1..] == lines[i + 1..];
      i := i + 1;
    }
    if failed {
      result := None;
    } else {
      assert lines[i..] == [];
      result := Some(PnPConfig(tapes, tapeFor, boardOrigin));
    }
  }

  // ---------------------------------------------------------------------
  // Properties of single lines

  /** Blank and comment lines, unknown directives and `angle:` (the branch
      meant for it tests "spacing:" a second time and is never reached)
      leave everything as it was. */
  lemma IgnoredLine(st: ParseState, line: ConfigLine)
    requires StateValid(st)
    requires IsSkipped(line) || line.token !in {"Board:", "Tape:", "origin:", "spacing:", "count:"}
    ensures Step(st, line) == Some(st)
  {
  }

  /** `Tape:` appends one fresh tape, makes it current, and binds every name
      of the line to that one tape; all other keys keep their tape. */
  lemma TapeDirective(st: ParseState, line: ConfigLine)
    requires StateValid(st)
    requires line.token == "Tape:"
    ensures Step(st, line).Some?
    ensures var c, c' := st.config, Step(st, line).value.config;
      && |c'.tapes| == |c.tapes| + 1
      && c'.tapes[..|c.tapes|] == c.tapes
      && c'.tapes[|c.tapes|] == NewTape
      && Step(st, line).value.current == Some(|c.tapes|)
      && c'.boardOrigin == c.boardOrigin
      && (forall k :: k in line.names ==> k in c'.tapeFor && c'.tapeFor[k] == |c.tapes|)
      && (line.names == [] ==> "" in c'.tapeFor && c'.tapeFor[""] == |c.tapes|)
      && (forall k :: k !in TapeNames(line.names) ==>
            (k in c'.tapeFor <==> k in c.tapeFor) && (k in c.tapeFor ==> c'.tapeFor[k] == c.tapeFor[k]))
  {
  }

  /** `origin:` sets the open tape's first position from three numbers, or,
      with no open tape, the board origin from two; fewer numbers make the
      result null. */
  lemma OriginDirective(st: ParseState, line: ConfigLine)
    requires StateValid(st)
    requires line.token == "origin:"
    ensures st.current.Some? ==>
      if |line.numbers| < 3 then Step(st, line) == None
      else
        var t, n := st.current.value, line.numbers;
        && Step(st, line) == Some(st.(config := st.config.(tapes :=
             st.config.tapes[t := st.config.tapes[t].(first := Some(Pos3(n[0], n[1], n[2])))])))
        && Step(st, line).value.config.tapes[t].first == Some(Pos3(n[0], n[1], n[2]))
    ensures st.current.None? ==>
      if |line.numbers| < 2 then Step(st, line) == None
      else
        && Step(st, line) == Some(st.(config := st.config.(boardOrigin :=
             Some(Position(line.numbers[0], line.numbers[1])))))
        && Step(st, line).value.config.boardOrigin == Some(Position(line.numbers[0], line.numbers[1]))
  {
  }

  /** The lines that make the whole configuration null. */
  lemma ErrorLines(st: ParseState, line: ConfigLine)
    requires StateValid(st)
    ensures line.token in {"spacing:", "count:"} && st.current.None? ==> Step(st, line) == None
    ensures line.token == "spacing:" && |line.numbers| < 2 ==> Step(st, line) == None
    ensures line.token == "spacing:" && |line.numbers| >= 2 && line.numbers[0] == 0.0 && line.numbers[1] == 0.0
      ==> Step(st, line) == None
    ensures line.token == "count:" && line.integer.None? ==> Step(st, line) == None
  {
  }

  /** A well-formed `spacing:` or `count:` changes only the open tape's
      field of that name. */
  lemma SpacingAndCountDirectives(st: ParseState, line: ConfigLine)
    requires StateValid(st)
    requires st.current.Some?
    ensures var t, n := st.current.value, line.numbers;
      line.token == "spacing:" && |n| >= 2 && !(n[0] == 0.0 && n[1] == 0.0) ==>
        Step(st, line) == Some(st.(config := st.config.(tapes :=
          st.config.tapes[t := st.config.tapes[t].(spacing := Some(Spacing(n[0], n[1])))])))
    ensures var t := st.current.value;
      line.token == "count:" && line.integer.Some? ==>
        Step(st, line) == Some(st.(config := st.config.(tapes :=
          st.config.tapes[t := st.config.tapes[t].(count := line.integer)])))
  {
  }

  // ---------------------------------------------------------------------
  // Properties of the whole loop

  /** Parsing a file in two pieces is parsing the first piece and going on
      from where it ended, unless it ended null. */
  lemma {:induction false} RunAppend(st: ParseState, a: seq<ConfigLine>, b: seq<ConfigLine>)
    requires StateValid(st)
    ensures Run(st, a + b) == match Run(st, a)
      case None => None
      case Some(mid) => Run(mid, b)
    decreases |a|
  {
    if a == [] {
      assert a + b == b;
    } else {
      assert (a + b)[0] == a[0] && (a + b)[1..] == a[1..] + b;
      match Step(st, a[0])
      case None =>
      case Some(next) => RunAppend(next, a[1..], b);
    }
  }

  /** Once the result is null no later line changes that. */
  lemma NullIsFinal(lines: seq<ConfigLine>, k: nat)
    requires k <= |lines|
    requires Run(Initial, lines[..k]) == None
    ensures ParsePnP(lines) == None
  {
    RunAppend(Initial, lines[..k], lines[k..]);
    assert lines[..k] + lines[k..] == lines;
  }

  function TapeLine(names: seq<string>): ConfigLine { ConfigLine("Tape:", names, [], None) }
  function OriginLine(n: seq<real>): ConfigLine { ConfigLine("origin:", [], n, None) }

  /** The names of one `Tape:` line share one tape: an `origin:` after it is
      seen through every one of them. */
  lemma {:induction false} SharedTape(st: ParseState, names: seq<string>, x: real, y: real, z: real)
    requires StateValid(st)
    ensures var r := Run(st, [TapeLine(names), OriginLine([x, y, z])]);
      && r.Some?
      && forall k :: k in names ==>
           k in r.value.config.tapeFor && TapeFor(r.value.config, k) == Some(Tape(Some(Pos3(x, y, z)), None, None, None))
  {
    TapeDirective(st, TapeLine(names));
    var s1 := Step(st, TapeLine(names)).value;
    OriginDirective(s1, OriginLine([x, y, z]));
    var s2 := Step(s1, OriginLine([x, y, z])).value;
    assert Run(s1, [OriginLine([x, y, z])]) == Some(s2);
    assert Run(st, [TapeLine(names), OriginLine([x, y, z])]) == Run(s1, [OriginLine([x, y, z])]);
  }

  /** After `Board:` an `origin:` line sets the board origin even when a
      tape was open. */
  lemma {:induction false} BoardClosesTape(st: ParseState, x: real, y: real)
    requires StateValid(st)
    ensures var r := Run(st, [ConfigLine("Board:", [], [], None), OriginLine([x, y])]);
      && r.Some?
      && r.value.config.boardOrigin == Some(Position(x, y))
      && r.value.config.tapes == st.config.tapes
      && r.value.config.tapeFor == st.config.tapeFor
  {
    var board := ConfigLine("Board:", [], [], None);
    var s1 := st.(current := None);
    assert Step(st, board) == Some(s1);
    OriginDirective(s1, OriginLine([x, y]));
    assert Run(st, [board, OriginLine([x, y])]) == Run(s1, [OriginLine([x, y])]);
  }
}
