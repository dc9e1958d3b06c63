/** The plotting session of src/app.py: the loaded program, the cursor
    into it, the plotting and paused flags and the tracked gondola
    position, driven by the HTTP handlers and by the acknowledgements the
    plotter sends back. Socket.IO notifications are recorded in a ghost
    event log; `float(...)` and `str(float)` are the parameters `parse` and
    `repr`. */
module Controller {
  import opened Text
  import opened SerialLink
  import opened Settings

  datatype Gondola = Gondola(x: real, y: real, z: real)

  /** `{'x': 0, 'y': 0, 'z': 90}`. */
  const Home := Gondola(0.0, 0.0, 90.0)

  /** The Socket.IO notifications the session emits. */
  datatype Event =
    | SerialMessage(text: string)
    | Progress(current: nat, total: nat, percent: int)
    | Complete

  // ---------------------------------------------------------------------
  // Which lines are sent
  // ---------------------------------------------------------------------

  /** A program line that is sent: not blank and not a `;` comment once
      stripped. */
  predicate IsCommand(line: string) {
    Strip(line) != [] && !StartsWith(Strip(line), ";")
  }

  /** The line a dispatch sends when started at `from`: the first command
      at or after `from`, or the end of the program when there is none
      (or `from` itself when it is already past the end). */
  function NextReal(gcode: seq<string>, from: nat): (j: nat)
    ensures from <= j
    ensures from >= |gcode| ==> j == from
    ensures from < |gcode| ==> j <= |gcode|
    ensures j < |gcode| ==> IsCommand(gcode[j])
    decreases |gcode| - from
  {
    if from >= |gcode| || IsCommand(gcode[from]) then from else NextReal(gcode, from + 1)
  }

  /** Every line a dispatch passes over is blank or a comment. */
  lemma {:induction false} NextRealSkips(gcode: seq<string>, from: nat)
    ensures forall k :: from <= k < NextReal(gcode, from) && k < |gcode| ==> !IsCommand(gcode[k])
    decreases |gcode| - from
  {
    if from < |gcode| && !IsCommand(gcode[from]) {
      NextRealSkips(gcode, from + 1);
    }
  }

  /** A blank or comment line does not change where a dispatch ends. */
  lemma SkipLine(gcode: seq<string>, c0: nat)
    requires c0 < |gcode| && !IsCommand(gcode[c0])
    ensures NextReal(gcode, c0) == NextReal(gcode, c0 + 1)
    ensures DispatchOf(gcode, c0) == DispatchOf(gcode, c0 + 1)
    ensures CursorAfter(gcode, c0) == CursorAfter(gcode, c0 + 1)
  {
  }

  /** The indices one dispatch sends: at most one. */
  function DispatchOf(gcode: seq<string>, from: nat): (r: seq<nat>)
    ensures |r| <= 1
    ensures r != [] ==> from <= r[0] < |gcode|
  {
    var j := NextReal(gcode, from);
    if j < |gcode| then [j] else []
  }

  /** The cursor after one dispatch: one past the line sent, or the end. */
  function CursorAfter(gcode: seq<string>, from: nat): (c: nat)
    ensures from <= c
    ensures DispatchOf(gcode, from) != [] ==> from < c <= |gcode| && c == DispatchOf(gcode, from)[0] + 1
    ensures DispatchOf(gcode, from) == [] ==> c == NextReal(gcode, from) && (from <= |gcode| ==> c == |gcode|)
  {
    var j := NextReal(gcode, from);
    if j < |gcode| then j + 1 else j
  }

  function LinesAt(gcode: seq<string>, idx: seq<nat>): (r: seq<string>)
    requires forall k :: 0 <= k < |idx| ==> idx[k] < |gcode|
    ensures |r| == |idx|
  {
    seq(|idx|, i requires 0 <= i < |idx| => gcode[idx[i]])
  }

  function Max1(n: nat): nat {
    if n < 1 then 1 else n
  }

  /** The `percent` of a `progress` notification for line `current`. */
  function ProgressPercent(current: nat, total: nat): (p: int)
    ensures current < total ==> 0 <= p <= 100
  {
    (100 * (current + 1)) / Max1(total)
  }

  /** One `progress` notification per line considered, from `from` up to
      (not including) `to`. */
  function ProgressEvents(total: nat, from: nat, to: nat): (r: seq<Event>)
    requires from <= to
    ensures |r| == to - from
  {
    seq(to - from, i requires 0 <= i < to - from => Progress(from + i, total, ProgressPercent(from + i, total)))
  }

  lemma ProgressCons(total: nat, from: nat, to: nat)
    requires from < to
    ensures ProgressEvents(total, from, to) == [Progress(from, total, ProgressPercent(from, total))] + ProgressEvents(total, from + 1, to)
  {
  }

  lemma ProgressSplit(total: nat, a: nat, b: nat, c: nat)
    requires a <= b <= c
    ensures ProgressEvents(total, a, b) + ProgressEvents(total, b, c) == ProgressEvents(total, a, c)
  {
  }

  lemma EventsSplit(e0: seq<Event>, total: nat, a: nat, b: nat, c: nat, tail: seq<Event>)
    requires a <= b <= c
    ensures e0 + ProgressEvents(total, a, b) + ProgressEvents(total, b, c) + tail == e0 + ProgressEvents(total, a, c) + tail
  {
    ProgressSplit(total, a, b, c);
    assert e0 + ProgressEvents(total, a, b) + ProgressEvents(total, b, c) == e0 + (ProgressEvents(total, a, b) + ProgressEvents(total, b, c));
  }

  lemma ProgressSnoc(total: nat, from: nat, to: nat)
    requires from <= to
    ensures ProgressEvents(total, from, to + 1) == ProgressEvents(total, from, to) + [Progress(to, total, ProgressPercent(to, total))]
  {
  }

  /** Every `progress` notification of a dispatch that stays inside the
      program reports a percentage between 0 and 100, for the line it
      names. */
  lemma ProgressBounded(total: nat, from: nat, to: nat)
    requires from <= to <= total
    ensures forall i :: 0 <= i < to - from ==>
      var e := ProgressEvents(total, from, to)[i];
      e.current == from + i && e.total == total && 0 <= e.percent <= 100
  {
    forall i | 0 <= i < to - from
      ensures ProgressEvents(total, from, to)[i] == Progress(from + i, total, ProgressPercent(from + i, total))
    {
    }
  }

  /** The `percent` of `plot_status`. */
  function StatusPercent(cursor: nat, total: nat): (p: int)
    ensures cursor <= total ==> 0 <= p <= 100
    ensures total > 0 && cursor == total ==> p == 100
  {
    (100 * cursor) / Max1(total)
  }

  /** Every command from `from` on, in program order: what repeated
      dispatches send in the end. */
  function Drain(gcode: seq<string>, from: nat): seq<nat>
    decreases |gcode| - from
  {
    var j := NextReal(gcode, from);
    if j >= |gcode| then [] else [j] + Drain(gcode, j + 1)
  }

  /** The drain holds exactly the indices of the commands at or after
      `from`, each once, in increasing order. */
  lemma DrainExact(gcode: seq<string>, from: nat)
    ensures forall k :: k in Drain(gcode, from) <==> from <= k < |gcode| && IsCommand(gcode[k])
    ensures forall a, b :: 0 <= a < b < |Drain(gcode, from)| ==> Drain(gcode, from)[a] < Drain(gcode, from)[b]
  {
    DrainMembers(gcode, from);
    DrainSorted(gcode, from);
    var r := Drain(gcode, from);
    assert Increasing(r);
  }

  predicate Increasing(s: seq<nat>) {
    forall a, b :: 0 <= a < b < |s| ==> s[a] < s[b]
  }

  lemma {:induction false} DrainMembers(gcode: seq<string>, from: nat)
    ensures forall k :: k in Drain(gcode, from) <==> from <= k < |gcode| && IsCommand(gcode[k])
    decreases |gcode| - from
  {
    var j := NextReal(gcode, from);
    NextRealSkips(gcode, from);
    if j < |gcode| {
      DrainMembers(gcode, j + 1);
      var rest := Drain(gcode, j + 1);
      assert Drain(gcode, from) == [j] + rest;
    }
  }

  lemma {:induction false} DrainSorted(gcode: seq<string>, from: nat)
    ensures Increasing(Drain(gcode, from))
    decreases |gcode| - from
  {
    var j := NextReal(gcode, from);
    if j < |gcode| {
      var rest := Drain(gcode, j + 1);
      DrainSorted(gcode, j + 1);
      DrainMembers(gcode, j + 1);
      ConsIncreasing(j, rest);
      assert Drain(gcode, from) == [j] + rest;
    }
  }

  lemma ConsIncreasing(j: nat, rest: seq<nat>)
    requires Increasing(rest) && forall x :: x in rest ==> j < x
    ensures Increasing([j] + rest)
  {
    var r := [j] + rest;
    forall a, b | 0 <= a < b < |r|
      ensures r[a] < r[b]
    {
      if a == 0 {
        assert r[b] in rest;
      } else {
        assert r[a] == rest[a - 1] && r[b] == rest[b - 1];
      }
    }
  }

  /** One dispatch sends the head of the drain and leaves the rest. */
  lemma DrainStep(gcode: seq<string>, from: nat)
    ensures Drain(gcode, from) == DispatchOf(gcode, from) + Drain(gcode, CursorAfter(gcode, from))
  {
    var j := NextReal(gcode, from);
    if j >= |gcode| {
      assert Drain(gcode, j) == [];
    }
  }

  /** The indices sent by `n` dispatches in a row (one per `ok`). */
  function Dispatches(gcode: seq<string>, from: nat, n: nat): seq<nat>
    decreases n
  {
    if n == 0 then [] else DispatchOf(gcode, from) + Dispatches(gcode, CursorAfter(gcode, from), n - 1)
  }

  /** `n` acknowledgements send the first `n` commands after the cursor,
      each exactly once and in order; once every command has been sent,
      further acknowledgements send nothing. */
  lemma {:induction false} DispatchesDrain(gcode: seq<string>, from: nat, n: nat)
    ensures n <= |Drain(gcode, from)| ==> Dispatches(gcode, from, n) == Drain(gcode, from)[..n]
    ensures n >= |Drain(gcode, from)| ==> Dispatches(gcode, from, n) == Drain(gcode, from)
    decreases n
  {
    if n > 0 {
      var c := CursorAfter(gcode, from);
      DrainStep(gcode, from);
      DispatchesDrain(gcode, c, n - 1);
      var d := DispatchOf(gcode, from);
      if d == [] {
        NothingLeft(gcode, c, n - 1);
      } else {
        var rest := Drain(gcode, c);
        if n - 1 <= |rest| {
          assert (d + rest)[..n] == d + rest[..n - 1];
        }
      }
    }
  }

  lemma {:induction false} NothingLeft(gcode: seq<string>, from: nat, n: nat)
    requires DispatchOf(gcode, from) == []
    ensures Dispatches(gcode, from, n) == []
    decreases n
  {
    if n > 0 {
      var c := CursorAfter(gcode, from);
      assert DispatchOf(gcode, c) == [] by {
        assert NextReal(gcode, c) == c;
      }
      NothingLeft(gcode, c, n - 1);
    }
  }

  // ---------------------------------------------------------------------
  // Gondola tracking
  // ---------------------------------------------------------------------

  /** One token of a G0/G1 line: X, Y or Z with a number sets that axis;
      a value `parse` rejects leaves it alone. */
  function TrackToken(g: Gondola, part: string, parse: string -> Option<real>): Gondola {
    if StartsWith(part, "X") then
      (match parse(part[1..]) case Some(v) => g.(x := v) case None => g)
    else if StartsWith(part, "Y") then
      (match parse(part[1..]) case Some(v) => g.(y := v) case None => g)
    else if StartsWith(part, "Z") then
      (match parse(part[1..]) case Some(v) => g.(z := v) case None => g)
    else g
  }

  function TrackTokens(g: Gondola, parts: seq<string>, parse: string -> Option<real>): Gondola
    decreases |parts|
  {
    if parts == [] then g
    else TrackToken(TrackTokens(g, parts[..|parts| - 1], parse), parts[|parts| - 1], parse)
  }

  predicate IsMove(cmd: string) {
    cmd == "G0" || cmd == "G1" || cmd == "G00" || cmd == "G01"
  }

  /** `update_gondola_position(line)`. */
  function Track(g: Gondola, line: string, parse: string -> Option<real>): Gondola {
    var l := Strip(Upper(line));
    var parts := Words(l);
    if l == [] || StartsWith(l, ";") || parts == [] || !IsMove(parts[0]) then g
    else TrackTokens(g, parts[1..], parse)
  }

  /** The value one axis ends with: that of the last token for the axis
      whose number parses, or the start value. */
  function AxisValue(parts: seq<string>, axis: char, start: real, parse: string -> Option<real>): real
    decreases |parts|
  {
    if parts == [] then start
    else
      var p := parts[|parts| - 1];
      if StartsWith(p, [axis]) && parse(p[1..]).Some? then parse(p[1..]).value
      else AxisValue(parts[..|parts| - 1], axis, start, parse)
  }

  /** Each axis is set only by its own tokens. */
  lemma {:induction false} TrackAxes(g: Gondola, parts: seq<string>, parse: string -> Option<real>)
    ensures TrackTokens(g, parts, parse) ==
      Gondola(AxisValue(parts, 'X', g.x, parse), AxisValue(parts, 'Y', g.y, parse), AxisValue(parts, 'Z', g.z, parse))
    decreases |parts|
  {
    if parts != [] {
      TrackAxes(g, parts[..|parts| - 1], parse);
    }
  }

  /** Lines other than G0/G1/G00/G01 moves leave the gondola where it is. */
  lemma TrackOnlyMoves(g: Gondola, line: string, parse: string -> Option<real>)
    requires var parts := Words(Strip(Upper(line))); parts == [] || !IsMove(parts[0])
    ensures Track(g, line, parse) == g
  {
  }

  function TrackLines(g: Gondola, lines: seq<string>, parse: string -> Option<real>): Gondola
    decreases |lines|
  {
    if lines == [] then g else TrackLines(Track(g, lines[0], parse), lines[1..], parse)
  }

  lemma TrackOne(g: Gondola, line: string, parse: string -> Option<real>)
    ensures TrackLines(g, [line], parse) == Track(g, line, parse)
  {
    assert [line][1..] == [];
  }

  // ---------------------------------------------------------------------
  // Start and stop scripts
  // ---------------------------------------------------------------------

  /** The commands `plot_start` sends before the program. */
  const InitCommands: seq<string> :=
    ["M17", "M201 X50 Y50", "M204 P50 T100", "M205 X5 Y5", "G28 X", "G28 Y", "G90", "G0 X0 Y0 F300"]

  /** `n` copies of `c`. */
  function Repeat(c: string, n: nat): (r: seq<string>)
    ensures |r| == n
  {
    if n == 0 then [] else Repeat(c, n - 1) + [c]
  }

  /** The commands `emergency_stop` sends raw: five emergency stops, motors
      off, pen up. */
  const EmergencyCommands: seq<string> := Repeat("M112", 5) + ["M18", "G0 Z90 F1000"]

  /** What `emergency_stop` writes is the raw framing of its commands. */
  lemma EmergencyWire()
    ensures RawFramed(EmergencyCommands) == Repeat("M112\n", 5) + ["M18\n", "G0 Z90 F1000\n"]
  {
    SendTwice(Repeat("M112", 5), ["M18", "G0 Z90 F1000"]);
    SendTwice(["M18"], ["G0 Z90 F1000"]);
    FramedOne("M18");
    FramedOne("G0 Z90 F1000");
    assert "M112" + "\n" == "M112\n" && "M18" + "\n" == "M18\n" && "G0 Z90 F1000" + "\n" == "G0 Z90 F1000\n";
    RepeatFramed("M112", 5);
  }

  lemma {:induction false} RepeatFramed(c: string, n: nat)
    ensures RawFramed(Repeat(c, n)) == Repeat(c + "\n", n)
  {
    if n > 0 {
      RepeatFramed(c, n - 1);
      SendTwice(Repeat(c, n - 1), [c]);
    }
  }

  /** The non-blank pieces of `parts`, stripped, in order. */
  function NonBlank(parts: seq<string>): (r: seq<string>)
    ensures |r| <= |parts|
  {
    if parts == [] then []
    else
      var s := Strip(parts[|parts| - 1]);
      NonBlank(parts[..|parts| - 1]) + (if s != [] then [s] else [])
  }

  /** A script command is never blank and carries no surrounding
      whitespace, so `send_command` sends it unchanged. */
  lemma {:induction false} NonBlankSpec(parts: seq<string>)
    ensures forall k :: 0 <= k < |NonBlank(parts)| ==> NonBlank(parts)[k] != [] && Strip(NonBlank(parts)[k]) == NonBlank(parts)[k]
  {
    if parts != [] {
      var s := Strip(parts[|parts| - 1]);
      NonBlankSpec(parts[..|parts| - 1]);
      StripIdempotent(parts[|parts| - 1]);
    }
  }

  /** Sending one more command of a list extends what is written and
      announced by that command. */
  lemma CommandsStep(cmds: seq<string>, i: nat)
    requires i < |cmds|
    ensures Framed(cmds[..i + 1]) == Framed(cmds[..i]) + Framed([cmds[i]])
    ensures Announced(cmds[..i + 1]) == Announced(cmds[..i]) + Announced([cmds[i]])
    ensures RawFramed(cmds[..i + 1]) == RawFramed(cmds[..i]) + RawFramed([cmds[i]])
  {
    assert cmds[..i + 1] == cmds[..i] + [cmds[i]];
    SendTwice(cmds[..i], [cmds[i]]);
  }

  /** Taking one more line of a script adds its stripped text, if any. */
  /** Sending one more command extends the wire and the notices by its
      frame and its notice. */
  lemma SentAppend(w0: seq<string>, n0: seq<string>, done: seq<string>, s: string, open: bool, callback: bool)
    ensures (w0 + (if open then Framed(done) else [])) + (if open then [Strip(s) + "\n"] else [])
         == w0 + (if open then Framed(done + [s]) else [])
    ensures (n0 + (if open && callback then Announced(done) else [])) + (if open && callback then ["TX: " + Strip(s)] else [])
         == n0 + (if open && callback then Announced(done + [s]) else [])
  {
    FramedOne(s);
    FramedSnoc(done, s);
  }

  /** Sending two batches in turn sends their concatenation. */
  lemma SentBoth(w0: seq<string>, n0: seq<string>, a: seq<string>, b: seq<string>, open: bool, callback: bool)
    ensures (w0 + (if open then Framed(a) else [])) + (if open then Framed(b) else [])
         == w0 + (if open then Framed(a + b) else [])
    ensures (n0 + (if open && callback then Announced(a) else [])) + (if open && callback then Announced(b) else [])
         == n0 + (if open && callback then Announced(a + b) else [])
  {
    SendTwice(a, b);
    if open {
      assert (w0 + Framed(a)) + Framed(b) == w0 + (Framed(a) + Framed(b));
      assert (n0 + Announced(a)) + Announced(b) == n0 + (Announced(a) + Announced(b));
    }
  }

  lemma NonBlankStep(parts: seq<string>, i: nat)
    requires i < |parts|
    ensures NonBlank(parts[..i + 1]) == NonBlank(parts[..i]) + (if Strip(parts[i]) != [] then [Strip(parts[i])] else [])
  {
    assert parts[..i + 1][..i] == parts[..i];
  }

  /** The commands a `start_gcode` / `end_gcode` setting yields: none when
      it is falsy, the non-blank lines of a string, and an error (the
      `.split` of a non-string) otherwise. */
  function ScriptOf(v: Value): Option<seq<string>> {
    if !Truthy(v) then Some([])
    else match v
      case StrVal(s) => Some(NonBlank(SplitOn(s, '\n')))
      case _ => None
  }

  // ---------------------------------------------------------------------
  // The session
  // ---------------------------------------------------------------------

  class Session {
    /** `current_gcode`. */
    var gcode: seq<string>
    /** `current_line`. */
    var cursor: nat
    /** `is_plotting`. */
    var plotting: bool
    /** `is_paused`. */
    var paused: bool
    /** `gondola_position`. */
    var gondola: Gondola
    /** Indices of the program lines dispatched so far. */
    ghost var sent: seq<nat>
    /** Socket.IO notifications so far. */
    ghost var events: seq<Event>

    const link: SerialHandler
    const settings: PlotterSettings
    const parse: string -> Option<real>
    const repr: real -> string

    constructor (link: SerialHandler, settings: PlotterSettings, parse: string -> Option<real>, repr: real -> string)
      ensures gcode == [] && cursor == 0 && !plotting && !paused && gondola == Home
      ensures sent == [] && events == []
      ensures this.link == link && this.settings == settings && this.parse == parse && this.repr == repr
    {
      gcode := [];
      cursor := 0;
      plotting := false;
      paused := false;
      gondola := Home;
      sent := [];
      events := [];
      this.link := link;
      this.settings := settings;
      this.parse := parse;
      this.repr := repr;
    }

    /** The state one active dispatch leaves, started from cursor `c0`,
        gondola `g0`, logs `s0`/`e0` and wire logs `w0`/`n0`. */
    ghost predicate DispatchedFrom(c0: nat, g0: Gondola, s0: seq<nat>, e0: seq<Event>, w0: seq<string>, n0: seq<string>)
      reads this, link
    {
      var d := DispatchOf(gcode, c0);
      var lines := LinesAt(gcode, d);
      && cursor == CursorAfter(gcode, c0)
      && plotting == (d != [])
      && sent == s0 + d
      && gondola == TrackLines(g0, lines, parse)
      && link.written == w0 + (if link.open then Framed(lines) else [])
      && link.notices == n0 + (if link.open && link.hasCallback then Announced(lines) else [])
      && events == e0 + ProgressEvents(|gcode|, c0, cursor) + (if d == [] then [Complete] else [])
    }

    /** `update_gondola_position`: the loop over the tokens of a move. */
    method UpdateGondola(line: string)
      modifies this`gondola
      ensures gondola == Track(old(gondola), line, parse)
    {
      var l := Strip(Upper(line));
      if l == [] || StartsWith(l, ";") {
        return;
      }
      var parts := Words(l);
      if parts == [] || !IsMove(parts[0]) {
        return;
      }
      var rest := parts[1..];
      var i := 0;
      while i < |rest|
        invariant 0 <= i <= |rest|
        invariant gondola == TrackTokens(old(gondola), rest[..i], parse)
      {
        var part := rest[i];
        if StartsWith(part, "X") {
          match parse(part[1..]) {
            case Some(v) => gondola := gondola.(x := v);
            case None =>
          }
        } else if StartsWith(part, "Y") {
          match parse(part[1..]) {
            case Some(v) => gondola := gondola.(y := v);
            case None =>
          }
        } else if StartsWith(part, "Z") {
          match parse(part[1..]) {
            case Some(v) => gondola := gondola.(z := v);
            case None =>
          }
        }
        assert rest[..i + 1][..i] == rest[..i];
        i := i + 1;
      }
      assert rest[..i] == rest;
    }

    /** `send_next_line`: send the line at the cursor if it is a command,
        report progress, and go on to the next line when it was blank or a
        comment (the source recurses; the cursor strictly increases toward
        the end of the program, which is the loop's measure); at the end of
        the program the plot is complete. */
    method SendNextLine()
      modifies this`cursor, this`plotting, this`gondola, this`sent, this`events, link`written, link`notices
      ensures old(plotting) && !old(paused) ==>
        DispatchedFrom(old(cursor), old(gondola), old(sent), old(events), old(link.written), old(link.notices))
      ensures !old(plotting) || old(paused) ==>
        && cursor == old(cursor) && plotting == old(plotting) && gondola == old(gondola)
        && sent == old(sent) && events == old(events)
        && link.written == old(link.written) && link.notices == old(link.notices)
    {
      if paused || !plotting {
        return;
      }
      ghost var c0, g0, s0, e0 := cursor, gondola, sent, events;
      ghost var w0, n0 := link.written, link.notices;
      while cursor < |gcode|
        invariant c0 <= cursor
        invariant NextReal(gcode, c0) == NextReal(gcode, cursor)
        invariant plotting && gondola == g0 && sent == s0
        invariant link.written == w0 && link.notices == n0
        invariant events == e0 + ProgressEvents(|gcode|, c0, cursor)
        decreases |gcode| - cursor
      {
        var line := gcode[cursor];
        var isCommand := Strip(line) != [] && !StartsWith(Strip(line), ";");
        assert isCommand == IsCommand(line);
        if isCommand {
          SendAt(c0, g0, s0, e0, w0, n0);
          return;
        }
        events := events + [Progress(cursor, |gcode|, ProgressPercent(cursor, |gcode|))];
        ProgressSnoc(|gcode|, c0, cursor);
        SkipLine(gcode, cursor);
        cursor := cursor + 1;
      }
      plotting := false;
      events := events + [Complete];
      assert NextReal(gcode, cursor) == cursor;
    }

    /** The command at the cursor, reached from `c0` over blank and comment
        lines: send it, track the gondola, report progress, move on. */
    method SendAt(ghost c0: nat, ghost g0: Gondola, ghost s0: seq<nat>, ghost e0: seq<Event>,
                  ghost w0: seq<string>, ghost n0: seq<string>)
      requires c0 <= cursor < |gcode| && IsCommand(gcode[cursor]) && NextReal(gcode, c0) == NextReal(gcode, cursor)
      requires plotting && gondola == g0 && sent == s0 && link.written == w0 && link.notices == n0
      requires events == e0 + ProgressEvents(|gcode|, c0, cursor)
      modifies this`cursor, this`gondola, this`sent, this`events, link`written, link`notices
      ensures DispatchedFrom(c0, g0, s0, e0, w0, n0)
    {
      ghost var at := cursor;
      link.SendCommand(gcode[cursor]);
      UpdateGondola(gcode[cursor]);
      sent := sent + [cursor];
      events := events + [Progress(cursor, |gcode|, ProgressPercent(cursor, |gcode|))];
      cursor := cursor + 1;
      HitStep(at, g0, s0, e0 + ProgressEvents(|gcode|, c0, at), w0, n0);
      SkippedTo(c0, at, g0, s0, e0, w0, n0);
    }

    /** A dispatch that reached line `c` after passing over blank and
        comment lines from `c0` is a dispatch from `c0`. */
    lemma SkippedTo(c0: nat, c: nat, g0: Gondola, s0: seq<nat>, e0: seq<Event>, w0: seq<string>, n0: seq<string>)
      requires c0 <= c <= cursor && NextReal(gcode, c0) == NextReal(gcode, c)
      requires DispatchedFrom(c, g0, s0, e0 + ProgressEvents(|gcode|, c0, c), w0, n0)
      ensures DispatchedFrom(c0, g0, s0, e0, w0, n0)
    {
      assert DispatchOf(gcode, c0) == DispatchOf(gcode, c);
      assert CursorAfter(gcode, c0) == CursorAfter(gcode, c);
      EventsSplit(e0, |gcode|, c0, c, cursor, if DispatchOf(gcode, c) == [] then [Complete] else []);
    }

    /** Sending the command at `c0` is the whole dispatch from `c0`. */
    lemma HitStep(c0: nat, g0: Gondola, s0: seq<nat>, e0: seq<Event>, w0: seq<string>, n0: seq<string>)
      requires c0 < |gcode| && IsCommand(gcode[c0]) && cursor == c0 + 1 && plotting
      requires sent == s0 + [c0] && gondola == Track(g0, gcode[c0], parse)
      requires link.written == w0 + (if link.open then [Strip(gcode[c0]) + "\n"] else [])
      requires link.notices == n0 + (if link.open && link.hasCallback then ["TX: " + Strip(gcode[c0])] else [])
      requires events == e0 + [Progress(c0, |gcode|, ProgressPercent(c0, |gcode|))]
      ensures DispatchedFrom(c0, g0, s0, e0, w0, n0)
    {
      assert DispatchOf(gcode, c0) == [c0];
      assert LinesAt(gcode, [c0]) == [gcode[c0]];
      TrackOne(g0, gcode[c0], parse);
      FramedOne(gcode[c0]);
      assert ProgressEvents(|gcode|, c0, c0 + 1) == [Progress(c0, |gcode|, ProgressPercent(c0, |gcode|))];
    }

    /** `serial_callback`: every inbound message is forwarded; one that
        starts with "ok" in any case dispatches the next line while
        plotting and not paused. */
    method OnMessage(message: string)
      modifies this`cursor, this`plotting, this`gondola, this`sent, this`events, link`written, link`notices
      ensures var ack := old(plotting) && !old(paused) && StartsWith(Lower(message), "ok");
        && (ack ==> DispatchedFrom(old(cursor), old(gondola), old(sent), old(events) + [SerialMessage(message)],
                                   old(link.written), old(link.notices)))
        && (!ack ==> cursor == old(cursor) && plotting == old(plotting) && gondola == old(gondola)
                     && sent == old(sent) && events == old(events) + [SerialMessage(message)]
                     && link.written == old(link.written) && link.notices == old(link.notices))
    {
      events := events + [SerialMessage(message)];
      if plotting && !paused {
        if StartsWith(Lower(message), "ok") {
          SendNextLine();
        }
      }
    }

    /** The loop of a script: each line stripped, the non-blank ones sent. */
    method SendLines(parts: seq<string>)
      modifies link`written, link`notices
      ensures link.written == old(link.written) + (if link.open then Framed(NonBlank(parts)) else [])
      ensures link.notices == old(link.notices) + (if link.open && link.hasCallback then Announced(NonBlank(parts)) else [])
    {
      var i := 0;
      ghost var done: seq<string> := [];
      ghost var w0, n0 := link.written, link.notices;
      while i < |parts|
        invariant 0 <= i <= |parts|
        invariant done == NonBlank(parts[..i])
        invariant link.written == w0 + (if link.open then Framed(done) else [])
        invariant link.notices == n0 + (if link.open && link.hasCallback then Announced(done) else [])
      {
        NonBlankStep(parts, i);
        done := SendStripped(parts[i], w0, n0, done);
        i := i + 1;
      }
      assert parts[..i] == parts;
    }

    /** One pass of the script loop: the line stripped and, unless blank,
        sent. */
    method SendStripped(part: string, ghost w0: seq<string>, ghost n0: seq<string>, ghost done: seq<string>)
        returns (ghost done': seq<string>)
      requires link.written == w0 + (if link.open then Framed(done) else [])
      requires link.notices == n0 + (if link.open && link.hasCallback then Announced(done) else [])
      modifies link`written, link`notices
      ensures done' == done + (if Strip(part) != [] then [Strip(part)] else [])
      ensures link.written == w0 + (if link.open then Framed(done') else [])
      ensures link.notices == n0 + (if link.open && link.hasCallback then Announced(done') else [])
    {
      var s := Strip(part);
      done' := done;
      if s != [] {
        link.SendCommand(s);
        SentAppend(w0, n0, done, s, link.open, link.hasCallback);
        done' := done + [s];
      }
    }

    /** Send the commands of a start or end script; `ok` is false when the
        setting is a truthy non-string and the handler fails. */
    method SendScript(v: Value) returns (ok: bool, ghost script: seq<string>)
      modifies link`written, link`notices
      ensures ok == ScriptOf(v).Some? && script == ScriptOf(v).GetOr([])
      ensures link.written == old(link.written) + (if link.open then Framed(script) else [])
      ensures link.notices == old(link.notices) + (if link.open && link.hasCallback then Announced(script) else [])
    {
      if !Truthy(v) {
        return true, [];
      }
      if !v.StrVal? {
        return false, [];
      }
      SendLines(SplitOn(v.s, '\n'));
      return true, NonBlank(SplitOn(v.s, '\n'));
    }

    /** `send_command` for each of `cmds` in turn: how `plot_start` sends
        its initialisation commands. */
    method SendAll(cmds: seq<string>)
      modifies link`written, link`notices
      ensures link.written == old(link.written) + (if link.open then Framed(cmds) else [])
      ensures link.notices == old(link.notices) + (if link.open && link.hasCallback then Announced(cmds) else [])
    {
      var i := 0;
      ghost var wire: seq<string> := [];
      ghost var note: seq<string> := [];
      while i < |cmds|
        invariant 0 <= i <= |cmds|
        invariant wire == Framed(cmds[..i]) && note == Announced(cmds[..i])
        invariant link.written == old(link.written) + (if link.open then wire else [])
        invariant link.notices == old(link.notices) + (if link.open && link.hasCallback then note else [])
      {
        link.SendCommand(cmds[i]);
        CommandsStep(cmds, i);
        FramedOne(cmds[i]);
        wire := wire + Framed([cmds[i]]);
        note := note + Announced([cmds[i]]);
        i := i + 1;
      }
      assert cmds[..i] == cmds;
    }

    /** `plot_start`: refused when disconnected or when no program is
        loaded; otherwise see `Begin`. */
    method Start() returns (r: Result<nat>)
      modifies this`plotting, this`paused, this`cursor, this`gondola, this`sent, this`events, link`written, link`notices
      ensures !old(link.open) ==> r == Err("Not connected")
      ensures old(link.open) && gcode == [] ==> r == Err("No G-code loaded")
      ensures !old(link.open) || gcode == [] ==>
        && cursor == old(cursor) && plotting == old(plotting) && paused == old(paused)
        && gondola == old(gondola) && sent == old(sent) && events == old(events)
        && link.written == old(link.written) && link.notices == old(link.notices)
      ensures old(link.open) && gcode != [] ==> Begun(r, old(sent), old(events), old(link.written), old(link.notices))
    {
      if !link.IsConnected() {
        return Err("Not connected");
      }
      if gcode == [] {
        return Err("No G-code loaded");
      }
      r := Begin();
    }

    /** What `plot_start` leaves once it gets going: the flags set and the
        cursor and gondola reset, the initialisation commands and the start
        script sent, and then either the first dispatch done or, when the
        start script setting is a truthy non-string, an error. */
    ghost predicate Begun(r: Result<nat>, s0: seq<nat>, e0: seq<Event>, w0: seq<string>, n0: seq<string>)
      reads this, link, settings
    {
      var script := ScriptOf(Lookup(settings.settings, "start_gcode", NoneVal));
      var setup := InitCommands + script.GetOr([]);
      var w1 := w0 + Framed(setup);
      var n1 := n0 + (if link.hasCallback then Announced(setup) else []);
      && !paused
      && (script.Some? ==> r == Ok(|gcode|) && DispatchedFrom(0, Home, s0, e0, w1, n1))
      && (script.None? ==> r.Err? && cursor == 0 && plotting && gondola == Home && sent == s0
                           && events == e0 && link.written == w1 && link.notices == n1)
    }

    method Begin() returns (r: Result<nat>)
      requires link.open
      modifies this`plotting, this`paused, this`cursor, this`gondola, this`sent, this`events, link`written, link`notices
      ensures Begun(r, old(sent), old(events), old(link.written), old(link.notices))
    {
      var ok := Prepare();
      if !ok {
        return Err("AttributeError: start_gcode is not a string");
      }
      SendNextLine();
      return Ok(|gcode|);
    }

    /** The first half of `plot_start`: the flags set, the cursor and the
        gondola reset, and the set-up commands sent. */
    method Prepare() returns (ok: bool)
      requires link.open
      modifies this`plotting, this`paused, this`cursor, this`gondola, link`written, link`notices
      ensures plotting && !paused && cursor == 0 && gondola == Home
      ensures var script := ScriptOf(Lookup(settings.settings, "start_gcode", NoneVal));
        var setup := InitCommands + script.GetOr([]);
        && ok == script.Some?
        && link.written == old(link.written) + Framed(setup)
        && link.notices == old(link.notices) + (if link.hasCallback then Announced(setup) else [])
    {
      plotting := true;
      paused := false;
      cursor := 0;
      gondola := Home;
      ok := SendSetup();
    }

    /** The initialisation commands, then the start script. */
    method SendSetup() returns (ok: bool)
      modifies link`written, link`notices
      ensures var script := ScriptOf(Lookup(settings.settings, "start_gcode", NoneVal));
        var setup := InitCommands + script.GetOr([]);
        && ok == script.Some?
        && link.written == old(link.written) + (if link.open then Framed(setup) else [])
        && link.notices == old(link.notices) + (if link.open && link.hasCallback then Announced(setup) else [])
    {
      ghost var w0, n0 := link.written, link.notices;
      SendAll(InitCommands);
      ghost var w1, n1 := link.written, link.notices;
      var v := settings.settings;
      var startGcode := if "start_gcode" in v then v["start_gcode"] else NoneVal;
      ghost var script;
      assert startGcode == Lookup(settings.settings, "start_gcode", NoneVal);
      ok, script := SendScript(startGcode);
      SentBoth(w0, n0, InitCommands, script, link.open, link.hasCallback);
    }

    /** `plot_pause`: set the flag and raise the pen; the cursor stays. */
    method Pause()
      modifies this`paused, link`written, link`notices
      ensures paused
      ensures link.written == old(link.written) + (if link.open then Framed([PenUpCommand(settings.settings, repr)]) else [])
      ensures link.notices == old(link.notices) + (if link.open && link.hasCallback then Announced([PenUpCommand(settings.settings, repr)]) else [])
    {
      paused := true;
      var angle := if "pen_angle_up" in settings.settings then settings.settings["pen_angle_up"] else NoneVal;
      link.SendCommand("G0 Z" + Render(angle, repr) + " F1000");
      FramedOne("G0 Z" + Render(angle, repr) + " F1000");
    }

    /** `plot_resume`: clear the flag and dispatch from the cursor, so no
        line before the cursor is sent again. */
    method Resume()
      modifies this`paused, this`cursor, this`plotting, this`gondola, this`sent, this`events, link`written, link`notices
      ensures !paused
      ensures old(plotting) ==> DispatchedFrom(old(cursor), old(gondola), old(sent), old(events), old(link.written), old(link.notices))
      ensures !old(plotting) ==>
        && cursor == old(cursor) && !plotting && gondola == old(gondola) && sent == old(sent)
        && events == old(events) && link.written == old(link.written) && link.notices == old(link.notices)
    {
      paused := false;
      SendNextLine();
    }

    /** `plot_stop`: clear both flags, rewind, and send the end script. */
    method Stop() returns (ok: bool)
      modifies this`plotting, this`paused, this`cursor, link`written, link`notices
      ensures !plotting && !paused && cursor == 0
      ensures var script := ScriptOf(Lookup(settings.settings, "end_gcode", NoneVal));
        && ok == script.Some?
        && link.written == old(link.written) + (if link.open then Framed(script.GetOr([])) else [])
        && link.notices == old(link.notices) + (if link.open && link.hasCallback then Announced(script.GetOr([])) else [])
    {
      plotting := false;
      paused := false;
      cursor := 0;
      var v := settings.settings;
      ghost var script;
      ok, script := SendScript(if "end_gcode" in v then v["end_gcode"] else NoneVal);
    }

    /** `plot_rewind`. */
    method Rewind()
      modifies this`cursor
      ensures cursor == 0
    {
      cursor := 0;
    }

    /** `plot_goto_line`: the requested line clamped to 0..len(program). */
    method GotoLine(line: int) returns (at: nat)
      modifies this`cursor
      ensures at == cursor && cursor <= |gcode|
      ensures 0 <= line <= |gcode| ==> cursor == line
      ensures line < 0 ==> cursor == 0
      ensures line > |gcode| ==> cursor == |gcode|
    {
      var m := if line < |gcode| then line else |gcode|;
      cursor := if m < 0 then 0 else m;
      at := cursor;
    }

    /** `plot_status`. */
    method Status() returns (isPlotting: bool, isPaused: bool, current: nat, total: nat, percent: int)
      ensures isPlotting == plotting && isPaused == paused && current == cursor && total == |gcode|
      ensures percent == StatusPercent(cursor, |gcode|)
      ensures cursor <= |gcode| ==> 0 <= percent <= 100
    {
      isPlotting, isPaused, current, total := plotting, paused, cursor, |gcode|;
      percent := (100 * cursor) / (if |gcode| < 1 then 1 else |gcode|);
    }

    /** `emergency_stop`: both flags cleared whatever the connection;
        stop, motor-off and pen-up sent raw when connected. */
    method EmergencyStop()
      modifies this`plotting, this`paused, link`written
      ensures !plotting && !paused
      ensures link.written == old(link.written) + (if link.open then Repeat("M112\n", 5) + ["M18\n", "G0 Z90 F1000\n"] else [])
    {
      plotting := false;
      paused := false;
      if link.IsConnected() {
        assert "M112" + "\n" == "M112\n" && "M18" + "\n" == "M18\n" && "G0 Z90 F1000" + "\n" == "G0 Z90 F1000\n";
        var i := 0;
        while i < 5
          invariant 0 <= i <= 5 && !plotting && !paused && link.open
          invariant link.written == old(link.written) + Repeat("M112\n", i)
        {
          link.SendRaw("M112");
          i := i + 1;
        }
        link.SendRaw("M18");
        link.SendRaw("G0 Z90 F1000");
      }
    }

    /** An upload replaces the program; the cursor is left where it was. */
    method LoadProgram(program: seq<string>)
      modifies this`gcode
      ensures gcode == program
    {
      gcode := program;
    }
  }
}
