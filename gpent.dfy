/** The response handling of `gpent.py`: the numbered generator and pen
    tables, `parse_commands` after the model's reply has been fetched, and
    the result `generate_artwork` builds from it. The reply itself, the
    JSON decoder and Python's `int()` of a string are parameters. */
module Gpent {
  import opened Text
  import Generators

  /** What `json.loads` produces: objects become dictionaries (the last of
      a repeated key wins, so a map). */
  datatype Json =
    | JNull
    | JBool(b: bool)
    | JInt(i: int)
    | JFloat(r: real)
    | JStr(s: string)
    | JArr(items: seq<Json>)
    | JObj(fields: map<string, Json>)

  // ---------------------------------------------------------------------
  // The numbered tables
  // ---------------------------------------------------------------------

  /** The `id` of `GENERATORS[n]`, for n = 1 .. 25 in order. */
  const GeneratorIds := ["spiral", "spirograph", "lissajous", "maze", "dragon", "hilbert", "tree",
                         "hexagons", "flowfield", "border", "text", "slimemold", "geodataweaving",
                         "poetryclouds", "geometricpattern", "glow", "randompoetry", "gameoflife",
                         "zenpots", "bezier", "noise", "kaleidoscope", "colorfuldots", "interlockings",
                         "sudokucartography"]

  /** The `id` of `PEN_COLORS[n]`, for n = 1 .. 9 in order. */
  const ColorIds := ["brown", "black", "blue", "green", "purple", "pink", "red", "orange", "yellow"]

  /** `GENERATORS[n]['id']` when `n in GENERATORS`, else 'spiral'. */
  function GeneratorId(n: int): (id: string)
    ensures id in GeneratorIds
    ensures 1 <= n <= |GeneratorIds| ==> id == GeneratorIds[n - 1]
    ensures !(1 <= n <= |GeneratorIds|) ==> id == "spiral"
  {
    if 1 <= n <= |GeneratorIds| then GeneratorIds[n - 1] else "spiral"
  }

  /** `PEN_COLORS[n]['id']` when `n in PEN_COLORS`, else 'black'. */
  function ColorId(n: int): (id: string)
    ensures id in ColorIds
    ensures 1 <= n <= |ColorIds| ==> id == ColorIds[n - 1]
    ensures !(1 <= n <= |ColorIds|) ==> id == "black"
  {
    if 1 <= n <= |ColorIds| then ColorIds[n - 1] else "black"
  }

  /** Every number names a different generator and a different pen, so a
      known number can be read back from the id it was mapped to. */
  lemma TablesDistinct()
    ensures forall i, j :: 0 <= i < j < |GeneratorIds| ==> GeneratorIds[i] != GeneratorIds[j]
    ensures forall i, j :: 0 <= i < j < |ColorIds| ==> ColorIds[i] != ColorIds[j]
    ensures forall n, m :: 1 <= n <= |GeneratorIds| && 1 <= m <= |GeneratorIds| && GeneratorId(n) == GeneratorId(m) ==> n == m
  {
    GeneratorIdsDistinct();
    ColorIdsDistinct();
  }

  lemma GeneratorIdsDistinct()
    ensures forall i, j :: 0 <= i < j < |GeneratorIds| ==> GeneratorIds[i] != GeneratorIds[j]
  {
    forall i, j | 0 <= i < j < |GeneratorIds|
      ensures GeneratorIds[i] != GeneratorIds[j]
    {
      assert GeneratorIds[i][..2] != GeneratorIds[j][..2] || |GeneratorIds[i]| != |GeneratorIds[j]|
        || GeneratorIds[i][2..] != GeneratorIds[j][2..];
    }
  }

  lemma ColorIdsDistinct()
    ensures forall i, j :: 0 <= i < j < |ColorIds| ==> ColorIds[i] != ColorIds[j]
  {
  }

  /** The first eleven numbers are generators the server's `generate`
      draws; numbers 12 to 25 name generators it does not know, and a
      request for one of them is refused there as an unknown generator. */
  lemma ServedGenerators()
    ensures forall n :: 1 <= n <= 11 ==> Generators.Dispatch(GeneratorId(n)).Ok?
    ensures forall n :: 12 <= n <= |GeneratorIds| ==> Generators.Dispatch(GeneratorId(n)).Err?
    ensures forall n :: !(1 <= n <= |GeneratorIds|) ==> Generators.Dispatch(GeneratorId(n)).Ok?
  {
    KnownIds();
    UnknownIds();
  }

  lemma KnownIds()
    ensures forall i :: 0 <= i < 11 ==> GeneratorIds[i] in Generators.Names
  {
    assert GeneratorIds[..8] == Generators.Names[..8];
    assert GeneratorIds[8..11] == Generators.Names[9..12];
  }

  lemma UnknownIds()
    ensures forall i :: 11 <= i < |GeneratorIds| ==> GeneratorIds[i] !in Generators.Names
  {
    forall i | 11 <= i < |GeneratorIds|
      ensures GeneratorIds[i] !in Generators.Names
    {
    }
  }

  // ---------------------------------------------------------------------
  // Python's int()
  // ---------------------------------------------------------------------

  /** `int(r)` of a float: truncation toward zero. */
  function Trunc(r: real): (n: int)
    ensures r >= 0.0 ==> n as real <= r < n as real + 1.0
    ensures r < 0.0 ==> n as real - 1.0 < r <= n as real
  {
    if r >= 0.0 then r.Floor else -((-r).Floor)
  }

  /** `int(v)` of a decoded value; `parseInt` is `int()` of a string. */
  function PyInt(v: Json, parseInt: string -> Option<int>): (r: Result<int>)
    ensures r.Err? <==> v.JNull? || v.JArr? || v.JObj? || (v.JStr? && parseInt(v.s).None?)
    ensures v.JInt? ==> r == Ok(v.i)
    ensures v.JBool? ==> r == Ok(if v.b then 1 else 0)
  {
    match v
    case JInt(i) => Ok(i)
    case JFloat(x) => Ok(Trunc(x))
    case JBool(b) => Ok(if b then 1 else 0)
    case JStr(s) => (match parseInt(s) case Some(n) => Ok(n) case None => Err("ValueError"))
    case _ => Err("TypeError")
  }

  // ---------------------------------------------------------------------
  // Finding the array in the reply
  // ---------------------------------------------------------------------

  /** `re.search(r'\[[\s\S]*?\]', text)`: from the first '[' to the first
      ']' after it, both included. */
  function ArrayMatch(text: string): (m: Option<string>)
    ensures m.Some? ==> |m.value| >= 2 && m.value[0] == '[' && m.value[|m.value| - 1] == ']'
  {
    var a := Find(text, '[');
    if a == |text| then None
    else
      var b := Find(text[a + 1..], ']');
      if b == |text| - a - 1 then None
      else Some(text[a..a + b + 2])
  }

  /** The match exists exactly when some '[' has a ']' after it; it then
      starts at the first '[' and holds no ']' before its last character. */
  lemma ArrayMatchSpec(text: string)
    ensures ArrayMatch(text).Some? <==> exists i, j :: 0 <= i < j < |text| && text[i] == '[' && text[j] == ']'
    ensures ArrayMatch(text).Some? ==>
      var m := ArrayMatch(text).value;
      && (exists a :: 0 <= a <= |text| - |m| && text[a..a + |m|] == m && '[' !in text[..a])
      && ']' !in m[..|m| - 1]
  {
    ArrayMatchFound(text);
    if ArrayMatch(text).Some? {
      ArrayMatchShape(text);
    }
  }

  lemma ArrayMatchFound(text: string)
    ensures ArrayMatch(text).Some? <==> exists i, j :: 0 <= i < j < |text| && text[i] == '[' && text[j] == ']'
  {
    var a := Find(text, '[');
    FindSpec(text, '[');
    if a < |text| {
      var rest := text[a + 1..];
      var b := Find(rest, ']');
      FindSpec(rest, ']');
      if exists i, j :: 0 <= i < j < |text| && text[i] == '[' && text[j] == ']' {
        var i, j :| 0 <= i < j < |text| && text[i] == '[' && text[j] == ']';
        assert a <= i;
        assert rest[j - a - 1] == ']';
      }
      if b < |rest| {
        assert text[a + 1 + b] == ']';
      }
    }
  }

  lemma ArrayMatchShape(text: string)
    requires ArrayMatch(text).Some?
    ensures var m := ArrayMatch(text).value;
      && (exists a :: 0 <= a <= |text| - |m| && text[a..a + |m|] == m && '[' !in text[..a])
      && ']' !in m[..|m| - 1]
  {
    var a := Find(text, '[');
    FindSpec(text, '[');
    var rest := text[a + 1..];
    var b := Find(rest, ']');
    FindSpec(rest, ']');
    assert ArrayMatch(text) == Some(text[a..a + b + 2]);
    SpanShape(text, a, rest, b);
  }

  /** The span from the first '[' at `a` to the first ']' `b` places on. */
  lemma SpanShape(text: string, a: nat, rest: string, b: nat)
    requires a + b + 2 <= |text| && text[a] == '[' && rest == text[a + 1..]
    requires forall i :: 0 <= i < a ==> text[i] != '['
    requires forall i :: 0 <= i < b ==> rest[i] != ']'
    ensures var m := text[a..a + b + 2];
      && (exists a' :: 0 <= a' <= |text| - |m| && text[a'..a' + |m|] == m && '[' !in text[..a'])
      && ']' !in m[..|m| - 1]
  {
    var m := text[a..a + b + 2];
    assert text[a..a + |m|] == m;
    NoneBefore(text, a, '[');
    forall i | 0 <= i < |m| - 1
      ensures m[i] != ']'
    {
      if i > 0 {
        assert m[i] == rest[i - 1];
      }
    }
    NoneBefore(m, |m| - 1, ']');
  }

  /** Nothing before the first `c` is a `c`. */
  lemma NoneBefore(s: string, k: nat, c: char)
    requires k <= |s| && forall i :: 0 <= i < k ==> s[i] != c
    ensures c !in s[..k]
  {
  }

  // ---------------------------------------------------------------------
  // parse_commands
  // ---------------------------------------------------------------------

  /** Looking a key up with a default, as `dict.get`. */
  function Get(fields: map<string, Json>, key: string, default: Json): Json {
    if key in fields then fields[key] else default
  }

  /** An element becomes a command when it is a dictionary with a
      'generator' key. */
  predicate Accepts(x: Json) {
    x.JObj? && "generator" in x.fields
  }

  /** The dictionaries that become commands, in their order. */
  function Accepted(items: seq<Json>): (r: seq<map<string, Json>>)
    ensures forall f :: f in r ==> "generator" in f
    ensures |r| <= |items|
  {
    if items == [] then []
    else
      var last := items[|items| - 1];
      Accepted(items[..|items| - 1]) + (if Accepts(last) then [last.fields] else [])
  }

  /** `Accepted` keeps the order of the reply: it distributes over
      concatenation, and a single element is kept exactly when it is
      accepted. */
  lemma {:induction false} AcceptedAppend(a: seq<Json>, b: seq<Json>)
    ensures Accepted(a + b) == Accepted(a) + Accepted(b)
    decreases |b|
  {
    if b != [] {
      var n := |b| - 1;
      assert (a + b)[..|a + b| - 1] == a + b[..n];
      AcceptedAppend(a, b[..n]);
    } else {
      assert a + b == a;
    }
  }

  lemma AcceptedSingle(x: Json)
    ensures Accepted([x]) == if Accepts(x) then [x.fields] else []
  {
    assert [x][..0] == [];
  }

  /** One more element of the reply extends the accepted prefix by at
      most that element. */
  lemma AcceptedStep(raw: seq<Json>, i: nat)
    requires i < |raw|
    ensures var a := Accepted(raw[..i + 1]);
      && (Accepts(raw[i]) ==> a == Accepted(raw[..i]) + [raw[i].fields] && a[..|a| - 1] == Accepted(raw[..i]))
      && (!Accepts(raw[i]) ==> a == Accepted(raw[..i]))
  {
    assert raw[..i + 1][..i] == raw[..i];
  }

  /** An accepted element sits in `Accepted(raw)` right after those
      accepted before it. */
  lemma AcceptedAt(raw: seq<Json>, i: nat)
    requires i < |raw| && Accepts(raw[i])
    ensures |Accepted(raw[..i])| < |Accepted(raw)|
    ensures Accepted(raw)[|Accepted(raw[..i])|] == raw[i].fields
  {
    assert raw == raw[..i + 1] + raw[i + 1..];
    AcceptedAppend(raw[..i + 1], raw[i + 1..]);
    AcceptedStep(raw, i);
  }

  /** The thoughts of the accepted dictionaries that carry one, in order. */
  function Thoughts(cmds: seq<map<string, Json>>): (r: seq<Json>)
    ensures |r| <= |cmds|
  {
    if cmds == [] then []
    else
      var last := cmds[|cmds| - 1];
      Thoughts(cmds[..|cmds| - 1]) + (if "thought" in last then [last["thought"]] else [])
  }

  lemma ThoughtsSnoc(cmds: seq<map<string, Json>>, f: map<string, Json>)
    ensures Thoughts(cmds + [f]) == Thoughts(cmds) + (if "thought" in f then [f["thought"]] else [])
  {
    assert (cmds + [f])[..|cmds|] == cmds;
  }

  /** A thought is kept for every command that has one, and only for those. */
  lemma {:induction false} ThoughtsSpec(cmds: seq<map<string, Json>>)
    ensures forall t :: t in Thoughts(cmds) <==> exists f :: f in cmds && "thought" in f && f["thought"] == t
    decreases |cmds|
  {
    if cmds != [] {
      var front := cmds[..|cmds| - 1];
      ThoughtsSpec(front);
      assert cmds == front + [cmds[|cmds| - 1]];
      forall t | t in Thoughts(cmds)
        ensures exists f :: f in cmds && "thought" in f && f["thought"] == t
      {
        if t in Thoughts(front) {
          var f :| f in front && "thought" in f && f["thought"] == t;
          assert f in cmds;
        }
      }
    }
  }

  /** The command one accepted dictionary becomes: the dictionary with
      'generator_id' and 'color_id' added. A generator or color number
      `int()` cannot convert raises. */
  function Annotate(fields: map<string, Json>, parseInt: string -> Option<int>): (r: Result<map<string, Json>>)
    ensures r.Err? <==> PyInt(Get(fields, "generator", JInt(1)), parseInt).Err?
                        || PyInt(Get(fields, "color", JInt(2)), parseInt).Err?
    ensures r.Ok? ==>
      && r.value.Keys == fields.Keys + {"generator_id", "color_id"}
      && (forall k :: k in fields && k != "generator_id" && k != "color_id" ==> r.value[k] == fields[k])
      && r.value["generator_id"] == JStr(GeneratorId(PyInt(Get(fields, "generator", JInt(1)), parseInt).value))
      && r.value["color_id"] == JStr(ColorId(PyInt(Get(fields, "color", JInt(2)), parseInt).value))
  {
    match PyInt(Get(fields, "generator", JInt(1)), parseInt)
    case Err(e) => Err(e)
    case Ok(g) =>
      match PyInt(Get(fields, "color", JInt(2)), parseInt)
      case Err(e) => Err(e)
      case Ok(c) => Ok(fields["generator_id" := JStr(GeneratorId(g))]["color_id" := JStr(ColorId(c))])
  }

  /** A command without a color is drawn in black, and one whose numbers
      are out of range falls back to the spiral in black. */
  lemma AnnotateDefaults(fields: map<string, Json>, parseInt: string -> Option<int>)
    requires "color" !in fields
    requires "generator" in fields && fields["generator"].JInt?
    ensures Annotate(fields, parseInt).Ok?
    ensures Annotate(fields, parseInt).value["color_id"] == JStr("black")
    ensures !(1 <= fields["generator"].i <= 25) ==> Annotate(fields, parseInt).value["generator_id"] == JStr("spiral")
  {
  }

  /** `outs` are the commands `cmds` become, one for one and in order. */
  predicate AnnotatedAs(cmds: seq<map<string, Json>>, outs: seq<map<string, Json>>, parseInt: string -> Option<int>) {
    |outs| == |cmds| && forall k :: 0 <= k < |cmds| ==> Annotate(cmds[k], parseInt) == Ok(outs[k])
  }

  lemma AnnotatedSnoc(cmds: seq<map<string, Json>>, outs: seq<map<string, Json>>,
                      f: map<string, Json>, out: map<string, Json>, parseInt: string -> Option<int>)
    requires AnnotatedAs(cmds, outs, parseInt) && Annotate(f, parseInt) == Ok(out)
    ensures AnnotatedAs(cmds + [f], outs + [out], parseInt)
  {
  }

  /** What `parse_commands` returns. */
  datatype Parsed = Parsed(commands: seq<map<string, Json>>, thoughts: seq<Json>, finished: bool)

  /** `'FINISHED' in response_text.upper()`. */
  predicate Finished(text: string) {
    Contains(Upper(text), "FINISHED")
  }

  /** `sub` occurs in `s` at offset `k`. */
  predicate OccursAt(s: string, sub: string, k: int) {
    0 <= k <= |s| - |sub| && s[k..k + |sub|] == sub
  }

  /** `Contains` finds `sub` exactly when it occurs at some offset. */
  lemma {:induction false} ContainsSpec(s: string, sub: string)
    ensures Contains(s, sub) <==> exists k :: OccursAt(s, sub, k)
    decreases |s|
  {
    if StartsWith(s, sub) {
      assert OccursAt(s, sub, 0);
    } else if s != [] {
      ContainsSpec(s[1..], sub);
      if exists k :: OccursAt(s, sub, k) {
        var k :| OccursAt(s, sub, k);
        assert k != 0;
        assert OccursAt(s[1..], sub, k - 1);
      }
      if Contains(s[1..], sub) {
        var k :| OccursAt(s[1..], sub, k);
        assert s[k + 1..k + 1 + |sub|] == s[1..][k..k + |sub|];
        assert OccursAt(s, sub, k + 1);
      }
    }
  }

  /** Upper-casing commutes with taking a slice. */
  lemma {:induction false} UpperSlice(s: string, a: nat, b: nat)
    requires a <= b <= |s|
    ensures Upper(s)[a..b] == Upper(s[a..b])
  {
    var u, v := Upper(s)[a..b], Upper(s[a..b]);
    forall i | 0 <= i < b - a
      ensures u[i] == v[i]
    {
      UpperAt(s, a + i);
      UpperAt(s[a..b], i);
    }
    assert u == v;
  }

  /** The eight characters at offset `k` spell "finished" in some mix of
      upper- and lower-case letters. */
  predicate SpelledAt(text: string, k: int) {
    0 <= k <= |text| - 8 && Upper(text[k..k + 8]) == "FINISHED"
  }

  /** The reply is final exactly when "finished" occurs in it in any case. */
  lemma FinishedAnyCase(text: string)
    ensures Finished(text) <==> exists k :: SpelledAt(text, k)
  {
    ContainsSpec(Upper(text), "FINISHED");
    if Finished(text) {
      var k :| OccursAt(Upper(text), "FINISHED", k);
      UpperSlice(text, k, k + 8);
      assert SpelledAt(text, k);
    }
    if exists k :: SpelledAt(text, k) {
      var k :| SpelledAt(text, k);
      UpperSlice(text, k, k + 8);
      assert OccursAt(Upper(text), "FINISHED", k);
    }
  }

  /** The elements of the decoded array; a reply with no array in it, or
      one the decoder rejects, has none. */
  function RawCommands(text: string, decode: string -> Option<seq<Json>>): seq<Json> {
    match ArrayMatch(text)
    case None => []
    case Some(m) => decode(m).GetOr([])
  }

  /** `parse_commands`. `decode` is `json.loads` on the matched text, and
      `None` stands for `json.JSONDecodeError`; whatever the matched text
      decodes to is an array, since it begins with '[' and ends with ']'. */
  method ParseCommands(text: string, decode: string -> Option<seq<Json>>, parseInt: string -> Option<int>)
    returns (r: Result<Parsed>)
    ensures var cmds := Accepted(RawCommands(text, decode));
      && (r.Ok? <==> forall i :: 0 <= i < |cmds| ==> Annotate(cmds[i], parseInt).Ok?)
      && (r.Ok? ==>
        && AnnotatedAs(cmds, r.value.commands, parseInt)
        && r.value.thoughts == Thoughts(cmds)
        && (r.value.finished <==> Finished(text)))
  {
    var raw := RawCommands(text, decode);
    var taken := TakeAll(raw, parseInt);
    if taken.Err? {
      return Err(taken.message);
    }
    r := Ok(Parsed(taken.value.0, taken.value.1, Finished(text)));
  }

  /** The loop of `parse_commands` over the decoded array: the accepted
      entries annotated in order with their thoughts noted, or the first
      error of `int()`. */
  method TakeAll(raw: seq<Json>, parseInt: string -> Option<int>)
    returns (r: Result<(seq<map<string, Json>>, seq<Json>)>)
    ensures var cmds := Accepted(raw);
      && (r.Ok? <==> forall i :: 0 <= i < |cmds| ==> Annotate(cmds[i], parseInt).Ok?)
      && (r.Ok? ==> AnnotatedAs(cmds, r.value.0, parseInt) && r.value.1 == Thoughts(cmds))
  {
    var commands: seq<map<string, Json>> := [];
    var thoughts: seq<Json> := [];
    ghost var acc: seq<map<string, Json>> := [];
    var i := 0;
    while i < |raw|
      invariant 0 <= i <= |raw|
      invariant acc == Accepted(raw[..i])
      invariant AnnotatedAs(acc, commands, parseInt)
      invariant thoughts == Thoughts(acc)
    {
      var step;
      step, acc := TakeAt(raw, i, acc, commands, thoughts, parseInt);
      if step.Err? {
        return Err(step.message);
      }
      commands, thoughts := step.value.0, step.value.1;
      i := i + 1;
    }
    assert raw[..i] == raw;
    r := Ok((commands, thoughts));
  }

  /** One pass of the loop of `parse_commands`: element `i` of the array
      is skipped, or taken, or its `int()` error ends the loop. */
  method TakeAt(raw: seq<Json>, i: nat, ghost acc: seq<map<string, Json>>,
                commands: seq<map<string, Json>>, thoughts: seq<Json>, parseInt: string -> Option<int>)
    returns (r: Result<(seq<map<string, Json>>, seq<Json>)>, ghost acc': seq<map<string, Json>>)
    requires i < |raw| && acc == Accepted(raw[..i])
    requires AnnotatedAs(acc, commands, parseInt) && thoughts == Thoughts(acc)
    ensures r.Err? ==> |acc| < |Accepted(raw)| && Annotate(Accepted(raw)[|acc|], parseInt).Err?
    ensures r.Ok? ==> acc' == Accepted(raw[..i + 1]) && AnnotatedAs(acc', r.value.0, parseInt) && r.value.1 == Thoughts(acc')
  {
    var cmd := raw[i];
    AcceptedStep(raw, i);
    acc' := acc;
    if Accepts(cmd) {
      r := TakeCommand(cmd.fields, acc, commands, thoughts, parseInt);
      if r.Err? {
        AcceptedAt(raw, i);
        return;
      }
      acc' := acc + [cmd.fields];
    } else {
      r := Ok((commands, thoughts));
    }
  }

  /** One accepted element of the loop of `parse_commands`: its thought
      noted and its ids added, or the error of `int()`. */
  method TakeCommand(fields: map<string, Json>, ghost acc: seq<map<string, Json>>,
                     commands: seq<map<string, Json>>, thoughts: seq<Json>, parseInt: string -> Option<int>)
    returns (r: Result<(seq<map<string, Json>>, seq<Json>)>)
    requires AnnotatedAs(acc, commands, parseInt) && thoughts == Thoughts(acc)
    ensures r.Err? <==> Annotate(fields, parseInt).Err?
    ensures r.Err? ==> r.message == Annotate(fields, parseInt).message
    ensures r.Ok? ==> AnnotatedAs(acc + [fields], r.value.0, parseInt) && r.value.1 == Thoughts(acc + [fields])
  {
    var noted := thoughts;
    ThoughtsSnoc(acc, fields);
    if "thought" in fields {
      noted := noted + [fields["thought"]];
    }
    var annotated := Annotate(fields, parseInt);
    if annotated.Err? {
      return Err(annotated.message);
    }
    AnnotatedSnoc(acc, commands, fields, annotated.value, parseInt);
    r := Ok((commands + [annotated.value], noted));
  }

  /** A reply with no bracketed array, or one whose array does not decode,
      gives no commands and no thoughts. */
  lemma NothingToParse(text: string, decode: string -> Option<seq<Json>>)
    requires ArrayMatch(text).None? || decode(ArrayMatch(text).value).None?
    ensures Accepted(RawCommands(text, decode)) == []
  {
  }

  // ---------------------------------------------------------------------
  // generate_artwork
  // ---------------------------------------------------------------------

  /** The dictionary `generate_artwork` returns: only the entities and the
      raw reply when nothing was parsed, everything otherwise. */
  datatype Artwork =
    | Empty(raw: string)
    | Drawn(entities: seq<map<string, Json>>, thoughts: seq<Json>, finished: bool, raw: string)

  /** `generate_artwork` once the reply `text` has arrived; an error from
      `parse_commands` propagates. */
  method GenerateArtwork(text: string, decode: string -> Option<seq<Json>>, parseInt: string -> Option<int>)
    returns (r: Result<Artwork>)
    ensures var cmds := Accepted(RawCommands(text, decode));
      && (r.Ok? <==> forall i :: 0 <= i < |cmds| ==> Annotate(cmds[i], parseInt).Ok?)
      && (r.Ok? ==> r.value.raw == text)
      && (r.Ok? ==> (r.value.Empty? <==> cmds == []))
      && (r.Ok? && r.value.Drawn? ==>
        && AnnotatedAs(cmds, r.value.entities, parseInt)
        && r.value.thoughts == Thoughts(cmds)
        && (r.value.finished <==> Finished(text)))
  {
    var parsed := ParseCommands(text, decode, parseInt);
    if parsed.Err? {
      return Err(parsed.message);
    }
    var p := parsed.value;
    if p.commands == [] {
      return Ok(Empty(text));
    }
    r := Ok(Drawn(p.commands, p.thoughts, p.finished, text));
  }
}
