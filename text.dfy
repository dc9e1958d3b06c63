/** String helpers shared by every part of the model: Python's `str.strip`,
    `str.split`, `str.upper`/`str.lower` (ASCII letters only), prefix tests,
    and the Option/Result wrappers used for the source's exceptions. */
module Text {

  datatype Option<+T> = None | Some(value: T) {
    function GetOr(default: T): T {
      match this
      case Some(v) => v
      case None => default
    }
  }

  datatype Result<+T> = Ok(value: T) | Err(message: string)

  /** Characters that `str.strip()` and `str.split()` treat as whitespace:
      those `str.isspace()` accepts, namely tab to carriage return, the
      four information separators, space, next-line, no-break space and the
      Unicode space separators and line/paragraph separators. */
  predicate IsSpace(c: char) {
    || '\t' <= c <= '\r'
    || '\U{1C}' <= c <= '\U{1F}'
    || c == ' ' || c == '\U{85}' || c == '\U{A0}' || c == '\U{1680}'
    || '\U{2000}' <= c <= '\U{200A}'
    || c == '\U{2028}' || c == '\U{2029}' || c == '\U{202F}' || c == '\U{205F}' || c == '\U{3000}'
  }

  function LStrip(s: string): (r: string)
    ensures |r| <= |s|
  {
    if s == [] || !IsSpace(s[0]) then s else LStrip(s[1..])
  }

  function RStrip(s: string): (r: string)
    ensures |r| <= |s|
  {
    if s == [] || !IsSpace(s[|s| - 1]) then s else RStrip(s[..|s| - 1])
  }

  /** Python `s.strip()`. */
  function Strip(s: string): (r: string)
    ensures |r| <= |s|
  {
    RStrip(LStrip(s))
  }

  /** `LStrip` removes exactly the leading whitespace. */
  lemma {:induction false} LStripSpec(s: string)
    ensures var r := LStrip(s);
      && r == s[|s| - |r|..]
      && (r == [] || !IsSpace(r[0]))
      && forall i :: 0 <= i < |s| - |r| ==> IsSpace(s[i])
    decreases |s|
  {
    if s != [] && IsSpace(s[0]) {
      LStripSpec(s[1..]);
    }
  }

  /** `RStrip` removes exactly the trailing whitespace. */
  lemma {:induction false} RStripSpec(s: string)
    ensures var r := RStrip(s);
      && r == s[..|r|]
      && (r == [] || !IsSpace(r[|r| - 1]))
      && forall i :: |r| <= i < |s| ==> IsSpace(s[i])
    decreases |s|
  {
    if s != [] && IsSpace(s[|s| - 1]) {
      RStripSpec(s[..|s| - 1]);
    }
  }

  /** `Strip` leaves a slice of the input that neither starts nor ends
      with whitespace, and removes only whitespace. */
  lemma StripSpec(s: string)
    ensures var r := Strip(s);
      && (r == [] || (!IsSpace(r[0]) && !IsSpace(r[|r| - 1])))
      && var a := |s| - |LStrip(s)|;
      && a + |r| <= |s| && r == s[a..a + |r|]
      && (forall i :: 0 <= i < a ==> IsSpace(s[i]))
      && (forall i :: a + |r| <= i < |s| ==> IsSpace(s[i]))
  {
    LStripSpec(s);
    var l := LStrip(s);
    RStripSpec(l);
    var r := RStrip(l);
    var a := |s| - |l|;
    if r != [] {
      assert r[0] == l[0];
    }
    assert r == s[a..a + |r|];
    forall i | a + |r| <= i < |s|
      ensures IsSpace(s[i])
    {
      assert s[i] == l[i - a];
    }
  }

  /** The non-ASCII separators count as whitespace too: a no-break space
      and an em space around a reply are stripped, a zero-width space is not. */
  lemma StripUnicodeSpaces()
    ensures Strip("\U{A0}ok\U{2003}") == "ok"
    ensures Strip("\U{200B}ok") == "\U{200B}ok"
  {
    assert LStrip("\U{A0}ok\U{2003}") == LStrip("ok\U{2003}") == "ok\U{2003}";
    assert RStrip("ok\U{2003}") == RStrip("ok") == "ok";
  }

  lemma {:induction false} StripIdempotent(s: string)
    ensures Strip(Strip(s)) == Strip(s)
  {
    var r := Strip(s);
    StripSpec(s);
    if r != [] {
      assert LStrip(r) == r;
      assert RStrip(r) == r;
    }
  }

  /** A string with no whitespace at either end strips to itself. */
  lemma StripPlain(s: string)
    requires s != [] && !IsSpace(s[0]) && !IsSpace(s[|s| - 1])
    ensures Strip(s) == s
  {
    assert LStrip(s) == s;
  }

  /** Python `s.startswith(p)`. */
  predicate StartsWith(s: string, p: string) {
    |p| <= |s| && s[..|p|] == p
  }

  function UpperChar(c: char): char {
    if 'a' <= c <= 'z' then (c as int - 32) as char else c
  }

  function LowerChar(c: char): char {
    if 'A' <= c <= 'Z' then (c as int + 32) as char else c
  }

  /** Python `s.upper()` restricted to ASCII letters. */
  function Upper(s: string): (r: string)
    ensures |r| == |s|
  {
    if s == [] then [] else [UpperChar(s[0])] + Upper(s[1..])
  }

  lemma {:induction false} UpperAt(s: string, i: nat)
    requires i < |s|
    ensures Upper(s)[i] == UpperChar(s[i])
    decreases i
  {
    if i > 0 {
      UpperAt(s[1..], i - 1);
    }
  }

  /** Python `s.lower()` restricted to ASCII letters. */
  function Lower(s: string): (r: string)
    ensures |r| == |s|
  {
    if s == [] then [] else [LowerChar(s[0])] + Lower(s[1..])
  }

  lemma {:induction false} LowerAt(s: string, i: nat)
    requires i < |s|
    ensures Lower(s)[i] == LowerChar(s[i])
    decreases i
  {
    if i > 0 {
      LowerAt(s[1..], i - 1);
    }
  }

  /** Python `sub in s`. */
  predicate Contains(s: string, sub: string) {
    StartsWith(s, sub) || (s != [] && Contains(s[1..], sub))
  }

  /** Number of leading characters that are not whitespace. */
  function WordLength(s: string): (n: nat)
    ensures n <= |s|
    ensures forall i :: 0 <= i < n ==> !IsSpace(s[i])
    ensures n < |s| ==> IsSpace(s[n])
  {
    if s == [] || IsSpace(s[0]) then 0 else 1 + WordLength(s[1..])
  }

  /** Python `s.split()` with no separator: the maximal runs of
      non-whitespace characters, in order. */
  function Words(s: string): seq<string>
    decreases |s|
  {
    var t := LStrip(s);
    LStripSpec(s);
    if t == [] then []
    else
      var n := WordLength(t);
      [t[..n]] + Words(t[n..])
  }

  /** Every word is non-empty and holds no whitespace. */
  lemma {:induction false} WordsSpec(s: string)
    ensures forall k :: 0 <= k < |Words(s)| ==> Words(s)[k] != [] && forall i :: 0 <= i < |Words(s)[k]| ==> !IsSpace(Words(s)[k][i])
    decreases |s|
  {
    var t := LStrip(s);
    LStripSpec(s);
    if t != [] {
      var n := WordLength(t);
      WordsSpec(t[n..]);
      assert Words(s) == [t[..n]] + Words(t[n..]);
    }
  }

  /** A string made only of whitespace has no words. */
  lemma {:induction false} WordsOfSpaces(s: string)
    requires forall i :: 0 <= i < |s| ==> IsSpace(s[i])
    ensures Words(s) == []
  {
    LStripSpec(s);
    var t := LStrip(s);
    if t != [] {
      assert t[0] == s[|s| - |t|];
    }
  }

  /** A non-empty run without whitespace is one word. */
  lemma {:induction false} WordsOfWord(w: string)
    requires w != [] && forall i :: 0 <= i < |w| ==> !IsSpace(w[i])
    ensures Words(w) == [w]
  {
    assert LStrip(w) == w;
    var n := WordLength(w);
    assert n == |w|;
    assert w[..n] == w && w[n..] == [];
    assert Words(w[n..]) == [];
    assert Words(w) == [w[..n]] + Words(w[n..]);
  }

  /** A whitespace character separates words: the words around it are the
      words of each side, in order. Together with `WordsOfSpaces` and
      `WordsOfWord` this fixes `Words` on every string. */
  lemma {:induction false} WordsSplitAt(x: string, c: char, y: string)
    requires IsSpace(c)
    ensures Words(x + [c] + y) == Words(x) + Words(y)
    decreases |x|
  {
    var s := x + [c] + y;
    if x == [] {
      assert s[1..] == y;
      assert LStrip(s) == LStrip(y);
      assert LStrip(x) == [];
    } else if IsSpace(x[0]) {
      assert s[1..] == x[1..] + [c] + y;
      WordsSplitAt(x[1..], c, y);
      assert LStrip(s) == LStrip(s[1..]);
      assert LStrip(x) == LStrip(x[1..]);
    } else {
      assert LStrip(s) == s && LStrip(x) == x;
      var n := WordLength(s);
      var m := WordLength(x);
      SameWordLength(x, c, y);
      assert 0 < m;
      assert s[..n] == x[..m];
      assert s[n..] == x[m..] + [c] + y;
      WordsSplitAt(x[m..], c, y);
    }
  }

  /** The first word of `x` is the first word of `x + [c] + y` when `c`
      is whitespace. */
  lemma {:induction false} SameWordLength(x: string, c: char, y: string)
    requires IsSpace(c)
    ensures WordLength(x + [c] + y) == WordLength(x)
    decreases |x|
  {
    var s := x + [c] + y;
    if x != [] && !IsSpace(x[0]) {
      assert s[1..] == x[1..] + [c] + y;
      SameWordLength(x[1..], c, y);
    }
  }

  /** Python `s.split(sep)` for a one-character separator: always at least
      one piece, and the pieces joined with `sep` give `s` back. */
  function SplitOn(s: string, sep: char): (parts: seq<string>)
    ensures |parts| >= 1
    decreases |s|
  {
    var k := Find(s, sep);
    if k == |s| then [s]
    else [s[..k]] + SplitOn(s[k + 1..], sep)
  }

  /** No piece holds the separator. */
  lemma {:induction false} SplitOnSpec(s: string, sep: char)
    ensures forall k :: 0 <= k < |SplitOn(s, sep)| ==> sep !in SplitOn(s, sep)[k]
    decreases |s|
  {
    var k := Find(s, sep);
    FindSpec(s, sep);
    if k < |s| {
      SplitOnSpec(s[k + 1..], sep);
      assert sep !in s[..k];
    }
  }

  /** Index of the first `c` in `s`, or `|s|` when there is none. */
  function Find(s: string, c: char): (k: nat)
    ensures k <= |s|
    ensures k < |s| ==> s[k] == c
  {
    if s == [] || s[0] == c then 0 else 1 + Find(s[1..], c)
  }

  /** `Find` stops at the first `c`, and finds one exactly when `s` holds one. */
  lemma {:induction false} FindSpec(s: string, c: char)
    ensures forall i :: 0 <= i < Find(s, c) ==> s[i] != c
    ensures c in s <==> Find(s, c) < |s|
    decreases |s|
  {
    if s != [] && s[0] != c {
      FindSpec(s[1..], c);
      assert s == [s[0]] + s[1..];
    }
  }

  /** The first `c` of `s + t` is that of `s` when `s` holds one. */
  lemma {:induction false} FindAppend(s: string, t: string, c: char)
    requires Find(s, c) < |s|
    ensures Find(s + t, c) == Find(s, c)
    decreases |s|
  {
    if s[0] != c {
      assert (s + t)[1..] == s[1..] + t;
      FindAppend(s[1..], t, c);
    }
  }

  /** Python `sep.join(parts)`. */
  function Join(parts: seq<string>, sep: string): string {
    if parts == [] then []
    else if |parts| == 1 then parts[0]
    else parts[0] + sep + Join(parts[1..], sep)
  }

  lemma JoinCons(p: string, rest: seq<string>, sep: string)
    requires rest != []
    ensures Join([p] + rest, sep) == p + sep + Join(rest, sep)
  {
    assert ([p] + rest)[1..] == rest;
  }

  lemma {:induction false} JoinSnoc(parts: seq<string>, p: string, sep: string)
    requires parts != []
    ensures Join(parts + [p], sep) == Join(parts, sep) + sep + p
    decreases |parts|
  {
    if |parts| == 1 {
      assert parts + [p] == [parts[0]] + [p];
      JoinCons(parts[0], [p], sep);
    } else {
      assert parts + [p] == [parts[0]] + (parts[1..] + [p]);
      JoinCons(parts[0], parts[1..] + [p], sep);
      JoinSnoc(parts[1..], p, sep);
      JoinCons(parts[0], parts[1..], sep);
      assert [parts[0]] + parts[1..] == parts;
    }
  }

  lemma {:induction false} JoinSplitOn(s: string, sep: char)
    ensures Join(SplitOn(s, sep), [sep]) == s
    decreases |s|
  {
    var k := Find(s, sep);
    if k < |s| {
      var rest := SplitOn(s[k + 1..], sep);
      JoinSplitOn(s[k + 1..], sep);
      assert SplitOn(s, sep) == [s[..k]] + rest;
      JoinCons(s[..k], rest, [sep]);
      assert s == s[..k] + [sep] + s[k + 1..];
    }
  }

  /** Decimal rendering of an integer, as Python's `str(int)`. */
  function IntToString(n: int): (r: string)
    ensures r != []
    decreases if n < 0 then 1 - n else n
  {
    if n < 0 then "-" + IntToString(-n)
    else if n < 10 then [(48 + n) as char]
    else IntToString(n / 10) + [(48 + n % 10) as char]
  }
}
