/** The serial link of src/modules/serial_handler.py: the connection
    fields `connect`/`disconnect` set, the guarded writes, the XOR
    checksum and the line splitting of the reader.
    The port itself is not modelled: whether opening succeeds is a
    parameter, and what is written is recorded as text in `written`. */
module SerialLink {
  import opened Text

  // ---------------------------------------------------------------------
  // Checksum
  // ---------------------------------------------------------------------

  function Code(c: char): bv32 {
    (c as int) as bv32
  }

  /** XOR of the character codes of `s`, last character last. */
  function XorAll(s: string): bv32 {
    if s == [] then 0 else XorAll(s[..|s| - 1]) ^ Code(s[|s| - 1])
  }

  /** The low byte of the XOR. */
  function ChecksumByte(s: string): bv8 {
    (XorAll(s) & 0xFF) as bv8
  }

  /** `_calculate_checksum`: the XOR of the codes, masked with 0xFF. */
  function Checksum(s: string): (r: int)
    ensures 0 <= r < 256
    ensures s == [] ==> r == 0
  {
    ChecksumByte(s) as int
  }

  method CalculateChecksum(line: string) returns (checksum: int)
    ensures checksum == Checksum(line)
  {
    var acc: bv32 := 0;
    var i := 0;
    while i < |line|
      invariant 0 <= i <= |line|
      invariant acc == XorAll(line[..i])
    {
      XorAllStep(line, i);
      acc := acc ^ Code(line[i]);
      i := i + 1;
    }
    assert line[..i] == line;
    assert acc == XorAll(line);
    checksum := ((acc & 0xFF) as bv8) as int;
  }

  lemma XorAllStep(s: string, i: nat)
    requires i < |s|
    ensures XorAll(s[..i + 1]) == XorAll(s[..i]) ^ Code(s[i])
  {
    assert s[..i + 1][..i] == s[..i];
  }

  lemma {:induction false} XorAllAppend(a: string, b: string)
    ensures XorAll(a + b) == XorAll(a) ^ XorAll(b)
    decreases |b|
  {
    if b == [] {
      assert a + b == a;
    } else {
      var n := |b| - 1;
      assert (a + b)[..|a + b| - 1] == a + b[..n];
      assert (a + b)[|a + b| - 1] == b[n];
      XorAllAppend(a, b[..n]);
    }
  }

  /** The checksum of a concatenation is the XOR of the checksums. */
  lemma ChecksumAppend(a: string, b: string)
    ensures ChecksumByte(a + b) == ChecksumByte(a) ^ ChecksumByte(b)
  {
    XorAllAppend(a, b);
    MaskXor(XorAll(a), XorAll(b));
  }

  lemma MaskXor(x: bv32, y: bv32)
    ensures ((x ^ y) & 0xFF) as bv8 == ((x & 0xFF) as bv8) ^ ((y & 0xFF) as bv8)
  {
  }

  // ---------------------------------------------------------------------
  // Reader: splitting the received text into lines
  // ---------------------------------------------------------------------

  /** What the reader hands to the callback for one complete line: the
      stripped line, unless it is empty after stripping. */
  function Keep(line: string): (r: seq<string>)
    ensures |r| <= 1
  {
    if Strip(line) == [] then [] else [Strip(line)]
  }

  /** The lines the reader delivers from text `s`: every piece that a
      '\n' terminates, in order, through `Keep`. */
  function Lines(s: string): (r: seq<string>)
    decreases |s|
  {
    var k := Find(s, '\n');
    if k == |s| then []
    else Keep(s[..k]) + Lines(s[k + 1..])
  }

  /** Every delivered line is non-empty and already stripped. */
  lemma {:induction false} LinesSpec(s: string)
    ensures forall k :: 0 <= k < |Lines(s)| ==> Lines(s)[k] != [] && Strip(Lines(s)[k]) == Lines(s)[k]
    decreases |s|
  {
    var k := Find(s, '\n');
    if k < |s| {
      LinesSpec(s[k + 1..]);
      if Strip(s[..k]) != [] {
        StripIdempotent(s[..k]);
      }
    }
  }

  /** What stays in the buffer: the text after the last '\n'. */
  function Remainder(s: string): (r: string)
    decreases |s|
  {
    var k := Find(s, '\n');
    if k == |s| then s
    else Remainder(s[k + 1..])
  }

  /** The remainder holds no '\n' and is a suffix of the text: either all
      of it or what follows its last '\n'. */
  lemma {:induction false} RemainderSpec(s: string)
    ensures var r := Remainder(s);
      && '\n' !in r
      && |r| <= |s| && r == s[|s| - |r|..]
      && (r == s || s[|s| - |r| - 1] == '\n')
    decreases |s|
  {
    var k := Find(s, '\n');
    FindSpec(s, '\n');
    if k < |s| {
      RemainderSpec(s[k + 1..]);
    }
  }

  /** One pass of the inner `while '\n' in buffer` loop of `_read_loop`
      after `data` has been appended to `buffer`. `delivered` is what the
      callback receives, or nothing when no callback is set. */
  method ReadStep(buffer: string, data: string, hasCallback: bool) returns (delivered: seq<string>, rest: string)
    ensures delivered == (if hasCallback then Lines(buffer + data) else [])
    ensures rest == Remainder(buffer + data)
    ensures '\n' !in rest
  {
    var buf := buffer + data;
    var lines := [];
    while '\n' in buf
      invariant lines + Lines(buf) == Lines(buffer + data)
      invariant Remainder(buf) == Remainder(buffer + data)
      decreases |buf|
    {
      var k := Find(buf, '\n');
      FindSpec(buf, '\n');
      var line := Strip(buf[..k]);
      var tail := buf[k + 1..];
      ghost var kept := Keep(buf[..k]);
      ghost var before := lines;
      if line != [] {
        lines := lines + [line];
      }
      assert lines == before + kept;
      AppendAssoc(before, kept, Lines(tail));
      buf := tail;
    }
    FindSpec(buf, '\n');
    delivered := if hasCallback then lines else [];
    rest := buf;
  }

  lemma AppendAssoc(a: seq<string>, b: seq<string>, c: seq<string>)
    ensures (a + b) + c == a + (b + c)
  {
  }

  /** Splitting `s + t` is splitting `s`, then splitting what `s` left in
      the buffer followed by `t`. */
  lemma {:induction false} LinesAppend(s: string, t: string)
    ensures Lines(s + t) == Lines(s) + Lines(Remainder(s) + t)
    ensures Remainder(s + t) == Remainder(Remainder(s) + t)
    decreases |s|
  {
    var k := Find(s, '\n');
    if k < |s| {
      FindAppend(s, t, '\n');
      assert (s + t)[..k] == s[..k];
      assert (s + t)[k + 1..] == s[k + 1..] + t;
      LinesAppend(s[k + 1..], t);
    }
  }

  /** Everything the reader has received, chunk by chunk. */
  function Concat(chunks: seq<string>): string {
    if chunks == [] then [] else Concat(chunks[..|chunks| - 1]) + chunks[|chunks| - 1]
  }

  /** The outer loop of `_read_loop` over the chunks the port yields: the
      lines delivered are those of the whole received text, so how the
      text is cut into chunks makes no difference. */
  method ReadLoop(chunks: seq<string>) returns (delivered: seq<string>, buffer: string)
    ensures delivered == Lines(Concat(chunks))
    ensures buffer == Remainder(Concat(chunks))
  {
    delivered, buffer := [], [];
    var i := 0;
    while i < |chunks|
      invariant 0 <= i <= |chunks|
      invariant delivered == Lines(Concat(chunks[..i]))
      invariant buffer == Remainder(Concat(chunks[..i]))
    {
      var lines;
      LinesAppend(Concat(chunks[..i]), chunks[i]);
      lines, buffer := ReadStep(buffer, chunks[i], true);
      delivered := delivered + lines;
      assert chunks[..i + 1][..i] == chunks[..i];
      i := i + 1;
    }
    assert chunks[..i] == chunks;
  }

  /** Feeding `a` and then `b` delivers the lines of `a + b`. */
  lemma TwoChunks(buffer: string, a: string, b: string)
    ensures Lines(buffer + a) + Lines(Remainder(buffer + a) + b) == Lines(buffer + a + b)
    ensures Remainder(Remainder(buffer + a) + b) == Remainder(buffer + a + b)
  {
    LinesAppend(buffer + a, b);
  }

  // ---------------------------------------------------------------------
  // The handler object
  // ---------------------------------------------------------------------

  class SerialHandler {
    /** `current_port`. */
    var port: Option<string>
    /** `serial is not None and serial.is_open`. */
    var open: bool
    var hasCallback: bool
    var running: bool
    var lineNumber: int
    /** Every line written to the port, in order. */
    var written: seq<string>
    /** Every message passed to the callback by `send_command`. */
    var notices: seq<string>

    constructor ()
      ensures port == None && !open && !hasCallback && !running && lineNumber == 0
      ensures written == [] && notices == []
    {
      port := None;
      open := false;
      hasCallback := false;
      running := false;
      lineNumber := 0;
      written := [];
      notices := [];
    }

    predicate IsConnected()
      reads this
    {
      open
    }

    method Disconnect()
      modifies this`running, this`open, this`port
      ensures !running && !open && port == None
    {
      running := false;
      open := false;
      port := None;
    }

    /** `connect(port, callback=...)`; `opens` is whether the port could
        be opened. It disconnects first, so a failure leaves the handler
        disconnected. */
    method Connect(p: string, withCallback: bool, opens: bool) returns (ok: bool)
      modifies this`running, this`open, this`port, this`hasCallback, this`lineNumber
      ensures ok == opens == IsConnected()
      ensures opens ==> port == Some(p) && hasCallback == withCallback && lineNumber == 0 && running
      ensures !opens ==> port == None && !running && hasCallback == old(hasCallback) && lineNumber == old(lineNumber)
    {
      Disconnect();
      if !opens {
        return false;
      }
      open := true;
      port := Some(p);
      hasCallback := withCallback;
      lineNumber := 0;
      running := true;
      return true;
    }

    /** `send_command`: the stripped command and a newline, and a
        "TX: " notice to the callback; nothing at all when disconnected. */
    method SendCommand(command: string)
      modifies this`written, this`notices
      ensures written == old(written) + (if open then [Strip(command) + "\n"] else [])
      ensures notices == old(notices) + (if open && hasCallback then ["TX: " + Strip(command)] else [])
    {
      if !IsConnected() {
        return;
      }
      var cmd := Strip(command);
      written := written + [cmd + "\n"];
      if hasCallback {
        notices := notices + ["TX: " + cmd];
      }
    }

    /** `send_raw`: the command as given, unstripped, and a newline. */
    method SendRaw(command: string)
      modifies this`written
      ensures written == old(written) + (if open then [command + "\n"] else [])
    {
      if !IsConnected() {
        return;
      }
      written := written + [command + "\n"];
    }
  }

  /** What `send_command` puts on the wire for each command. */
  function Framed(cmds: seq<string>): (r: seq<string>)
    ensures |r| == |cmds|
  {
    if cmds == [] then [] else Framed(cmds[..|cmds| - 1]) + [Strip(cmds[|cmds| - 1]) + "\n"]
  }

  /** What `send_command` tells the callback for each command. */
  function Announced(cmds: seq<string>): (r: seq<string>)
    ensures |r| == |cmds|
  {
    if cmds == [] then [] else Announced(cmds[..|cmds| - 1]) + ["TX: " + Strip(cmds[|cmds| - 1])]
  }

  /** What `send_raw` puts on the wire for each command. */
  function RawFramed(cmds: seq<string>): (r: seq<string>)
    ensures |r| == |cmds|
  {
    if cmds == [] then [] else RawFramed(cmds[..|cmds| - 1]) + [cmds[|cmds| - 1] + "\n"]
  }

  /** The framing of a single command. */
  lemma FramedOne(c: string)
    ensures Framed([c]) == [Strip(c) + "\n"]
    ensures Announced([c]) == ["TX: " + Strip(c)]
    ensures RawFramed([c]) == [c + "\n"]
  {
    assert [c][..0] == [];
  }

  /** Sending `a` and then `b` writes and announces what sending `a + b` does. */
  lemma {:induction false} SendTwice(a: seq<string>, b: seq<string>)
    ensures Framed(a) + Framed(b) == Framed(a + b)
    ensures Announced(a) + Announced(b) == Announced(a + b)
    ensures RawFramed(a) + RawFramed(b) == RawFramed(a + b)
    decreases |b|
  {
    if b == [] {
      assert a + b == a;
    } else {
      var n := |b| - 1;
      assert (a + b)[..|a + b| - 1] == a + b[..n];
      assert (a + b)[|a + b| - 1] == b[n];
      SendTwice(a, b[..n]);
    }
  }

  /** Sending one more command appends its line and its notice. */
  lemma FramedSnoc(a: seq<string>, c: string)
    ensures Framed(a + [c]) == Framed(a) + Framed([c])
    ensures Announced(a + [c]) == Announced(a) + Announced([c])
    ensures RawFramed(a + [c]) == RawFramed(a) + RawFramed([c])
  {
    assert (a + [c])[..|a|] == a;
    assert [c][..0] == [];
  }

  lemma {:induction false} FramedAt(cmds: seq<string>, i: nat)
    requires i < |cmds|
    ensures Framed(cmds)[i] == Strip(cmds[i]) + "\n"
    decreases |cmds|
  {
    if i < |cmds| - 1 {
      FramedAt(cmds[..|cmds| - 1], i);
    }
  }

  /** Every line `send_command` writes ends in exactly one newline and
      carries no surrounding whitespace before it. */
  lemma FramedShape(cmds: seq<string>, i: nat)
    requires i < |cmds|
    ensures var w := Framed(cmds)[i];
      |w| >= 1 && w[|w| - 1] == '\n' && w[..|w| - 1] == Strip(w[..|w| - 1])
  {
    FramedAt(cmds, i);
    var w := Framed(cmds)[i];
    assert w[..|w| - 1] == Strip(cmds[i]);
    StripIdempotent(cmds[i]);
  }

  /** A notice of `send_command` is never taken for an acknowledgement:
      it starts with "TX: ", not with "ok" in any case. */
  lemma NoticeIsNotAck(cmd: string)
    ensures !StartsWith(Lower("TX: " + cmd), "ok")
  {
    LowerAt("TX: " + cmd, 0);
    assert Lower("TX: " + cmd)[0] == 't';
  }
}
