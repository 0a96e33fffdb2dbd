/**
 * The WebSocket frame codec (ws.go; the copy in the device gateway is the same): `writeFrame` and `readFrame` as methods
 * on a byte stream, against a printer and a parser for section 5.2 of RFC 6455, with client masking from section 5.3.
 */
module Frames {
  import opened Wrappers

  type Bytes = seq<bv8>

  const TEXT: bv8 := 1
  const CLOSE: bv8 := 8
  const PING: bv8 := 9
  const PONG: bv8 := 10

  // ------------------------------------------------------------------ numbers

  function Pow256(k: nat): nat {
    if k == 0 then 1 else 256 * Pow256(k - 1)
  }

  lemma NextByte(b: bv8)
    requires b < 255
    ensures (b + 1) as int == b as int + 1
  {
  }

  lemma ByteOf(n: nat) returns (b: bv8)
    requires n < 256
    ensures b as int == n
  {
    b := 0;
    if n > 0 {
      var before := ByteOf(n - 1);
      NextByte(before);
      b := before + 1;
    }
  }

  lemma ByteExact(n: nat)
    requires n < 256
    ensures (n as bv8) as int == n
  {
    var b := ByteOf(n);
    assert (b as int) as bv8 == b;
  }

  function ToByte(n: nat): bv8
    requires n < 256
  {
    n as bv8
  }

  // The k low bytes of n, most significant first.
  function BigEndian(n: nat, k: nat): (r: Bytes)
    ensures |r| == k
  {
    if k == 0 then [] else BigEndian(n / 256, k - 1) + [ToByte(n % 256)]
  }

  function Value(bs: Bytes): nat {
    if bs == [] then 0 else Value(bs[..|bs| - 1]) * 256 + bs[|bs| - 1] as int
  }

  lemma {:induction false} ValueOfBigEndian(n: nat, k: nat)
    requires n < Pow256(k)
    ensures Value(BigEndian(n, k)) == n
  {
    if k == 0 {
    } else {
      ValueOfBigEndian(n / 256, k - 1);
      ByteExact(n % 256);
      assert BigEndian(n, k)[..k - 1] == BigEndian(n / 256, k - 1);
    }
  }

  lemma {:induction false} BigEndianOfValue(bs: Bytes)
    ensures BigEndian(Value(bs), |bs|) == bs && Value(bs) < Pow256(|bs|)
  {
    if bs == [] {
    } else {
      var front, last := bs[..|bs| - 1], bs[|bs| - 1];
      BigEndianOfValue(front);
      var v := Value(bs);
      assert v / 256 == Value(front) && v % 256 == last as int;
      assert ToByte(v % 256) == last;
      assert bs == front + [last];
    }
  }

  lemma Pow256Values()
    ensures Pow256(2) == 0x1_0000 && Pow256(8) == 0x1_0000_0000_0000_0000
  {
    assert Pow256(4) == 0x1_0000_0000;
  }

  lemma LowBits(b: bv8)
    requires b < 0x80
    ensures (0x80 | b) & 0x7f == b && b & 0x7f == b && (0x80 | b) & 0x80 != 0 && b & 0x80 == 0
  {
  }

  lemma LowNibble(b: bv8)
    requires b < 16
    ensures (0x80 | b) & 0x0f == b
  {
  }

  lemma SmallByte(n: nat)
    requires n < 128
    ensures ToByte(n) < 0x80 && ToByte(n) as int == n
  {
    ByteExact(n);
  }

  // ------------------------------------------------------------------ frames on the wire

  // A final frame; clients send it with a mask key, the server without.
  datatype Frame = Frame(opcode: bv8, payload: Bytes, mask: Option<Bytes>)

  const MAX_LENGTH: nat := 0x8000_0000_0000_0000

  predicate Sendable(f: Frame) {
    f.opcode < 16 && |f.payload| < MAX_LENGTH && (f.mask.Some? ==> |f.mask.value| == 4)
  }

  function Xored(data: Bytes, key: Bytes): (r: Bytes)
    requires |key| == 4
    ensures |r| == |data|
  {
    seq(|data|, i requires 0 <= i < |data| => data[i] ^ key[i % 4])
  }

  lemma XoredTwice(data: Bytes, key: Bytes)
    requires |key| == 4
    ensures Xored(Xored(data, key), key) == data
  {
    forall i | 0 <= i < |data| ensures Xored(Xored(data, key), key)[i] == data[i] {
      XorTwice(data[i], key[i % 4]);
    }
  }

  lemma XorTwice(a: bv8, b: bv8)
    ensures (a ^ b) ^ b == a
  {
  }

  function LengthField(n: nat, flag: bv8): Bytes {
    if n < 126 then [flag | ToByte(n)]
    else if n <= 0xffff then [flag | 126] + BigEndian(n, 2)
    else [flag | 127] + BigEndian(n, 8)
  }

  function Encode(f: Frame): Bytes
    requires f.mask.Some? ==> |f.mask.value| == 4
  {
    match f.mask
    case None => [0x80 | f.opcode] + LengthField(|f.payload|, 0) + f.payload
    case Some(key) => [0x80 | f.opcode] + LengthField(|f.payload|, 0x80) + key + Xored(f.payload, key)
  }

  // A frame, the end of the stream within a frame, or a length for which the reader cannot allocate a payload.
  datatype Parsed = Parsed(opcode: bv8, payload: Bytes, rest: Bytes) | Truncated | Oversized

  // Sizes that the second byte announces: of the extended length and of the mask key.
  function ExtSize(b: bv8): nat {
    if b & 0x7f == 126 then 2 else if b & 0x7f == 127 then 8 else 0
  }

  function KeySize(b: bv8): (n: nat)
    ensures n == 0 || n == 4
  {
    if b & 0x80 != 0 then 4 else 0
  }

  function LengthOf(b: bv8, ext: Bytes): nat {
    if ext == [] then (b & 0x7f) as int else Value(ext)
  }

  // What follows the length: the mask key, if one was announced, and the payload, of at most `limit` bytes.
  function DecodeBody(opcode: bv8, keySize: nat, length: nat, s: Bytes, limit: nat): Parsed
    requires keySize == 0 || keySize == 4
  {
    if |s| < keySize then Truncated
    else if length > limit then Oversized
    else if |s| < keySize + length then Truncated
    else
      var key, raw := s[..keySize], s[keySize..][..length];
      Parsed(opcode, if key == [] then raw else Xored(raw, key), s[keySize..][length..])
  }

  function Decode(s: Bytes, limit: nat): Parsed {
    if |s| < 2 || |s| < 2 + ExtSize(s[1]) then Truncated
    else
      var ext := ExtSize(s[1]);
      DecodeBody(s[0] & 0x0f, KeySize(s[1]), LengthOf(s[1], s[2..][..ext]), s[2..][ext..], limit)
  }

  // The length field says how long it is, whether a key follows, and the payload length.
  lemma LengthFieldReads(n: nat, masked: bool)
    requires n < MAX_LENGTH
    ensures var field := LengthField(n, if masked then 0x80 else 0);
      |field| == 1 + ExtSize(field[0]) && KeySize(field[0]) == (if masked then 4 else 0) && LengthOf(field[0], field[1..]) == n
  {
    Pow256Values();
    var flag: bv8 := if masked then 0x80 else 0;
    if n < 126 {
      SmallByte(n);
      LowBits(ToByte(n));
    } else if n <= 0xffff {
      ValueOfBigEndian(n, 2);
      assert ([flag | 126] + BigEndian(n, 2))[1..] == BigEndian(n, 2);
    } else {
      ValueOfBigEndian(n, 8);
      assert ([flag | 127] + BigEndian(n, 8))[1..] == BigEndian(n, 8);
    }
  }

  lemma BodyLayout(opcode: bv8, key: Bytes, body: Bytes, rest: Bytes, limit: nat)
    requires (|key| == 0 || |key| == 4) && |body| <= limit
    ensures DecodeBody(opcode, |key|, |body|, key + body + rest, limit)
         == Parsed(opcode, if key == [] then body else Xored(body, key), rest)
  {
    var s := key + body + rest;
    assert s[..|key|] == key && s[|key|..] == body + rest;
  }

  // The two header bytes of section 5.2 of RFC 6455: a final frame, no reserved bit, the opcode; and the mask bit exactly
  // if there is a mask key.
  lemma HeaderBits(f: Frame)
    requires Sendable(f)
    ensures var s := Encode(f);
      && |s| >= 2
      && s[0] & 0x80 == 0x80 && s[0] & 0x70 == 0 && s[0] & 0x0f == f.opcode
      && (s[1] & 0x80 == 0x80 <==> f.mask.Some?)
  {
    LengthFieldReads(|f.payload|, f.mask.Some?);
    FinalByte(f.opcode);
    hide LengthOf, ExtSize;
    var field := LengthField(|f.payload|, if f.mask.Some? then 0x80 else 0);
    assert Encode(f)[1] == field[0];
    MaskBit(field[0]);
  }

  lemma FinalByte(opcode: bv8)
    requires opcode < 16
    ensures (0x80 | opcode) & 0x80 == 0x80 && (0x80 | opcode) & 0x70 == 0 && (0x80 | opcode) & 0x0f == opcode
  {
  }

  lemma MaskBit(b: bv8)
    ensures KeySize(b) == 4 <==> b & 0x80 == 0x80
  {
  }

  // A byte string laid out as a frame is read as one.
  lemma DecodeLayout(head: bv8, field: Bytes, key: Bytes, body: Bytes, rest: Bytes, limit: nat)
    requires |field| > 0 && |field| == 1 + ExtSize(field[0]) && |key| == KeySize(field[0])
    requires LengthOf(field[0], field[1..]) == |body| <= limit
    ensures Decode([head] + field + key + body + rest, limit)
         == Parsed(head & 0x0f, if key == [] then body else Xored(body, key), rest)
  {
    hide DecodeBody, ExtSize, KeySize, LengthOf, Xored;
    var s := [head] + field + key + body + rest;
    HeaderLayout(head, field, key + body + rest);
    assert s == [head] + field + (key + body + rest);
    BodyLayout(head & 0x0f, key, body, rest, limit);
  }

  lemma HeaderLayout(head: bv8, field: Bytes, tail: Bytes)
    requires |field| > 0
    ensures var s, n := [head] + field + tail, |field| - 1;
      |s| == 2 + n + |tail| && s[0] == head && s[1] == field[0] && s[2..][..n] == field[1..] && s[2..][n..] == tail
  {
    var s, n := [head] + field + tail, |field| - 1;
    assert s[2..] == field[1..] + tail;
  }

  // Reading what was written, whatever follows it, gives opcode and payload back and leaves the rest untouched.
  lemma RoundTrip(f: Frame, rest: Bytes, limit: nat)
    requires Sendable(f) && |f.payload| <= limit
    ensures Decode(Encode(f) + rest, limit) == Parsed(f.opcode, f.payload, rest)
  {
    LengthFieldReads(|f.payload|, f.mask.Some?);
    LowNibble(f.opcode);
    var head := 0x80 | f.opcode;
    if f.mask.None? {
      var field := LengthField(|f.payload|, 0);
      DecodeLayout(head, field, [], f.payload, rest, limit);
      assert [head] + field + [] == [head] + field;
    } else {
      var key := f.mask.value;
      DecodeLayout(head, LengthField(|f.payload|, 0x80), key, Xored(f.payload, key), rest, limit);
      XoredTwice(f.payload, key);
    }
  }

  // A frame that has not arrived completely is never taken for a frame.
  lemma PrefixIsTruncated(f: Frame, n: nat, limit: nat)
    requires Sendable(f) && |f.payload| <= limit && n < |Encode(f)|
    ensures Decode(Encode(f)[..n], limit) == Truncated
  {
    assert Encode(f) + [] == Encode(f);
    RoundTrip(f, [], limit);
    NothingLeft(Encode(f), n, limit);
  }

  lemma NothingLeft(s: Bytes, n: nat, limit: nat)
    requires n < |s| && Decode(s, limit).Parsed? && Decode(s, limit).rest == []
    ensures Decode(s[..n], limit) == Truncated
  {
    if 2 <= n && 2 + ExtSize(s[1]) <= n {
      PrefixSlice(s, n, 2, ExtSize(s[1]));
    }
  }

  lemma PrefixSlice(s: Bytes, n: nat, i: nat, j: nat)
    requires i + j <= n <= |s|
    ensures s[..n][i..][..j] == s[i..][..j]
  {
  }

  // No unmasked byte string that reads as this opcode and payload is shorter than what writeFrame sends, as the minimal
  // length encoding of section 5.2 of RFC 6455 demands.
  lemma ShortestForm(opcode: bv8, payload: Bytes, s: Bytes, limit: nat)
    requires opcode < 16 && |payload| < MAX_LENGTH
    requires Decode(s, limit) == Parsed(opcode, payload, []) && KeySize(s[1]) == 0
    ensures |Encode(Frame(opcode, payload, None))| <= |s|
  {
    var ext := ExtSize(s[1]);
    if ext == 2 {
      Pow256Values();
      BigEndianOfValue(s[2..][..2]);
    } else if ext == 0 {
      SmallLength(s[1]);
    }
  }

  lemma SmallLength(b: bv8)
    requires ExtSize(b) == 0
    ensures (b & 0x7f) as int < 126
  {
    var c := b & 0x7f;
    assert c < 126;
  }

  // ------------------------------------------------------------------ streams of frames

  function EncodeAll(fs: seq<Frame>): Bytes
    requires forall f :: f in fs ==> Sendable(f)
  {
    if fs == [] then []
    else
      assert Sendable(fs[0]);
      Encode(fs[0]) + EncodeAll(fs[1..])
  }

  // Reads n frames.
  function DecodeMany(n: nat, s: Bytes, limit: nat): (Option<seq<(bv8, Bytes)>>, Bytes) {
    if n == 0 then (Some([]), s)
    else
      match Decode(s, limit)
      case Truncated => (None, s)
      case Oversized => (None, s)
      case Parsed(opcode, payload, rest) =>
        var (tail, left) := DecodeMany(n - 1, rest, limit);
        (if tail.Some? then Some([(opcode, payload)] + tail.value) else None, left)
  }

  function Contents(fs: seq<Frame>): seq<(bv8, Bytes)> {
    if fs == [] then [] else [(fs[0].opcode, fs[0].payload)] + Contents(fs[1..])
  }

  // Any concatenation of frames parses back to the same list.
  lemma {:induction false} StreamRoundTrip(fs: seq<Frame>, rest: Bytes, limit: nat)
    requires forall f :: f in fs ==> Sendable(f) && |f.payload| <= limit
    ensures DecodeMany(|fs|, EncodeAll(fs) + rest, limit) == (Some(Contents(fs)), rest)
  {
    hide Decode, Encode;
    if fs == [] {
      assert EncodeAll(fs) + rest == rest;
    } else {
      assert fs[0] in fs;
      var tail := EncodeAll(fs[1..]) + rest;
      assert EncodeAll(fs) + rest == Encode(fs[0]) + tail;
      RoundTrip(fs[0], tail, limit);
      StreamRoundTrip(fs[1..], rest, limit);
    }
  }

  // ------------------------------------------------------------------ readMessage

  datatype Served = Served(message: Option<Bytes>, pongs: Bytes, rest: Bytes, panicked: bool)

  // What readMessage does to a byte stream: skip to the first text frame, answering pings; a close frame or the end of
  // the stream ends it, a length beyond the limit makes it panic.
  function Serve(s: Bytes, limit: nat): Served
    decreases |s|
  {
    match Decode(s, limit)
    case Truncated => Served(None, [], [], false)
    case Oversized => Served(None, [], [], true)
    case Parsed(opcode, payload, rest) =>
      if opcode == TEXT then Served(Some(payload), [], rest, false)
      else if opcode == CLOSE then Served(None, [], rest, false)
      else
        var later := Serve(rest, limit);
        if opcode == PING then later.(pongs := Encode(Frame(PONG, payload, None)) + later.pongs) else later
  }

  function Pongs(fs: seq<Frame>): Bytes {
    if fs == [] then []
    else (if fs[0].opcode == PING then Encode(Frame(PONG, fs[0].payload, None)) else []) + Pongs(fs[1..])
  }

  // Frames before a text frame are passed over, and exactly the pings among them are answered, in order.
  lemma {:induction false} ServeSkips(fs: seq<Frame>, text: Frame, rest: Bytes, limit: nat)
    requires forall f :: f in fs ==> Sendable(f) && |f.payload| <= limit && f.opcode != TEXT && f.opcode != CLOSE
    requires Sendable(text) && |text.payload| <= limit && text.opcode == TEXT
    ensures Serve(EncodeAll(fs) + (Encode(text) + rest), limit) == Served(Some(text.payload), Pongs(fs), rest, false)
  {
    hide Decode;
    hide Encode;
    if fs == [] {
      assert EncodeAll(fs) + (Encode(text) + rest) == Encode(text) + rest;
      RoundTrip(text, rest, limit);
    } else {
      assert fs[0] in fs;
      var tail := EncodeAll(fs[1..]) + (Encode(text) + rest);
      assert EncodeAll(fs) + (Encode(text) + rest) == Encode(fs[0]) + tail;
      RoundTrip(fs[0], tail, limit);
      ServeSkips(fs[1..], text, rest, limit);
    }
  }

  // ------------------------------------------------------------------ the connection

  method Unmask(payload: array<bv8>, key: Bytes)
    requires |key| == 4
    modifies payload
    ensures payload[..] == Xored(old(payload[..]), key)
  {
    var i := 0;
    while i < payload.Length
      invariant 0 <= i <= payload.Length
      invariant forall k :: 0 <= k < i ==> payload[k] == old(payload[k]) ^ key[k % 4]
      invariant forall k :: i <= k < payload.Length ==> payload[k] == old(payload[k])
    {
      payload[i] := payload[i] ^ key[i % 4];
      i := i + 1;
    }
  }

  class WsConn {
    const maxBuffer: nat // the largest buffer that the runtime allocates
    var input: Bytes     // bytes that will have arrived before the peer stops sending
    var output: Bytes    // bytes written

    constructor (input: Bytes, maxBuffer: nat)
      ensures this.input == input && this.maxBuffer == maxBuffer && output == []
    {
      this.input, this.maxBuffer, output := input, maxBuffer, [];
    }

    method ReadFull(n: nat) returns (ok: bool, buf: Bytes)
      modifies this`input
      ensures ok == (n <= |old(input)|)
      ensures ok ==> buf == old(input)[..n] && input == old(input)[n..]
      ensures !ok ==> input == []
    {
      ok := n <= |input|;
      if ok {
        buf, input := input[..n], input[n..];
      } else {
        buf, input := input, [];
      }
    }

    method WriteFrame(opcode: bv8, payload: Bytes)
      requires |payload| < MAX_LENGTH
      modifies this`output
      ensures output == old(output) + Encode(Frame(opcode, payload, None))
    {
      var header := Header(opcode, |payload|);
      output := output + header;
      output := output + payload;
    }

    // The length that the second header byte announces, reading the extended form if there is one.
    method ReadLength(b: bv8) returns (ok: bool, length: nat)
      modifies this`input
      ensures ok == (ExtSize(b) <= |old(input)|)
      ensures ok ==> length == LengthOf(b, old(input)[..ExtSize(b)]) && input == old(input)[ExtSize(b)..]
      ensures !ok ==> input == []
    {
      var buf: Bytes;
      ok, length := true, (b & 0x7f) as int;
      ghost var bits := b & 0x7f;
      assert (length == 126 <==> bits == 126) && (length == 127 <==> bits == 127);
      if length == 126 {
        ok, buf := ReadFull(2);
        if ok { length := Value(buf); }
      } else if length == 127 {
        ok, buf := ReadFull(8);
        if ok { length := Value(buf); }
      }
    }

    // Allocating a buffer of more than maxBuffer bytes panics.
    method ReadPayload(masked: bool, length: nat) returns (payload: Option<Bytes>, panicked: bool)
      modifies this`input
      ensures match DecodeBody(0, if masked then 4 else 0, length, old(input), maxBuffer)
        case Parsed(_, bytes, rest) => payload == Some(bytes) && input == rest && !panicked
        case Truncated => payload == None && input == [] && !panicked
        case Oversized => payload == None && panicked
    {
      var ok, key, raw := true, [], [];
      if masked {
        ok, key := ReadFull(4);
        if !ok { return None, false; }
      }
      if length > maxBuffer { return None, true; }
      ok, raw := ReadFull(length);
      if !ok { return None, false; }
      if masked {
        var buf := new bv8[length](i requires 0 <= i < |raw| => raw[i]);
        assert buf[..] == raw;
        Unmask(buf, key);
        raw := buf[..];
      }
      return Some(raw), false;
    }

    method ReadFrame() returns (frame: Option<(bv8, Bytes)>, panicked: bool)
      modifies this`input
      ensures match Decode(old(input), maxBuffer)
        case Parsed(opcode, payload, rest) => frame == Some((opcode, payload)) && input == rest && !panicked
        case Truncated => frame == None && input == [] && !panicked
        case Oversized => frame == None && panicked
    {
      panicked := false;
      var ok, header := ReadFull(2);
      if !ok { return None, false; }
      var opcode, masked := header[0] & 0x0f, header[1] & 0x80 != 0;
      var length;
      ok, length := ReadLength(header[1]);
      if !ok { return None, false; }
      SameBody(opcode, 0, KeySize(header[1]), length, input, maxBuffer);
      var payload;
      payload, panicked := ReadPayload(masked, length);
      if payload.None? { return None, panicked; }
      return Some((opcode, payload.value)), false;
    }

    method ReadMessage() returns (message: Option<Bytes>, panicked: bool)
      requires |input| < MAX_LENGTH
      modifies this
      ensures var served := Serve(old(input), maxBuffer);
        && message == served.message && panicked == served.panicked && output == old(output) + served.pongs
        && (!panicked ==> input == served.rest)
    {
      hide Serve;
      ghost var sent: Bytes := [];
      while true
        invariant |input| <= |old(input)| && output == old(output) + sent
        invariant Serve(old(input), maxBuffer) == After(sent, Serve(input, maxBuffer))
        decreases |input|
      {
        var done;
        ghost var answer;
        done, message, panicked, answer := ReadOne();
        if done { return; }
        AfterBoth(sent, answer, Serve(input, maxBuffer));
        sent := sent + answer;
      }
    }

    // One round of readMessage's loop.
    method ReadOne() returns (done: bool, message: Option<Bytes>, panicked: bool, ghost answer: Bytes)
      requires |input| < MAX_LENGTH
      modifies this
      ensures output == old(output) + answer
      ensures done ==> answer == [] && Serve(old(input), maxBuffer) == Served(message, [], if panicked then [] else input, panicked)
      ensures !done ==> |input| < |old(input)| && Serve(old(input), maxBuffer) == After(answer, Serve(input, maxBuffer))
    {
      done, message, answer := true, None, [];
      ServeStep(input, maxBuffer);
      var frame;
      frame, panicked := ReadFrame();
      if frame.None? { return; }
      ReadsLess(old(input), maxBuffer);
      var (opcode, payload) := frame.value;
      if opcode == TEXT {
        message := Some(payload);
      } else if opcode != CLOSE {
        done := false;
        answer := Answer(opcode, payload);
        if opcode == PING { WriteFrame(PONG, payload); }
      }
    }
  }

  // What readMessage sends on a frame that it passes over.
  ghost function Answer(opcode: bv8, payload: Bytes): Bytes {
    if opcode == PING then Encode(Frame(PONG, payload, None)) else []
  }

  lemma ServeStep(s: Bytes, limit: nat)
    ensures Serve(s, limit) == Handled(Decode(s, limit), limit)
  {
    hide Decode;
  }

  lemma ReadsLess(s: Bytes, limit: nat)
    requires Decode(s, limit).Parsed?
    ensures |Decode(s, limit).rest| < |s| && |Decode(s, limit).payload| <= |s|
  {
  }

  ghost function Handled(p: Parsed, limit: nat): Served {
    match p
    case Truncated => Served(None, [], [], false)
    case Oversized => Served(None, [], [], true)
    case Parsed(opcode, payload, rest) =>
      if opcode == TEXT then Served(Some(payload), [], rest, false)
      else if opcode == CLOSE then Served(None, [], rest, false)
      else After(Answer(opcode, payload), Serve(rest, limit))
  }

  ghost function After(sent: Bytes, later: Served): Served {
    later.(pongs := sent + later.pongs)
  }

  lemma AfterBoth(a: Bytes, b: Bytes, later: Served)
    ensures After(a, After(b, later)) == After(a + b, later)
  {
    assert a + (b + later.pongs) == a + b + later.pongs;
  }

  lemma SameBody(a: bv8, b: bv8, keySize: nat, length: nat, s: Bytes, limit: nat)
    requires keySize == 0 || keySize == 4
    ensures var p, q := DecodeBody(a, keySize, length, s, limit), DecodeBody(b, keySize, length, s, limit);
      if q.Parsed? then p == Parsed(a, q.payload, q.rest) else p == q
  {
  }

  method Header(opcode: bv8, length: nat) returns (header: Bytes)
    requires length < MAX_LENGTH
    ensures header == [0x80 | opcode] + LengthField(length, 0)
  {
    header := [0x80 | opcode];
    if length < 126 {
      header := header + [ToByte(length)];
      NoFlag(ToByte(length));
    } else if length <= 0xffff {
      header := header + [126, ToByte(length / 256), ToByte(length % 256)];
      TwoBytes(length);
    } else {
      header := header + [127];
      header := header + BigEndian(length, 8);
    }
  }

  lemma NoFlag(b: bv8)
    ensures 0 | b == b
  {
  }

  lemma TwoBytes(n: nat)
    requires n <= 0xffff
    ensures BigEndian(n, 2) == [ToByte(n / 256), ToByte(n % 256)]
  {
    assert BigEndian(n / 256, 1) == BigEndian(n / 256 / 256, 0) + [ToByte(n / 256 % 256)];
  }
}
