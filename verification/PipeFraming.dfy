// Frames on the pipe: the DLL writes a header and a payload per event (src/dll/PipeClient.cpp), the launcher reads
// them back from a byte stream that arrives in arbitrary pieces (src/launcher/PipeServer.cpp).

module PipeFraming {
  import opened Basics

  const MAGIC := 0x44583132
  const HEADER_BYTES := 24
  const U32 := 0x1_0000_0000
  const U64 := 0x1_0000_0000_0000_0000

  datatype Frame = Frame(ts: nat, kind: byte, payload: seq<byte>)

  // What the fields of the header can hold.
  predicate Fits(f: Frame) {
    f.ts < U64 && |f.payload| < U32
  }

  // ---- Little-endian integers -------------------------------------------------------------------

  function ToBytes(n: nat, width: nat): (b: seq<byte>)
    ensures |b| == width
  {
    if width == 0 then [] else [n % 256] + ToBytes(n / 256, width - 1)
  }

  function FromBytes(b: seq<byte>): nat {
    if b == [] then 0 else b[0] + 256 * FromBytes(b[1..])
  }

  function Pow256(width: nat): (p: nat)
    ensures p >= 1
  {
    if width == 0 then 1 else 256 * Pow256(width - 1)
  }

  lemma {:induction false} IntegersRoundTrip(n: nat, width: nat)
    requires n < Pow256(width)
    ensures FromBytes(ToBytes(n, width)) == n
  {
    if width > 0 {
      IntegersRoundTrip(n / 256, width - 1);
      assert ToBytes(n, width)[1..] == ToBytes(n / 256, width - 1);
    }
  }

  // ---- Encoding ---------------------------------------------------------------------------------

  function Header(f: Frame): (h: seq<byte>)
    ensures |h| == HEADER_BYTES
  {
    ToBytes(MAGIC, 4) + ToBytes(|f.payload|, 4) + ToBytes(f.ts, 8) + [f.kind] + [0, 0, 0, 0, 0, 0, 0]
  }

  function EncodeFrame(f: Frame): seq<byte> {
    Header(f) + f.payload
  }

  function Encode(fs: seq<Frame>): seq<byte> {
    if fs == [] then [] else Encode(fs[..|fs| - 1]) + EncodeFrame(fs[|fs| - 1])
  }

  // ---- Decoding ---------------------------------------------------------------------------------

  predicate GoodMagic(h: seq<byte>)
    requires |h| == HEADER_BYTES
  {
    FromBytes(h[..4]) == MAGIC
  }

  function PayloadBytes(h: seq<byte>): nat
    requires |h| == HEADER_BYTES
  {
    FromBytes(h[4..8])
  }

  // The frame at the front of the data, if all of it is there.
  predicate StartsWithFrame(data: seq<byte>) {
    |data| >= HEADER_BYTES && GoodMagic(data[..HEADER_BYTES]) &&
    |data| >= HEADER_BYTES + PayloadBytes(data[..HEADER_BYTES])
  }

  function FrameOf(h: seq<byte>, payload: seq<byte>): Frame
    requires |h| == HEADER_BYTES
  {
    Frame(FromBytes(h[8..16]), h[16], payload)
  }

  function Decode(data: seq<byte>): seq<Frame>
    decreases |data|
  {
    if !StartsWithFrame(data) then [] else
      var h := data[..HEADER_BYTES];
      var end := HEADER_BYTES + PayloadBytes(h);
      [FrameOf(h, data[HEADER_BYTES..end])] + Decode(data[end..])
  }

  lemma Powers()
    ensures Pow256(4) == U32 && Pow256(8) == U64
  {
    assert Pow256(1) == 256 && Pow256(2) == 0x1_0000 && Pow256(3) == 0x100_0000;
    assert Pow256(5) == 0x100_0000_0000 && Pow256(6) == 0x1_0000_0000_0000 && Pow256(7) == 0x100_0000_0000_0000;
  }

  // The number in the four bytes at the given place, the least significant first.
  function Quad(b: seq<byte>, at: nat): int
    requires at + 4 <= |b|
  {
    b[at] as int + 0x100 * b[at + 1] as int + 0x1_0000 * b[at + 2] as int + 0x100_0000 * b[at + 3] as int
  }

  lemma FourBytes(b: seq<byte>)
    requires |b| == 4
    ensures FromBytes(b) == Quad(b, 0)
  {
    assert b[1..][1..] == b[2..] && b[2..][1..] == b[3..] && b[3..][1..] == [];
    assert FromBytes(b[3..]) == b[3] as int;
    assert FromBytes(b[2..]) == b[2] as int + 0x100 * b[3] as int;
    assert FromBytes(b[1..]) == b[1] as int + 0x100 * b[2] as int + 0x1_0000 * b[3] as int;
  }

  lemma EightBytes(b: seq<byte>)
    requires |b| == 8
    ensures FromBytes(b) == Quad(b, 0) + 0x1_0000_0000 * Quad(b, 4)
  {
    FourBytes(b[4..]);
    assert b[4..] == b[4..8] && Quad(b[4..], 0) == Quad(b, 4);
    assert b[1..][1..] == b[2..] && b[2..][1..] == b[3..] && b[3..][1..] == b[4..];
    assert FromBytes(b[3..]) == b[3] as int + 0x100 * FromBytes(b[4..]);
    assert FromBytes(b[2..]) == b[2] as int + 0x100 * FromBytes(b[3..]);
    assert FromBytes(b[1..]) == b[1] as int + 0x100 * FromBytes(b[2..]);
  }

  // Where each field of the header lies, byte by byte.
  lemma HeaderBytes(f: Frame)
    requires Fits(f)
    ensures var h := Header(f);
            && h[..4] == [0x32, 0x31, 0x58, 0x44] && Quad(h, 4) == |f.payload|
            && Quad(h, 8) + 0x1_0000_0000 * Quad(h, 12) == f.ts && h[16] == f.kind
            && h[17..] == [0, 0, 0, 0, 0, 0, 0]
  {
    HeaderFields(f);
    MagicBytes();
    var h := Header(f);
    hide ToBytes, FromBytes;
    assert h[..4] == ToBytes(MAGIC, 4);
    FourBytes(h[4..8]);
    EightBytes(h[8..16]);
    assert Quad(h[4..8], 0) == Quad(h, 4) && Quad(h[8..16], 0) == Quad(h, 8) && Quad(h[8..16], 4) == Quad(h, 12);
  }

  lemma MagicBytes()
    ensures ToBytes(MAGIC, 4) == [0x32, 0x31, 0x58, 0x44]
  {
    assert ToBytes(0x44, 1) == [0x44];
    assert ToBytes(0x4458, 2) == [0x58, 0x44];
    assert ToBytes(0x445831, 3) == [0x31, 0x58, 0x44];
  }

  lemma HeaderFields(f: Frame)
    requires Fits(f)
    ensures var h := Header(f);
            GoodMagic(h) && PayloadBytes(h) == |f.payload| && FromBytes(h[8..16]) == f.ts && h[16] == f.kind
  {
    Powers();
    var h := Header(f);
    IntegersRoundTrip(MAGIC, 4);
    IntegersRoundTrip(|f.payload|, 4);
    IntegersRoundTrip(f.ts, 8);
    hide ToBytes, FromBytes;
    assert h[..4] == ToBytes(MAGIC, 4);
    assert h[4..8] == ToBytes(|f.payload|, 4);
    assert h[8..16] == ToBytes(f.ts, 8);
  }

  // One frame is read back, whatever follows it.
  lemma FrameRoundTrip(f: Frame, rest: seq<byte>)
    requires Fits(f)
    ensures Decode(EncodeFrame(f) + rest) == [f] + Decode(rest)
  {
    HeaderFields(f);
    var data, h := EncodeFrame(f) + rest, Header(f);
    assert data[..HEADER_BYTES] == h;
    var end := HEADER_BYTES + |f.payload|;
    assert data[HEADER_BYTES..end] == f.payload && data[end..] == rest;
    hide Header, GoodMagic, PayloadBytes;
  }

  // A frame cut short is not delivered.
  lemma CutFrame(f: Frame, n: nat)
    requires Fits(f) && n < |EncodeFrame(f)|
    ensures Decode(EncodeFrame(f)[..n]) == []
  {
    HeaderFields(f);
    var data := EncodeFrame(f)[..n];
    if n >= HEADER_BYTES {
      assert data[..HEADER_BYTES] == Header(f);
    }
    hide Header, GoodMagic, PayloadBytes;
  }

  lemma {:induction false} FramesThen(fs: seq<Frame>, rest: seq<byte>)
    requires forall f | f in fs :: Fits(f)
    ensures Decode(Encode(fs) + rest) == fs + Decode(rest)
  {
    hide Decode, EncodeFrame, Fits;
    if fs == [] {
      assert Encode(fs) + rest == rest;
      assert fs + Decode(rest) == Decode(rest);
    } else {
      var n := |fs| - 1;
      var x, y := Encode(fs[..n]), EncodeFrame(fs[n]);
      assert Encode(fs) == x + y;
      FrameRoundTrip(fs[n], rest);
      FramesThen(fs[..n], y + rest);
      hide Encode;
      assert (x + y) + rest == x + (y + rest);
      assert fs + Decode(rest) == fs[..n] + ([fs[n]] + Decode(rest));
    }
  }

  // What was sent is what is delivered.
  lemma FramesRoundTrip(fs: seq<Frame>)
    requires forall f | f in fs :: Fits(f)
    ensures Decode(Encode(fs)) == fs
  {
    FramesThen(fs, []);
    assert Encode(fs) + [] == Encode(fs);
    assert Decode([]) == [];
  }

  // How many whole frames lie in the first n bytes.
  function WholeFrames(fs: seq<Frame>, n: nat): (k: nat)
    ensures k <= |fs| && |Encode(fs[..k])| <= n
    ensures k < |fs| ==> |Encode(fs[..k + 1])| > n
  {
    if |Encode(fs)| <= n then assert fs[..|fs|] == fs; |fs| else
      var m := |fs| - 1;
      var k := WholeFrames(fs[..m], n);
      assert fs[..m][..k] == fs[..k];
      assert k < m ==> fs[..m][..k + 1] == fs[..k + 1];
      assert k == m ==> fs[..k + 1] == fs;
      k
  }

  lemma {:induction false} EncodePrefix(fs: seq<Frame>, k: nat)
    requires k <= |fs|
    ensures Encode(fs[..k]) <= Encode(fs)
    decreases |fs|
  {
    if k < |fs| {
      EncodePrefix(fs[..|fs| - 1], k);
      assert fs[..|fs| - 1][..k] == fs[..k];
    } else {
      assert fs[..k] == fs;
    }
  }

  // Cut anywhere, the stream delivers exactly the frames that lie before the cut.
  lemma CutStream(fs: seq<Frame>, n: nat)
    requires (forall f | f in fs :: Fits(f)) && n <= |Encode(fs)|
    ensures Decode(Encode(fs)[..n]) == fs[..WholeFrames(fs, n)]
  {
    hide Decode, EncodeFrame, Fits;
    var k := WholeFrames(fs, n);
    EncodePrefix(fs, k);
    if k == |fs| {
      assert fs[..k] == fs;
      FramesRoundTrip(fs);
      assert Encode(fs)[..n] == Encode(fs);
    } else {
      var done, next := Encode(fs[..k]), EncodeFrame(fs[k]);
      EncodePrefix(fs, k + 1);
      EncodeOneMore(fs, k);
      hide Encode, WholeFrames;
      var cut := n - |done|;
      CutAfter(Encode(fs), done, next, n);
      CutFrame(fs[k], cut);
      FramesThen(fs[..k], next[..cut]);
      assert fs[..k] + [] == fs[..k];
    }
  }

  lemma EncodeOneMore(fs: seq<Frame>, k: nat)
    requires k < |fs|
    ensures Encode(fs[..k + 1]) == Encode(fs[..k]) + EncodeFrame(fs[k])
  {
    assert fs[..k + 1][..k] == fs[..k] && fs[..k + 1][k] == fs[k];
    hide EncodeFrame;
  }

  lemma CutAfter(whole: seq<byte>, done: seq<byte>, next: seq<byte>, n: nat)
    requires done + next <= whole && |done| <= n <= |done + next|
    ensures whole[..n] == done + next[..n - |done|]
  {
    assert whole[..|done + next|][..n] == whole[..n];
  }

  // ---- The writing end --------------------------------------------------------------------------

  // What WriteFile reports, and how many of its bytes went into the pipe.
  datatype WriteResult = WriteResult(ok: bool, written: nat)

  class PipeClient {
    var connected: bool
    var stream: seq<byte>         // the bytes in the pipe so far
    ghost var sent: seq<Frame>    // the frames written successfully
    ghost var last: Frame         // the frame being written when the connection broke
    ghost var tail: seq<byte>     // what of it is in the pipe

    ghost predicate Valid()
      reads this
    {
      && (forall f | f in sent :: Fits(f)) && Fits(last)
      && stream == Encode(sent) + tail && tail <= EncodeFrame(last)
      && (connected ==> tail == [])
    }

    constructor ()
      ensures Valid() && connected && stream == [] && sent == []
    {
      connected, stream, sent, last, tail := true, [], [], Frame(0, 0, []), [];
    }

    // One WriteFile of bytes that belong to the frame `last`.
    method Write(bytes: seq<byte>, r: WriteResult)
      requires connected && r.written <= |bytes| && stream == Encode(sent) + tail
      modifies `connected, `stream, `tail
      ensures tail == old(tail) + bytes[..r.written] && stream == Encode(sent) + tail
      ensures connected == (r.ok && r.written == |bytes|)
    {
      hide Encode;
      stream := stream + bytes[..r.written];
      tail := tail + bytes[..r.written];
      if !r.ok || r.written != |bytes| {
        connected := false;
      }
    }

    // Header, then payload; the first write that fails or is short ends the connection.
    method Send(f: Frame, header: WriteResult, payload: WriteResult)
      requires Valid() && Fits(f) && header.written <= HEADER_BYTES && payload.written <= |f.payload|
      modifies this
      ensures Valid()
      ensures !old(connected) ==> !connected && stream == old(stream) && sent == old(sent)
      ensures old(connected) ==>
                connected == (header.ok && header.written == HEADER_BYTES &&
                              (f.payload == [] || (payload.ok && payload.written == |f.payload|)))
      ensures old(connected) && connected ==> sent == old(sent) + [f]
      ensures old(connected) && !connected ==> sent == old(sent) && last == f
    {
      hide Encode, Header, Fits;
      if !connected { return; }
      last := f;
      Write(Header(f), header);
      if connected && f.payload != [] {
        Write(f.payload, payload);
      }
      if connected {
        assert tail == EncodeFrame(f);
        EncodeAppend(sent, f);
        sent, tail := sent + [f], [];
      }
    }
  }

  lemma EncodeAppend(fs: seq<Frame>, f: Frame)
    ensures Encode(fs + [f]) == Encode(fs) + EncodeFrame(f)
  {
    assert (fs + [f])[..|fs|] == fs;
  }

  // The frames that a reader can get out of the client's stream are the ones sent, and at most the one whose write was
  // reported as failed.
  lemma ClientStream(c: PipeClient)
    requires c.Valid()
    ensures Decode(c.stream) == c.sent || (!c.connected && Decode(c.stream) == c.sent + [c.last])
    ensures c.connected ==> Decode(c.stream) == c.sent
  {
    FramesThen(c.sent, c.tail);
    var n := |c.tail|;
    assert c.tail == EncodeFrame(c.last)[..n];
    if n < |EncodeFrame(c.last)| {
      CutFrame(c.last, n);
      assert c.sent + [] == c.sent;
    } else {
      FrameRoundTrip(c.last, []);
      assert EncodeFrame(c.last) + [] == c.tail && Decode([]) == [];
    }
  }

  // ---- The reading end --------------------------------------------------------------------------

  // chunks(p) is how many bytes the pipe is willing to hand out at position p; 0 stands for a failing read.
  class PipeServer {
    const data: seq<byte>
    const chunks: nat -> nat
    var pos: nat
    var delivered: seq<Frame>

    ghost predicate Unbroken() {
      forall p :: chunks(p) > 0
    }

    constructor (data: seq<byte>, chunks: nat -> nat)
      ensures this.data == data && this.chunks == chunks && pos == 0 && delivered == []
    {
      this.data, this.chunks, pos, delivered := data, chunks, 0, [];
    }

    method ReadFile(max: nat) returns (got: nat)
      requires pos <= |data|
      modifies `pos
      ensures got <= max && pos == old(pos) + got <= |data|
      ensures Unbroken() && max > 0 && old(pos) < |data| ==> got > 0
    {
      got := chunks(pos);
      if got > max { got := max; }
      if got > |data| - pos { got := |data| - pos; }
      pos := pos + got;
    }

    method ReadExact(n: nat) returns (ok: bool, buffer: seq<byte>)
      requires pos <= |data|
      modifies `pos
      ensures old(pos) <= pos <= |data|
      ensures ok ==> pos == old(pos) + n && buffer == data[old(pos)..pos]
      ensures Unbroken() && old(pos) + n <= |data| ==> ok
    {
      buffer := [];
      var remaining := n;
      while remaining > 0
        invariant pos <= |data| && old(pos) <= pos && pos + remaining == old(pos) + n
        invariant buffer == data[old(pos)..pos]
      {
        var from := pos;
        var got := ReadFile(remaining);
        if got == 0 { return false, []; }
        buffer := buffer + data[from..pos];
        remaining := remaining - got;
      }
      ok := true;
    }

    // One header and its payload; nothing at the end of the stream or after a bad header.
    method ReadFrame() returns (ok: bool, f: Frame)
      requires pos <= |data|
      modifies `pos
      ensures old(pos) <= pos <= |data|
      ensures ok ==> old(pos) < pos && Decode(data[old(pos)..]) == [f] + Decode(data[pos..])
      ensures !ok && Unbroken() ==> Decode(data[old(pos)..]) == []
    {
      f := Frame(0, 0, []);
      ghost var rest := data[pos..];
      var header, payload;
      ok, header := ReadExact(HEADER_BYTES);
      if !ok { return; }
      assert header == rest[..HEADER_BYTES];
      if !GoodMagic(header) { return false, f; }
      ok, payload := ReadExact(PayloadBytes(header));
      if !ok { return; }
      f := FrameOf(header, payload);
      assert payload == rest[HEADER_BYTES..HEADER_BYTES + |payload|];
      assert data[pos..] == rest[HEADER_BYTES + |payload|..];
    }

    // stops(i) says whether Stop was called before the i-th round.
    method ReaderLoop(stops: nat -> bool)
      requires pos == 0 && delivered == []
      modifies this
      ensures delivered <= Decode(data)
      ensures Unbroken() && (forall i :: !stops(i)) ==> delivered == Decode(data)
    {
      hide Decode;
      var round := 0;
      assert data[0..] == data && delivered + Decode(data) == Decode(data);
      while !stops(round)
        invariant pos <= |data| && Decode(data) == delivered + Decode(data[pos..])
        decreases |data| - pos
      {
        round := round + 1;
        ghost var before := delivered;
        ghost var rest := Decode(data[pos..]);
        var ok, f := ReadFrame();
        if !ok {
          assert Unbroken() ==> delivered + rest == delivered;
          return;
        }
        delivered := delivered + [f];
        assert before + ([f] + Decode(data[pos..])) == delivered + Decode(data[pos..]);
      }
    }
  }
}
