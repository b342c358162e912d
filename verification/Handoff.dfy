// The shared mapping that hands the original launcher's directory, user and environment to its elevated instance, and
// the text that comes back through it (src/launcher/Elevation.cpp).

module Handoff {
  import opened Basics
  import opened Environment

  const U32 := 0x1_0000_0000
  const HANDOFF_MAGIC := 0x48584432
  const HANDOFF_VERSION := 1
  const HEADER_BYTES := 52
  const TEXT_START := 56         // the header's size, rounded up to 8
  const FORWARD_CHARS := 65_536

  // The fields that do not change after Launch, in the order of their 32-bit words; offsets are in bytes, lengths in
  // UTF-16 units.
  datatype HandoffHeader = HandoffHeader(
    magic: nat, version: nat, totalBytes: nat,
    cwdOff: nat, cwdChars: nat, sidOff: nat, sidChars: nat,
    envOff: nat, envChars: nat, outOff: nat, outCap: nat)

  const CONSOLE_STATE := 11      // the two words after them
  const OUT_CHARS := 12
  const CONSOLE_PENDING := 0
  const CONSOLE_ATTACHED := 1

  // What the elevated instance takes from the mapping.
  datatype Opened = Opened(cwd: seq<Unit>, sid: seq<Unit>, env: seq<Unit>)

  // ---- Text in memory ---------------------------------------------------------------------------

  function Bytes(s: seq<Unit>): (b: seq<byte>)
    ensures |b| == 2 * |s|
  {
    if s == [] then [] else Bytes(s[..|s| - 1]) + [s[|s| - 1] % 256, s[|s| - 1] / 256]
  }

  function Units(b: seq<byte>): (s: seq<Unit>)
    ensures |s| == |b| / 2
  {
    if |b| < 2 then [] else
      var u: Unit := b[|b| - 2] as int + 256 * b[|b| - 1] as int;
      Units(b[..|b| - 2]) + [u]
  }

  lemma {:induction false} TextRoundTrip(s: seq<Unit>)
    ensures Units(Bytes(s)) == s
  {
    hide Bytes, Units;
    if s == [] {
      NoText();
    } else {
      var rest, u := s[..|s| - 1], s[|s| - 1];
      TextRoundTrip(rest);
      BytesStep(s);
      OneMoreUnit(Bytes(rest), u % 256, u / 256);
      assert s == rest + [u];
    }
  }

  lemma NoText()
    ensures Bytes([]) == [] && Units([]) == []
  {
  }

  lemma OneMoreUnit(b: seq<byte>, lo: byte, hi: byte)
    ensures var u: Unit := lo as int + 256 * hi as int; Units(b + [lo, hi]) == Units(b) + [u]
  {
    assert (b + [lo, hi])[..|b + [lo, hi]| - 2] == b;
  }

  lemma BytesStep(s: seq<Unit>)
    requires s != []
    ensures Bytes(s) == Bytes(s[..|s| - 1]) + [s[|s| - 1] % 256, s[|s| - 1] / 256]
  {
  }

  lemma {:induction false} BytesConcat(s: seq<Unit>, t: seq<Unit>)
    ensures Bytes(s + t) == Bytes(s) + Bytes(t)
  {
    if t == [] {
      assert s + t == s;
    } else {
      var n := |t| - 1;
      BytesConcat(s, t[..n]);
      assert (s + t)[..|s| + n] == s + t[..n];
    }
  }

  function ReadText(mem: seq<byte>, off: nat, chars: nat): seq<Unit>
    requires off + 2 * chars <= |mem|
  {
    Units(mem[off..off + 2 * chars])
  }

  predicate Holds(mem: seq<byte>, off: nat, s: seq<Unit>) {
    off + 2 * |s| <= |mem| && mem[off..off + 2 * |s|] == Bytes(s)
  }

  lemma HeldTextIsRead(mem: seq<byte>, off: nat, s: seq<Unit>)
    requires Holds(mem, off, s)
    ensures ReadText(mem, off, |s|) == s
  {
    TextRoundTrip(s);
  }

  // mem2 is mem with the text s at off.
  predicate Wrote(mem: seq<byte>, mem2: seq<byte>, off: nat, s: seq<Unit>) {
    && |mem2| == |mem| && Holds(mem2, off, s)
    && mem2[..off] == mem[..off] && mem2[off + 2 * |s|..] == mem[off + 2 * |s|..]
  }

  // Text outside what is written stays.
  lemma WroteElsewhere(mem: seq<byte>, mem2: seq<byte>, off: nat, s: seq<Unit>, off2: nat, s2: seq<Unit>)
    requires Wrote(mem, mem2, off, s) && Holds(mem, off2, s2)
    requires off2 + 2 * |s2| <= off || off + 2 * |s| <= off2
    ensures Holds(mem2, off2, s2)
  {
    hide Bytes;
    var end2 := off2 + 2 * |s2|;
    if end2 <= off {
      SliceOfPrefix(mem, mem2, off, off2, end2);
    } else {
      SliceOfSuffix(mem, mem2, off + 2 * |s|, off2, end2);
    }
  }

  lemma SliceOfPrefix(a: seq<byte>, b: seq<byte>, cut: nat, i: nat, j: nat)
    requires i <= j <= cut <= |a| == |b| && a[..cut] == b[..cut]
    ensures a[i..j] == b[i..j]
  {
    forall k | i <= k < j ensures a[k] == b[k] {
      assert a[..cut][k] == b[..cut][k];
    }
  }

  lemma SliceOfSuffix(a: seq<byte>, b: seq<byte>, cut: nat, i: nat, j: nat)
    requires cut <= i <= j <= |a| == |b| && a[cut..] == b[cut..]
    ensures a[i..j] == b[i..j]
  {
    forall k | i <= k < j ensures a[k] == b[k] {
      assert a[cut..][k - cut] == b[cut..][k - cut];
    }
  }

  method Put(a: array<byte>, off: nat, s: seq<Unit>)
    requires off + 2 * |s| <= a.Length
    modifies a
    ensures Wrote(old(a[..]), a[..], off, s)
  {
    var i := 0;
    while i < |s|
      invariant i <= |s| && Wrote(old(a[..]), a[..], off, s[..i])
    {
      assert s[..i + 1][..i] == s[..i];
      ghost var mem := a[..];
      a[off + 2 * i] := s[i] % 256;
      a[off + 2 * i + 1] := s[i] / 256;
      assert a[..][off..off + 2 * i] == mem[off..off + 2 * i];
      i := i + 1;
    }
    assert s[..i] == s;
  }

  // ---- 32-bit words in memory -------------------------------------------------------------------

  // The i-th word, least significant byte first.
  function Word(mem: seq<byte>, i: nat): (w: nat)
    requires 4 * i + 4 <= |mem|
    ensures w < U32
  {
    mem[4 * i] as nat + 0x100 * mem[4 * i + 1] as nat + 0x1_0000 * mem[4 * i + 2] as nat
      + 0x100_0000 * mem[4 * i + 3] as nat
  }

  function Signed(w: nat): int {
    if w < U32 / 2 then w else w - U32
  }

  // A word as two UTF-16 units, so that words and text are written alike.
  function Halves(w: nat): seq<Unit>
    requires w < U32
  {
    [w % 0x1_0000, w / 0x1_0000]
  }

  lemma {:induction false} BytesAt(s: seq<Unit>, k: nat)
    requires k < |s|
    ensures Bytes(s)[2 * k] as int == s[k] % 256 && Bytes(s)[2 * k + 1] as int == s[k] / 256
  {
    if k < |s| - 1 {
      BytesAt(s[..|s| - 1], k);
    }
  }

  lemma WordHeld(mem: seq<byte>, s: seq<Unit>, i: nat, w: nat)
    requires Holds(mem, 0, s) && 2 * i + 2 <= |s| && w < U32 && s[2 * i..2 * i + 2] == Halves(w)
    ensures 4 * i + 4 <= |mem| && Word(mem, i) == w
  {
    BytesAt(s, 2 * i);
    BytesAt(s, 2 * i + 1);
    hide Bytes;
    assert s[2 * i] == s[2 * i..2 * i + 2][0] && s[2 * i + 1] == s[2 * i..2 * i + 2][1];
    assert forall j | 0 <= j < 2 * |s| :: mem[j] == mem[0..2 * |s|][j];
  }

  lemma WordWritten(mem: seq<byte>, i: nat, w: nat)
    requires w < U32 && Holds(mem, 4 * i, Halves(w))
    ensures Word(mem, i) == w
  {
    BytesAt(Halves(w), 0);
    BytesAt(Halves(w), 1);
    hide Bytes;
    var b := mem[4 * i..4 * i + 4];
    assert mem[4 * i] == b[0] && mem[4 * i + 1] == b[1] && mem[4 * i + 2] == b[2] && mem[4 * i + 3] == b[3];
  }

  function ReadHeader(mem: seq<byte>): HandoffHeader
    requires HEADER_BYTES <= |mem|
  {
    HandoffHeader(Word(mem, 0), Word(mem, 1), Word(mem, 2), Word(mem, 3), Word(mem, 4), Word(mem, 5), Word(mem, 6),
                  Word(mem, 7), Word(mem, 8), Word(mem, 9), Word(mem, 10))
  }

  predicate InWords(h: HandoffHeader) {
    && h.magic < U32 && h.version < U32 && h.totalBytes < U32 && h.cwdOff < U32 && h.cwdChars < U32
    && h.sidOff < U32 && h.sidChars < U32 && h.envOff < U32 && h.envChars < U32 && h.outOff < U32 && h.outCap < U32
  }

  function HeaderText(h: HandoffHeader): (s: seq<Unit>)
    requires InWords(h)
    ensures 2 * |s| == HEADER_BYTES
  {
    Halves(h.magic) + Halves(h.version) + Halves(h.totalBytes) + Halves(h.cwdOff) + Halves(h.cwdChars)
    + Halves(h.sidOff) + Halves(h.sidChars) + Halves(h.envOff) + Halves(h.envChars) + Halves(h.outOff)
    + Halves(h.outCap) + Halves(CONSOLE_PENDING) + Halves(0)
  }

  // The header's bytes give back its fields; the console is pending and no text was forwarded.
  lemma HeaderRoundTrip(mem: seq<byte>, h: HandoffHeader)
    requires InWords(h) && Holds(mem, 0, HeaderText(h))
    ensures HEADER_BYTES <= |mem| && ReadHeader(mem) == h
    ensures Word(mem, CONSOLE_STATE) == CONSOLE_PENDING && Word(mem, OUT_CHARS) == 0
  {
    hide Holds;
    var s := HeaderText(h);
    WordHeld(mem, s, 0, h.magic);
    WordHeld(mem, s, 1, h.version);
    WordHeld(mem, s, 2, h.totalBytes);
    WordHeld(mem, s, 3, h.cwdOff);
    WordHeld(mem, s, 4, h.cwdChars);
    WordHeld(mem, s, 5, h.sidOff);
    WordHeld(mem, s, 6, h.sidChars);
    WordHeld(mem, s, 7, h.envOff);
    WordHeld(mem, s, 8, h.envChars);
    WordHeld(mem, s, 9, h.outOff);
    WordHeld(mem, s, 10, h.outCap);
    WordHeld(mem, s, CONSOLE_STATE, CONSOLE_PENDING);
    WordHeld(mem, s, OUT_CHARS, 0);
  }

  // A number in four bytes at the given offset, the least significant first.
  predicate Stored(mem: seq<byte>, at: nat, n: nat) {
    && at + 4 <= |mem|
    && n == mem[at] as int + 0x100 * mem[at + 1] as int + 0x1_0000 * mem[at + 2] as int
         + 0x100_0000 * mem[at + 3] as int
  }

  // Where each field of the header lies.
  lemma HeaderLayout(mem: seq<byte>)
    requires HEADER_BYTES <= |mem|
    ensures var h := ReadHeader(mem);
            && Stored(mem, 0, h.magic) && Stored(mem, 4, h.version) && Stored(mem, 8, h.totalBytes)
            && Stored(mem, 12, h.cwdOff) && Stored(mem, 16, h.cwdChars) && Stored(mem, 20, h.sidOff)
            && Stored(mem, 24, h.sidChars) && Stored(mem, 28, h.envOff) && Stored(mem, 32, h.envChars)
            && Stored(mem, 36, h.outOff) && Stored(mem, 40, h.outCap)
    ensures Stored(mem, 44, Word(mem, CONSOLE_STATE)) && Stored(mem, 48, Word(mem, OUT_CHARS))
  {
  }

  // What is written behind the fixed fields leaves them alone.
  lemma SameHeader(mem: seq<byte>, mem2: seq<byte>)
    requires HEADER_BYTES <= |mem| == |mem2| && mem[..4 * OUT_CHARS] == mem2[..4 * OUT_CHARS]
    ensures ReadHeader(mem2) == ReadHeader(mem)
  {
    assert forall j | 0 <= j < 4 * OUT_CHARS ::
        mem[j] == mem[..4 * OUT_CHARS][j] && mem2[j] == mem2[..4 * OUT_CHARS][j];
  }

  // ---- The original instance --------------------------------------------------------------------

  // A block as the system hands it out: every entry, and the block itself, is terminated.
  predicate Terminated(block: seq<Unit>)
    decreases |block|
  {
    block != [] && (block[0] == NUL || (Length(block) < |block| && Terminated(block[Length(block) + 1..])))
  }

  lemma SplitStep(block: seq<Unit>)
    requires block != [] && block[0] != NUL && Length(block) < |block|
    ensures var n := Length(block);
            Join(Split(block)) == block[..n + 1] + Join(Split(block[n + 1..]))
  {
    hide Split, Length, Join;
    SplitCons(block);
    FirstNul(block);
    JoinCons(block[..Length(block)], block[..Length(block) + 1], Split(block[Length(block) + 1..]));
  }

  lemma SplitCons(block: seq<Unit>)
    requires block != [] && block[0] != NUL && Length(block) < |block|
    ensures var n := Length(block);
            Split(block) == [block[..n]] + Split(block[n + 1..])
  {
    hide Length;
  }

  lemma FirstNul(block: seq<Unit>)
    requires Length(block) < |block|
    ensures block[..Length(block) + 1] == block[..Length(block)] + [NUL]
  {
    hide Length;
    LengthIsFirstNul(block);
    OneMore(block, Length(block));
  }

  lemma OneMore(block: seq<Unit>, n: nat)
    requires n < |block|
    ensures block[..n + 1] == block[..n] + [block[n]]
  {
  }

  lemma JoinCons(e: seq<Unit>, terminated: seq<Unit>, rest: seq<seq<Unit>>)
    requires terminated == e + [NUL]
    ensures Join([e] + rest) == terminated + Join(rest)
  {
    assert ([e] + rest)[1..] == rest;
  }

  lemma Assoc(a: seq<Unit>, b: seq<Unit>, c: seq<Unit>)
    ensures a + (b + c) == (a + b) + c
  {
  }

  // The walk to the end of the block: p is what is left of it, done what was passed.
  method CaptureEnvironment(block: seq<Unit>) returns (env: seq<Unit>)
    requires Terminated(block)
    ensures env == Block(Split(block))
  {
    hide Split, Length, Join;
    var done: seq<Unit> := [];
    var p := block;
    assert done + Join(Split(block)) == Join(Split(block));
    while p[0] != NUL
      invariant p != [] && Terminated(p) && Join(Split(block)) == done + Join(Split(p))
      decreases |p|
    {
      var n := Length(p);
      SplitStep(p);
      Assoc(done, p[..n + 1], Join(Split(p[n + 1..])));
      done, p := done + p[..n + 1], p[n + 1..];
    }
    NothingSplit(p);
    JoinEmpty(Split(block));
    env := done + [NUL];
    if |env| == 1 {
      env := env + [NUL];
    }
  }

  lemma NothingSplit(block: seq<Unit>)
    requires block != [] && block[0] == NUL
    ensures Join(Split(block)) == []
  {
  }

  // Space for so many units, and where the next text goes.
  method Reserve(off: nat, chars: nat) returns (at: nat, next: nat)
    requires off + 2 * chars < U32
    ensures at == off && next == off + 2 * chars
  {
    at, next := off, off + 2 * chars;
  }

  function TotalBytes(cwd: seq<Unit>, sid: seq<Unit>, env: seq<Unit>): nat {
    TEXT_START + 2 * (|cwd| + 1) + 2 * (|sid| + 1) + 2 * |env| + 2 * FORWARD_CHARS
  }

  predicate FitsIn(off: nat, chars: nat, total: nat) {
    off + 2 * chars <= total
  }

  // The mapping tells its reader where everything is, and the areas do not overlap.
  ghost predicate Describes(mem: seq<byte>, cwd: seq<Unit>, sid: seq<Unit>, env: seq<Unit>) {
    HEADER_BYTES <= |mem| &&
    var h := ReadHeader(mem);
    && h.magic == 0x48584432 && h.version == 1 && h.totalBytes <= |mem| && h.outCap == 65_536
    && h.cwdChars == |cwd| && h.sidChars == |sid| && h.envChars == |env|
    && HEADER_BYTES <= h.cwdOff && h.cwdOff + 2 * (|cwd| + 1) <= h.sidOff && h.sidOff + 2 * (|sid| + 1) <= h.envOff
    && h.envOff + 2 * |env| <= h.outOff && h.outOff + 2 * h.outCap <= h.totalBytes
    && Holds(mem, h.cwdOff, cwd + [NUL]) && Holds(mem, h.sidOff, sid + [NUL]) && Holds(mem, h.envOff, env)
  }

  // The shared mapping, as one instance sees it.
  class Mapping {
    const bytes: array<byte>
    var ownConsole: bool              // the elevated instance could not move to the original's console
    ghost var forwarded: seq<Unit>    // everything passed to Forward while it has a console of its own

    // The text area holds what was forwarded, up to its capacity.
    ghost predicate Forwarding()
      reads this, bytes
    {
      HEADER_BYTES <= bytes.Length &&
      var h, n := ReadHeader(bytes[..]), Signed(Word(bytes[..], OUT_CHARS));
      && HEADER_BYTES <= h.outOff && h.outOff + 2 * h.outCap <= h.totalBytes <= bytes.Length
      && n == (if |forwarded| <= h.outCap then |forwarded| else h.outCap)
      && Holds(bytes[..], h.outOff, forwarded[..n])
    }

    constructor (size: nat)
      ensures fresh(bytes) && bytes.Length == size && !ownConsole && forwarded == []
    {
      bytes := new byte[size];
      ownConsole, forwarded := false, [];
    }

    // Text for the original instance, which prints it when this one has ended. What does not fit is lost; on the
    // original's console nothing is forwarded.
    method Forward(text: seq<Unit>)
      requires Forwarding()
      modifies this`forwarded, bytes
      ensures Forwarding() && forwarded == if ownConsole then old(forwarded) + text else old(forwarded)
      ensures ReadHeader(bytes[..]) == old(ReadHeader(bytes[..]))
      ensures Around(old(bytes[..]), bytes[..], ReadHeader(bytes[..]))
      ensures !ownConsole ==> bytes[..] == old(bytes[..])
    {
      hide Holds, Wrote, ReadHeader, Word, Around;
      ghost var mem, h := bytes[..], ReadHeader(bytes[..]);
      Untouched(mem, h);
      if !ownConsole { return; }
      var outOff, outCap, used := Word(bytes[..], 9), Word(bytes[..], 10), Signed(Word(bytes[..], OUT_CHARS));
      assert h.outOff == outOff && h.outCap == outCap by { OutFields(mem); }
      ghost var before := forwarded;
      forwarded := forwarded + text;
      assert before[..used] == forwarded[..used];
      if text == [] || used < 0 || used >= outCap { return; }
      var n := if |text| <= outCap - used then |text| else outCap - used;
      assert before[..used] == before && forwarded[..used + n] == before + text[..n];
      Put(bytes, outOff + 2 * used, text[..n]);
      ghost var mid := bytes[..];
      Put(bytes, 4 * OUT_CHARS, Halves(used + n));
      Forwarded(mem, mid, bytes[..], before, text[..n]);
    }

    // What the original instance prints when the elevated one has ended: the forwarded text, as far as it fits.
    method Collect() returns (text: seq<Unit>)
      requires Forwarding()
      ensures var cap := ReadHeader(bytes[..]).outCap;
              text == if Word(bytes[..], CONSOLE_STATE) == CONSOLE_ATTACHED then []
                      else if |forwarded| <= cap then forwarded else forwarded[..cap]
    {
      hide ReadHeader, Word;
      OutFields(bytes[..]);
      text := [];
      if Word(bytes[..], CONSOLE_STATE) != CONSOLE_ATTACHED {
        var used, outCap := Signed(Word(bytes[..], OUT_CHARS)), Word(bytes[..], 10);
        var n := if used <= outCap then used else outCap;
        if n > 0 {
          HeldTextIsRead(bytes[..], Word(bytes[..], 9), forwarded[..n]);
          text := ReadText(bytes[..], Word(bytes[..], 9), n);
        }
      }
      assert forwarded[..|forwarded|] == forwarded;
    }
  }

  // Only the count and the text area differ.
  ghost predicate Around(mem: seq<byte>, mem2: seq<byte>, h: HandoffHeader) {
    && |mem2| == |mem| && 4 * OUT_CHARS <= HEADER_BYTES <= h.outOff && h.outOff + 2 * h.outCap <= |mem|
    && mem2[..4 * OUT_CHARS] == mem[..4 * OUT_CHARS] && mem2[HEADER_BYTES..h.outOff] == mem[HEADER_BYTES..h.outOff]
    && mem2[h.outOff + 2 * h.outCap..] == mem[h.outOff + 2 * h.outCap..]
  }

  lemma Untouched(mem: seq<byte>, h: HandoffHeader)
    requires HEADER_BYTES <= h.outOff && h.outOff + 2 * h.outCap <= |mem|
    ensures Around(mem, mem, h)
  {
  }

  lemma OutFields(mem: seq<byte>)
    requires HEADER_BYTES <= |mem|
    ensures ReadHeader(mem).outOff == Word(mem, 9) && ReadHeader(mem).outCap == Word(mem, 10)
    ensures ReadHeader(mem).totalBytes < U32
  {
  }

  // Text t was put behind the text s of the area, and then the count.
  lemma Forwarded(mem: seq<byte>, mid: seq<byte>, mem2: seq<byte>, s: seq<Unit>, t: seq<Unit>)
    requires HEADER_BYTES <= |mem|
    requires var h := ReadHeader(mem);
             && HEADER_BYTES <= h.outOff && |s| + |t| <= h.outCap && h.outOff + 2 * h.outCap <= h.totalBytes <= |mem|
             && Holds(mem, h.outOff, s) && Wrote(mem, mid, h.outOff + 2 * |s|, t)
    requires |s| + |t| < U32 && Wrote(mid, mem2, 4 * OUT_CHARS, Halves(|s| + |t|))
    ensures |mem2| == |mem| && ReadHeader(mem2) == ReadHeader(mem)
    ensures Signed(Word(mem2, OUT_CHARS)) == |s| + |t|
    ensures Holds(mem2, ReadHeader(mem).outOff, s + t) && Around(mem, mem2, ReadHeader(mem))
  {
    var h, count := ReadHeader(mem), |s| + |t|;
    OutFields(mem);
    hide ReadHeader, Word, Around, Holds, Wrote, Halves;
    WroteMore(mem, mid, h.outOff, s, t);
    WroteElsewhere(mid, mem2, 4 * OUT_CHARS, Halves(count), h.outOff, s + t);
    WordWritten(mem2, OUT_CHARS, count);
    WroteAround(mem, mid, mem2, h, |s|, t, count);
    AroundHead(mem, mem2, h);
    SameHeader(mem, mem2);
  }

  lemma AroundHead(mem: seq<byte>, mem2: seq<byte>, h: HandoffHeader)
    requires Around(mem, mem2, h)
    ensures |mem2| == |mem| && mem2[..4 * OUT_CHARS] == mem[..4 * OUT_CHARS]
  {
  }

  lemma WroteAround(mem: seq<byte>, mid: seq<byte>, mem2: seq<byte>, h: HandoffHeader, used: nat, t: seq<Unit>, w: nat)
    requires HEADER_BYTES <= h.outOff && used + |t| <= h.outCap && h.outOff + 2 * h.outCap <= |mem|
    requires Wrote(mem, mid, h.outOff + 2 * used, t) && w < U32 && Wrote(mid, mem2, 4 * OUT_CHARS, Halves(w))
    ensures Around(mem, mem2, h)
  {
    hide Holds;
    var at, end := h.outOff + 2 * used, h.outOff + 2 * h.outCap;
    SliceOfPrefix(mem, mid, at, 0, 4 * OUT_CHARS);
    SliceOfPrefix(mem, mid, at, HEADER_BYTES, h.outOff);
    SliceOfSuffix(mem, mid, at + 2 * |t|, end, |mem|);
    SliceOfSuffix(mid, mem2, HEADER_BYTES, HEADER_BYTES, h.outOff);
    SliceOfSuffix(mid, mem2, HEADER_BYTES, end, |mem|);
    hide Wrote;
    assert mem[end..|mem|] == mem[end..] && mem2[end..|mem|] == mem2[end..];
    assert mem[0..4 * OUT_CHARS] == mem[..4 * OUT_CHARS] && mid[0..4 * OUT_CHARS] == mid[..4 * OUT_CHARS];
  }

  lemma WroteMore(mem: seq<byte>, mem2: seq<byte>, off: nat, s: seq<Unit>, t: seq<Unit>)
    requires Holds(mem, off, s) && Wrote(mem, mem2, off + 2 * |s|, t)
    ensures Holds(mem2, off, s + t) && off <= |mem| == |mem2| && mem2[..off] == mem[..off]
  {
    WroteElsewhere(mem, mem2, off + 2 * |s|, t, off, s);
    HeldConcat(mem2, off, s, t);
    hide Bytes;
    assert mem2[..off] == mem2[..off + 2 * |s|][..off] && mem[..off] == mem[..off + 2 * |s|][..off];
  }

  lemma HeldConcat(mem: seq<byte>, off: nat, s: seq<Unit>, t: seq<Unit>)
    requires Holds(mem, off, s) && Holds(mem, off + 2 * |s|, t)
    ensures Holds(mem, off, s + t)
  {
    BytesConcat(s, t);
    hide Bytes;
    var mid, end := off + 2 * |s|, off + 2 * |s| + 2 * |t|;
    assert mem[off..end] == mem[off..mid] + mem[mid..end];
  }

  // Lays out the mapping and fills it in. The layout is computed in 32 bits.
  method Launch(cwd: seq<Unit>, sid: seq<Unit>, env: seq<Unit>) returns (m: Mapping)
    requires TotalBytes(cwd, sid, env) < U32
    ensures fresh(m) && fresh(m.bytes)
    ensures m.bytes.Length == TotalBytes(cwd, sid, env) && Describes(m.bytes[..], cwd, sid, env)
    ensures ReadHeader(m.bytes[..]).totalBytes == m.bytes.Length
    ensures Word(m.bytes[..], CONSOLE_STATE) == CONSOLE_PENDING
    ensures m.Forwarding() && m.forwarded == [] && !m.ownConsole
  {
    hide HeaderText, Holds, Wrote, ReadHeader, Word;
    var off := TEXT_START;
    var cwdOff, sidOff, envOff, outOff;
    cwdOff, off := Reserve(off, |cwd| + 1);
    sidOff, off := Reserve(off, |sid| + 1);
    envOff, off := Reserve(off, |env|);
    outOff, off := Reserve(off, FORWARD_CHARS);
    m := new Mapping(off);
    var h := HandoffHeader(HANDOFF_MAGIC, HANDOFF_VERSION, off, cwdOff, |cwd|, sidOff, |sid|, envOff, |env|, outOff,
                           FORWARD_CHARS);
    Put(m.bytes, 0, HeaderText(h));
    ghost var mem0 := m.bytes[..];
    Put(m.bytes, cwdOff, cwd + [NUL]);
    ghost var mem1 := m.bytes[..];
    Put(m.bytes, sidOff, sid + [NUL]);
    ghost var mem2 := m.bytes[..];
    Put(m.bytes, envOff, env);
    Filled(mem0, mem1, mem2, m.bytes[..], h, cwd, sid, env);
  }

  // The areas are written one behind the other, so all of them hold their text in the end.
  lemma Filled(mem0: seq<byte>, mem1: seq<byte>, mem2: seq<byte>, mem3: seq<byte>, h: HandoffHeader,
               cwd: seq<Unit>, sid: seq<Unit>, env: seq<Unit>)
    requires InWords(h) && Holds(mem0, 0, HeaderText(h)) && Wrote(mem0, mem1, h.cwdOff, cwd + [NUL])
    requires Wrote(mem1, mem2, h.sidOff, sid + [NUL]) && Wrote(mem2, mem3, h.envOff, env)
    requires HEADER_BYTES <= h.cwdOff && h.cwdOff + 2 * (|cwd| + 1) <= h.sidOff
    requires h.sidOff + 2 * (|sid| + 1) <= h.envOff
    requires h.outOff <= |mem0|
    ensures |mem3| == |mem0| && HEADER_BYTES <= |mem3| && ReadHeader(mem3) == h
    ensures Word(mem3, CONSOLE_STATE) == CONSOLE_PENDING && Word(mem3, OUT_CHARS) == 0
    ensures Holds(mem3, h.cwdOff, cwd + [NUL]) && Holds(mem3, h.sidOff, sid + [NUL]) && Holds(mem3, h.envOff, env)
    ensures Holds(mem3, h.outOff, [])
  {
    var c, d, head := cwd + [NUL], sid + [NUL], HeaderText(h);
    WroteElsewhere(mem0, mem1, h.cwdOff, c, 0, head);
    WroteElsewhere(mem1, mem2, h.sidOff, d, 0, head);
    WroteElsewhere(mem2, mem3, h.envOff, env, 0, head);
    WroteElsewhere(mem1, mem2, h.sidOff, d, h.cwdOff, c);
    WroteElsewhere(mem2, mem3, h.envOff, env, h.cwdOff, c);
    WroteElsewhere(mem2, mem3, h.envOff, env, h.sidOff, d);
    HeaderRoundTrip(mem3, h);
    hide HeaderText, ReadHeader, Word;
  }

  // ---- The elevated instance --------------------------------------------------------------------

  // The checks on a header of which nothing is known but the size of its mapping.
  predicate Acceptable(h: HandoffHeader, size: nat) {
    && h.magic == HANDOFF_MAGIC && h.version == HANDOFF_VERSION && h.totalBytes <= size
    && FitsIn(h.cwdOff, h.cwdChars, h.totalBytes) && FitsIn(h.sidOff, h.sidChars, h.totalBytes)
    && FitsIn(h.envOff, h.envChars, h.totalBytes) && FitsIn(h.outOff, h.outCap, h.totalBytes)
  }

  // Whatever the bytes say, nothing outside the mapping is read.
  method OpenHandoff(mem: seq<byte>) returns (o: Option<Opened>)
    ensures o.Some? <==> HEADER_BYTES <= |mem| && Acceptable(ReadHeader(mem), |mem|)
    ensures o.Some? ==>
              var h := ReadHeader(mem);
              && o.value.cwd == ReadText(mem, h.cwdOff, h.cwdChars)
              && o.value.sid == ReadText(mem, h.sidOff, h.sidChars)
              && o.value.env == ReadText(mem, h.envOff, h.envChars) + [NUL, NUL]
  {
    hide ReadHeader;
    if |mem| < HEADER_BYTES { return None; }
    var h := ReadHeader(mem);
    if h.magic != HANDOFF_MAGIC || h.version != HANDOFF_VERSION || h.totalBytes > |mem| { return None; }
    if !FitsIn(h.cwdOff, h.cwdChars, h.totalBytes) || !FitsIn(h.sidOff, h.sidChars, h.totalBytes) ||
       !FitsIn(h.envOff, h.envChars, h.totalBytes) || !FitsIn(h.outOff, h.outCap, h.totalBytes) {
      return None;
    }
    o := Some(Opened(ReadText(mem, h.cwdOff, h.cwdChars), ReadText(mem, h.sidOff, h.sidChars),
                     ReadText(mem, h.envOff, h.envChars) + [NUL, NUL]));
  }

  lemma HeldPrefix(mem: seq<byte>, off: nat, s: seq<Unit>, t: seq<Unit>)
    requires Holds(mem, off, s + t)
    ensures Holds(mem, off, s)
  {
    BytesConcat(s, t);
    assert mem[off..off + 2 * |s|] == mem[off..off + 2 * |s + t|][..2 * |s|];
  }

  // A mapping that Launch filled in is accepted and gives back what went in.
  lemma DescribedIsOpened(mem: seq<byte>, cwd: seq<Unit>, sid: seq<Unit>, env: seq<Unit>)
    requires Describes(mem, cwd, sid, env)
    ensures var h := ReadHeader(mem);
            && Acceptable(h, |mem|)
            && ReadText(mem, h.cwdOff, h.cwdChars) == cwd && ReadText(mem, h.sidOff, h.sidChars) == sid
            && ReadText(mem, h.envOff, h.envChars) == env
  {
    var h := ReadHeader(mem);
    hide ReadHeader;
    HeldPrefix(mem, h.cwdOff, cwd, [NUL]);
    HeldPrefix(mem, h.sidOff, sid, [NUL]);
    HeldTextIsRead(mem, h.cwdOff, cwd);
    HeldTextIsRead(mem, h.sidOff, sid);
    HeldTextIsRead(mem, h.envOff, env);
  }

  // The whole way: the original's environment block, through the mapping, to the target's environment. Its entries are
  // the original ones without ours, then the given variables, sorted stably by name.
  method Relaunch(cwd: seq<Unit>, sid: seq<Unit>, block: seq<Unit>, vars: seq<Variable>, up: Upcase)
    returns (target: seq<seq<Unit>>)
    requires Terminated(block) && TotalBytes(cwd, sid, Block(Split(block))) < U32
    requires forall v | v in vars :: NulFree(v)
    ensures target == Wanted(Split(block), vars, up)
    ensures IsStableSort(target, Kept(Split(block), up) + Assignments(vars), up)
  {
    var env := CaptureEnvironment(block);
    var m := Launch(cwd, sid, env);
    DescribedIsOpened(m.bytes[..], cwd, sid, env);
    var o := OpenHandoff(m.bytes[..]);
    SplitGivesEntries(block);
    SplitOfCaptured(Split(block));
    EnvironmentRoundTrip(Split(block), vars, up);
    hide Wanted, Split, Kept, IsStableSort;
    var built := BuildEnvironment(o.value.env, [], vars, up);
    target := SplitEnvBlock(built);
  }

  lemma SplitOfCaptured(entries: seq<seq<Unit>>)
    requires forall e | e in entries :: IsEntry(e)
    ensures Split(Block(entries) + [NUL, NUL]) == entries && Block(entries) + [NUL, NUL] != []
  {
    var rest := [NUL] + (if entries == [] then [NUL] else []) + [NUL, NUL];
    JoinThenSplit(entries, rest);
    assert Block(entries) + [NUL, NUL] == Join(entries) + rest;
  }
}
