/** The ustar header writer of scripts/gate1-build-qualification.js and the fields a reader takes from it. */
module Ustar {
  import opened Bytes
  import opened Wrappers

  function Ascii(s: string): (b: seq<Byte>)
    requires forall i :: 0 <= i < |s| ==> s[i] as int < 128
    ensures |b| == |s|
  {
    seq(|s|, i requires 0 <= i < |s| => s[i] as int)
  }

  /** What fills the last block. */
  function PaddingOf(n: nat): nat { (512 - n % 512) % 512 }

  predicate AllZero(s: seq<Byte>) { forall i :: 0 <= i < |s| ==> s[i] == 0 }

  function Join(pieces: seq<seq<Byte>>): seq<Byte> {
    if pieces == [] then [] else pieces[0] + Join(pieces[1..])
  }

  function Zeros(n: nat): (z: seq<Byte>)
    ensures |z| == n && forall i :: 0 <= i < n ==> z[i] == 0
  {
    seq(n, _ => 0)
  }

  // ---- octal fields

  function Pow8(w: nat): nat {
    if w == 0 then 1 else 8 * Pow8(w - 1)
  }

  /** Number.prototype.toString(8). */
  function ToOctal(n: nat): seq<Byte> {
    if n < 8 then [48 + n] else ToOctal(n / 8) + [48 + n % 8]
  }

  predicate OctalDigit(b: Byte) { 48 <= b < 56 }

  predicate AllOctal(s: seq<Byte>) { forall i :: 0 <= i < |s| ==> OctalDigit(s[i]) }

  function ParseOctal(s: seq<Byte>): nat
    requires AllOctal(s)
  {
    if s == [] then 0 else 8 * ParseOctal(s[..|s| - 1]) + (s[|s| - 1] - 48)
  }

  /** toString(8).padStart(width, '0'). */
  function Field(n: nat, width: nat): seq<Byte> {
    var digits := ToOctal(n);
    seq(if |digits| < width then width - |digits| else 0, _ => 48) + digits
  }

  lemma {:induction false} OctalWidth(n: nat, w: nat)
    requires 0 < w && n < Pow8(w)
    ensures |ToOctal(n)| <= w
  {
    if n >= 8 {
      OctalWidth(n / 8, w - 1);
    }
  }

  lemma {:induction false} ParseToOctal(n: nat)
    ensures AllOctal(ToOctal(n)) && ParseOctal(ToOctal(n)) == n
  {
    if n >= 8 {
      ParseToOctal(n / 8);
      var s := ToOctal(n);
      assert s[..|s| - 1] == ToOctal(n / 8);
    }
  }

  lemma {:induction false} LeadingZeros(k: nat, s: seq<Byte>)
    requires AllOctal(s)
    ensures AllOctal(seq(k, _ => 48) + s) && ParseOctal(seq(k, _ => 48) + s) == ParseOctal(s)
    decreases |s|, k
  {
    var zeros: seq<Byte> := seq(k, _ => 48);
    var padded := zeros + s;
    if s == [] {
      assert padded == zeros;
      if k > 0 {
        assert zeros[..k - 1] == seq(k - 1, _ => 48) + [];
        LeadingZeros(k - 1, []);
      }
    } else {
      LeadingZeros(k, s[..|s| - 1]);
      assert padded[..|padded| - 1] == zeros + s[..|s| - 1];
    }
  }

  /** A field of the right width reads back as the number it was written from. */
  lemma FieldRoundTrip(n: nat, width: nat)
    requires 0 < width && n < Pow8(width)
    ensures var f := Field(n, width); |f| == width && AllOctal(f) && ParseOctal(f) == n
  {
    OctalWidth(n, width);
    ParseToOctal(n);
    LeadingZeros(width - |ToOctal(n)|, ToOctal(n));
  }

  lemma Powers()
    ensures Pow8(6) == 0x40000 && Pow8(7) == 0x200000 && Pow8(11) == 0x2_0000_0000
  {
    assert Pow8(3) == 512;
    assert Pow8(6) == 512 * Pow8(3);
    assert Pow8(9) == 512 * Pow8(6);
    assert Pow8(11) == 64 * Pow8(9);
  }

  // ---- header layout

  function Sum(s: seq<Byte>): nat {
    if s == [] then 0 else Sum(s[..|s| - 1]) + s[|s| - 1]
  }

  lemma {:induction false} SumConcat(a: seq<Byte>, b: seq<Byte>)
    ensures Sum(a + b) == Sum(a) + Sum(b)
  {
    if b == [] {
      assert a + b == a;
    } else {
      assert (a + b)[..|a + b| - 1] == a + b[..|b| - 1];
      SumConcat(a, b[..|b| - 1]);
    }
  }

  lemma {:induction false} SumBound(s: seq<Byte>)
    ensures Sum(s) <= 255 * |s|
  {
    if s != [] {
      SumBound(s[..|s| - 1]);
    }
  }

  predicate NameChar(b: Byte) {
    65 <= b <= 90 || 97 <= b <= 122 || 48 <= b <= 57 || b in {45, 46, 47, 95}
  }

  predicate NameChars(s: seq<Byte>) { forall i :: 0 <= i < |s| ==> NameChar(s[i]) }

  function Split(s: seq<Byte>): (parts: seq<seq<Byte>>)
    ensures |parts| > 0
  {
    if s == [] then [[]]
    else
      var rest := Split(s[1..]);
      if s[0] == 47 then [[]] + rest else [[s[0]] + rest[0]] + rest[1..]
  }

  const MAX_SIZE := 0x1_FFFF_FFFF

  /** The members tarHeader agrees to write. */
  predicate Writable(name: seq<Byte>, size: int, mode: nat, kind: Byte) {
    && 1 <= |name| <= 99 && NameChars(name) && [46, 46] !in Split(name)
    && 0 <= size <= MAX_SIZE && mode in {384, 420, 493} && kind in {48, 120}
  }

  /** name, mode, uid, gid, size and mtime: the 148 bytes before the checksum. */
  function Lead(name: seq<Byte>, size: nat, mode: nat): seq<Byte>
    requires |name| <= 100
  {
    (name + Zeros(100 - |name|)) + (Field(mode, 7) + [0]) + (Field(0, 7) + [0]) + (Field(0, 7) + [0])
    + (Field(size, 11) + [0]) + (Field(0, 11) + [0])
  }

  const MAGIC: seq<Byte> := [117, 115, 116, 97, 114, 0]

  /** typeflag, linkname, magic, version and the unused rest: the 356 bytes after the checksum. */
  function Tail(kind: Byte): seq<Byte> {
    [kind] + Zeros(100) + MAGIC + [48, 48] + Zeros(247)
  }

  function Spaces(): seq<Byte> { seq(8, _ => 32) }

  function Checksum(name: seq<Byte>, size: nat, mode: nat, kind: Byte): nat
    requires |name| <= 100
  {
    Sum(Lead(name, size, mode) + Spaces() + Tail(kind))
  }

  function Header(name: seq<Byte>, size: nat, mode: nat, kind: Byte): seq<Byte>
    requires |name| <= 100
  {
    Lead(name, size, mode) + (Field(Checksum(name, size, mode, kind), 6) + [0, 32]) + Tail(kind)
  }

  /** Everything fits its field: six octal digits for the checksum, eleven for the size. */
  lemma HeaderFits(name: seq<Byte>, size: nat, mode: nat, kind: Byte)
    requires Writable(name, size, mode, kind)
    ensures |Lead(name, size, mode)| == 148 && |Tail(kind)| == 356
    ensures Checksum(name, size, mode, kind) < Pow8(6) && size < Pow8(11) && mode < Pow8(7)
    ensures |Header(name, size, mode, kind)| == 512
  {
    Powers();
    FieldRoundTrip(mode, 7);
    FieldRoundTrip(0, 7);
    FieldRoundTrip(size, 11);
    FieldRoundTrip(0, 11);
    SumBound(Lead(name, size, mode) + Spaces() + Tail(kind));
    FieldRoundTrip(Checksum(name, size, mode, kind), 6);
  }

  // ---- what a reader finds in a header

  /** subarray.toString().split('\0')[0]. */
  function UntilNul(s: seq<Byte>): seq<Byte> {
    if s == [] || s[0] == 0 then [] else [s[0]] + UntilNul(s[1..])
  }

  /** Buffer.toString('ascii') drops the high bit of every byte. */
  function Low7(s: seq<Byte>): seq<Byte> { seq(|s|, i requires 0 <= i < |s| => s[i] % 128) }

  function WithoutNuls(s: seq<Byte>): seq<Byte> {
    if s == [] then [] else (if s[0] == 0 then [] else [s[0]]) + WithoutNuls(s[1..])
  }

  predicate Blank(b: Byte) { b == 32 || 9 <= b <= 13 }

  function TrimStart(s: seq<Byte>): seq<Byte> {
    if s != [] && Blank(s[0]) then TrimStart(s[1..]) else s
  }

  function TrimEnd(s: seq<Byte>): seq<Byte> {
    if s != [] && Blank(s[|s| - 1]) then TrimEnd(s[..|s| - 1]) else s
  }

  /** toString('ascii').replace(/\0/g, '').trim(). */
  function NumberText(s: seq<Byte>): seq<Byte> { TrimEnd(TrimStart(WithoutNuls(Low7(s)))) }

  /** The sum with the checksum field read as spaces. */
  function ReaderSum(h: seq<Byte>): nat
    requires |h| == 512
  {
    Sum(h[..148] + Spaces() + h[156..])
  }

  lemma {:induction false} UntilNulPadded(s: seq<Byte>, n: nat)
    requires forall i :: 0 <= i < |s| ==> s[i] != 0
    ensures UntilNul(s + Zeros(n)) == s
  {
    if s != [] {
      assert (s + Zeros(n))[1..] == s[1..] + Zeros(n);
      UntilNulPadded(s[1..], n);
    } else {
      assert s + Zeros(n) == Zeros(n);
    }
  }

  lemma {:induction false} WithoutNulsConcat(a: seq<Byte>, b: seq<Byte>)
    ensures WithoutNuls(a + b) == WithoutNuls(a) + WithoutNuls(b)
  {
    if a == [] {
      assert a + b == b;
    } else {
      assert (a + b)[1..] == a[1..] + b;
      WithoutNulsConcat(a[1..], b);
    }
  }

  lemma {:induction false} WithoutNulsOctal(s: seq<Byte>)
    requires AllOctal(s)
    ensures WithoutNuls(s) == s
  {
    if s != [] {
      WithoutNulsOctal(s[1..]);
    }
  }

  /** An octal field followed by a NUL, and possibly a blank, reads as its digits. */
  lemma EndsWithoutNuls()
    ensures WithoutNuls([0]) == [] && WithoutNuls([0, 32]) == [32]
  {
    assert [0, 32][1..] == [32];
    assert WithoutNuls([32]) == [32];
  }

  lemma TrimmedDigits(digits: seq<Byte>)
    requires AllOctal(digits) && digits != []
    ensures TrimEnd(TrimStart(digits + [32])) == TrimEnd(TrimStart(digits + [])) == digits
  {
    assert digits + [] == digits;
    assert (digits + [32])[..|digits|] == digits;
    assert TrimEnd(digits + [32]) == TrimEnd(digits);
  }

  lemma NumberTextOfField(digits: seq<Byte>, end: seq<Byte>)
    requires AllOctal(digits) && digits != [] && end in [[0], [0, 32]]
    ensures NumberText(digits + end) == digits
  {
    assert Low7(digits + end) == digits + end;
    WithoutNulsConcat(digits, end);
    WithoutNulsOctal(digits);
    EndsWithoutNuls();
    TrimmedDigits(digits);
  }

  /** Where each field of a written header sits. */
  lemma HeaderSlices(name: seq<Byte>, size: nat, mode: nat, kind: Byte)
    requires Writable(name, size, mode, kind)
    ensures var h := Header(name, size, mode, kind);
      && |h| == 512
      && h[..148] == Lead(name, size, mode) && h[156..] == Tail(kind)
      && h[148..156] == Field(Checksum(name, size, mode, kind), 6) + [0, 32]
      && h[..100] == name + Zeros(100 - |name|)
      && h[100..108] == Field(mode, 7) + [0]
      && h[124..136] == Field(size, 11) + [0]
  {
    HeaderFits(name, size, mode, kind);
    FieldRoundTrip(mode, 7);
    FieldRoundTrip(0, 7);
    FieldRoundTrip(size, 11);
    FieldRoundTrip(0, 11);
    FieldRoundTrip(Checksum(name, size, mode, kind), 6);
    var h, lead := Header(name, size, mode, kind), Lead(name, size, mode);
    assert h[..148] == lead;
    assert lead[..100] == name + Zeros(100 - |name|);
    assert lead[100..108] == Field(mode, 7) + [0];
    assert lead[124..136] == Field(size, 11) + [0];
    assert h[..100] == lead[..100] && h[100..108] == lead[100..108] && h[124..136] == lead[124..136];
  }

  lemma SliceOfDrop(h: seq<Byte>, k: nat, a: nat, b: nat)
    requires a <= b && k + b <= |h|
    ensures h[k..][a..b] == h[k + a..k + b]
  {
  }

  lemma TailSlices(h: seq<Byte>, kind: Byte)
    requires |h| == 512 && h[156..] == Tail(kind)
    ensures h[156] == kind && h[257..263] == MAGIC && h[345..500] == Zeros(155)
  {
    var t := h[156..];
    assert t[0] == kind && t[101..107] == MAGIC && t[189..344] == Zeros(155);
    SliceOfDrop(h, 156, 101, 107);
    SliceOfDrop(h, 156, 189, 344);
    assert h[156] == t[0];
  }

  /** What any reader of the ustar fields recovers from a header this writer produced. */
  lemma HeaderReads(name: seq<Byte>, size: nat, mode: nat, kind: Byte)
    requires Writable(name, size, mode, kind)
    ensures var h := Header(name, size, mode, kind);
      && |h| == 512
      && UntilNul(h[..100]) == name
      && NumberText(h[100..108]) == Field(mode, 7) && NumberText(h[124..136]) == Field(size, 11)
      && NumberText(h[148..156]) == Field(ReaderSum(h), 6)
      && h[156] == kind && h[257..263] == MAGIC && UntilNul(h[345..500]) == []
      && (exists i :: 0 <= i < 512 && h[i] != 0)
  {
    HeaderFits(name, size, mode, kind);
    HeaderSlices(name, size, mode, kind);
    var h := Header(name, size, mode, kind);
    TailSlices(h, kind);
    FieldRoundTrip(mode, 7);
    FieldRoundTrip(size, 11);
    FieldRoundTrip(Checksum(name, size, mode, kind), 6);
    NumberTextOfField(Field(mode, 7), [0]);
    NumberTextOfField(Field(size, 11), [0]);
    NumberTextOfField(Field(Checksum(name, size, mode, kind), 6), [0, 32]);
    UntilNulPadded(name, 100 - |name|);
    UntilNulPadded([], 155);
    assert [] + Zeros(155) == Zeros(155);
    assert h[0] == name[0] by {
      assert h[..100][0] == name[0];
    }
  }

  /** The sum a reader takes is the one written, and it fits the field it was written in. */
  lemma HeaderSum(name: seq<Byte>, size: nat, mode: nat, kind: Byte)
    requires Writable(name, size, mode, kind)
    ensures var h := Header(name, size, mode, kind);
      |h| == 512 && ReaderSum(h) == Checksum(name, size, mode, kind) < Pow8(6)
  {
    HeaderFits(name, size, mode, kind);
    HeaderSlices(name, size, mode, kind);
  }

  // ---- the writer, in place

  method Write(buffer: array<Byte>, bytes: seq<Byte>, at: nat)
    requires at + |bytes| <= buffer.Length
    modifies buffer
    ensures buffer[..] == old(buffer[..])[..at] + bytes + old(buffer[..])[at + |bytes|..]
  {
    forall i | 0 <= i < |bytes| {
      buffer[at + i] := bytes[i];
    }
  }

  /** A write that extends what is already in place over the zeros Buffer.alloc left. */
  method Extend(buffer: array<Byte>, ghost done: seq<Byte>, bytes: seq<Byte>, at: nat, ghost gap: nat)
    requires |done| + gap == at && at + |bytes| <= buffer.Length
    requires buffer[..] == done + Zeros(buffer.Length - |done|)
    modifies buffer
    ensures buffer[..] == (done + Zeros(gap)) + bytes + Zeros(buffer.Length - at - |bytes|)
  {
    Write(buffer, bytes, at);
    assert (done + Zeros(buffer.Length - |done|))[..at] == done + Zeros(gap);
    assert (done + Zeros(buffer.Length - |done|))[at + |bytes|..] == Zeros(buffer.Length - at - |bytes|);
  }

  method Total(buffer: array<Byte>) returns (sum: nat)
    ensures sum == Sum(buffer[..])
  {
    sum := 0;
    for i := 0 to buffer.Length
      invariant sum == Sum(buffer[..i])
    {
      sum := sum + buffer[i];
      assert buffer[..i + 1][..i] == buffer[..i];
    }
    assert buffer[..buffer.Length] == buffer[..];
  }

  lemma NoGap(done: seq<Byte>)
    ensures done + Zeros(0) == done
  {
  }

  lemma NoStart(name: seq<Byte>)
    ensures ([] + Zeros(0)) + name == name
  {
  }

  /** Name and mode. */
  method WriteName(header: array<Byte>, name: seq<Byte>, mode: nat)
    requires header.Length == 512 && header[..] == Zeros(512) && 1 <= |name| <= 99 && mode < Pow8(7)
    modifies header
    ensures |Field(mode, 7)| == 7
    ensures header[..] == (name + Zeros(100 - |name|)) + (Field(mode, 7) + [0]) + Zeros(404)
  {
    hide Field, Pow8, ParseOctal, AllOctal;
    FieldRoundTrip(mode, 7);
    Extend(header, [], name, 0, 0);
    NoStart(name);
    Extend(header, name, Field(mode, 7) + [0], 100, 100 - |name|);
  }

  /** The two ids, both zero. */
  method WriteOwners(header: array<Byte>, ghost done: seq<Byte>)
    requires header.Length == 512 && |done| == 108 && header[..] == done + Zeros(404)
    modifies header
    ensures |Field(0, 7)| == 7
    ensures header[..] == done + (Field(0, 7) + [0]) + (Field(0, 7) + [0]) + Zeros(388)
  {
    hide Field, ParseOctal, AllOctal;
    FieldRoundTrip(0, 7);
    Extend(header, done, Field(0, 7) + [0], 108, 0);
    NoGap(done);
    ghost var more := done + (Field(0, 7) + [0]);
    Extend(header, more, Field(0, 7) + [0], 116, 0);
    NoGap(more);
  }

  /** Size and time, behind what is there. */
  method WriteTimes(header: array<Byte>, ghost done: seq<Byte>, size: nat)
    requires header.Length == 512 && |done| == 124 && header[..] == done + Zeros(388) && size < Pow8(11)
    modifies header
    ensures |Field(size, 11)| == |Field(0, 11)| == 11
    ensures header[..] == done + (Field(size, 11) + [0]) + (Field(0, 11) + [0]) + Zeros(364)
  {
    hide Field, Pow8, ParseOctal, AllOctal;
    FieldRoundTrip(size, 11);
    FieldRoundTrip(0, 11);
    Extend(header, done, Field(size, 11) + [0], 124, 0);
    NoGap(done);
    ghost var more := done + (Field(size, 11) + [0]);
    Extend(header, more, Field(0, 11) + [0], 136, 0);
    NoGap(more);
  }

  method WriteLead(header: array<Byte>, name: seq<Byte>, size: nat, mode: nat)
    requires header.Length == 512 && header[..] == Zeros(512)
    requires 1 <= |name| <= 99 && size < Pow8(11) && mode < Pow8(7)
    modifies header
    ensures |Lead(name, size, mode)| == 148 && header[..] == Lead(name, size, mode) + Zeros(364)
  {
    hide Field, Pow8, ParseOctal, AllOctal, Zeros;
    WriteName(header, name, mode);
    ghost var done := (name + Zeros(100 - |name|)) + (Field(mode, 7) + [0]);
    WriteOwners(header, done);
    WriteTimes(header, done + (Field(0, 7) + [0]) + (Field(0, 7) + [0]), size);
  }

  method WriteTail(header: array<Byte>, ghost lead: seq<Byte>, kind: Byte)
    requires header.Length == 512 && |lead| == 148 && header[..] == lead + Zeros(364)
    modifies header
    ensures header[..] == lead + Spaces() + Tail(kind)
  {
    Extend(header, lead, Spaces(), 148, 0);
    assert lead + Zeros(0) == lead;
    ghost var done := lead + Spaces();
    Extend(header, done, [kind], 156, 0);
    assert done + Zeros(0) == done;
    Extend(header, done + [kind], MAGIC, 257, 100);
    ghost var upToMagic := (done + [kind]) + Zeros(100) + MAGIC;
    Extend(header, upToMagic, [48, 48], 263, 0);
    assert header[..] == upToMagic + [48, 48] + Zeros(247) by {
      assert upToMagic + Zeros(0) == upToMagic;
    }
    assert upToMagic + [48, 48] + Zeros(247) == done + Tail(kind);
  }

  /** tarHeader: None stands for the 'artifact' failure. */
  method TarHeader(name: seq<Byte>, size: int, mode: nat, kind: Byte) returns (r: Option<array<Byte>>)
    ensures r.Some? <==> Writable(name, size, mode, kind)
    ensures r.Some? ==> fresh(r.value) && r.value[..] == Header(name, size, mode, kind)
  {
    if !Writable(name, size, mode, kind) {
      return None;
    }
    HeaderFits(name, size, mode, kind);
    var header := new Byte[512](_ => 0);
    assert header[..] == Zeros(512);
    WriteLead(header, name, size, mode);
    WriteTail(header, Lead(name, size, mode), kind);
    var sum := Total(header);
    FieldRoundTrip(sum, 6);
    ghost var before := header[..];
    Write(header, Field(sum, 6) + [0, 32], 148);
    assert before[..148] == Lead(name, size, mode) && before[156..] == Tail(kind);
    return Some(header);
  }
}
