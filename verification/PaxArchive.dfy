/** sourceArchive of scripts/gate1-build-qualification.js, and a reader that follows the pax Header Block
    and pax Extended Header rules of the POSIX pax utility. */
module PaxArchive {
  import opened Bytes
  import opened Ustar
  import opened Wrappers

  // ---- decimal lengths

  function Decimal(n: nat): (d: seq<Byte>)
    ensures |d| > 0
  {
    if n < 10 then [48 + n] else Decimal(n / 10) + [48 + n % 10]
  }

  predicate AllDigits(s: seq<Byte>) { forall i :: 0 <= i < |s| ==> 48 <= s[i] < 58 }

  function ParseDecimal(s: seq<Byte>): nat
    requires AllDigits(s)
  {
    if s == [] then 0 else 10 * ParseDecimal(s[..|s| - 1]) + (s[|s| - 1] - 48)
  }

  lemma {:induction false} ParseOfDecimal(n: nat)
    ensures AllDigits(Decimal(n)) && ParseDecimal(Decimal(n)) == n
  {
    if n >= 10 {
      ParseOfDecimal(n / 10);
      var d := Decimal(n);
      assert d[..|d| - 1] == Decimal(n / 10);
    }
  }

  lemma {:induction false} MoreDigits(a: nat, b: nat)
    requires a <= b
    ensures |Decimal(a)| <= |Decimal(b)|
  {
    if a >= 10 {
      MoreDigits(a / 10, b / 10);
    }
  }

  lemma {:induction false} FewDigits(n: nat)
    ensures |Decimal(n)| <= n / 2 + 1
  {
    if n >= 10 {
      FewDigits(n / 10);
    }
  }

  /** Under this bound the next estimate stays under it too, so the estimates cannot grow for ever. */
  function Ceiling(fieldBytes: nat): nat { 2 * fieldBytes + 20 }

  lemma EstimateGrows(fieldBytes: nat, length: nat)
    requires length <= fieldBytes + |Decimal(length)| && length <= Ceiling(fieldBytes)
    ensures var next := fieldBytes + |Decimal(length)|;
      next <= fieldBytes + |Decimal(next)| && next <= Ceiling(fieldBytes)
  {
    MoreDigits(length, fieldBytes + |Decimal(length)|);
    MoreDigits(length, Ceiling(fieldBytes));
    FewDigits(Ceiling(fieldBytes));
  }

  /** The length a pax record states counts the digits of that very length. */
  ghost predicate SelfLength(fieldBytes: nat, length: nat) {
    length == fieldBytes + |Decimal(length)|
  }

  function LengthFrom(fieldBytes: nat, length: nat): (settled: nat)
    requires length <= fieldBytes + |Decimal(length)| && length <= Ceiling(fieldBytes)
    requires forall n: nat :: SelfLength(fieldBytes, n) ==> length <= n
    ensures SelfLength(fieldBytes, settled) && settled <= Ceiling(fieldBytes)
    ensures forall n: nat :: SelfLength(fieldBytes, n) ==> settled <= n
    decreases Ceiling(fieldBytes) - length
  {
    var next := fieldBytes + |Decimal(length)|;
    if length == next then length
    else
      EstimateGrows(fieldBytes, length);
      EstimateBelow(fieldBytes, length);
      LengthFrom(fieldBytes, next)
  }

  lemma EstimateBelow(fieldBytes: nat, length: nat)
    requires forall n: nat :: SelfLength(fieldBytes, n) ==> length <= n
    ensures forall n: nat :: SelfLength(fieldBytes, n) ==> fieldBytes + |Decimal(length)| <= n
  {
    forall n: nat | SelfLength(fieldBytes, n)
      ensures fieldBytes + |Decimal(length)| <= n
    {
      MoreDigits(length, n);
    }
  }

  /** The least length that states itself. */
  function PaxLength(fieldBytes: nat): (length: nat)
    ensures SelfLength(fieldBytes, length)
    ensures forall n: nat :: SelfLength(fieldBytes, n) ==> length <= n
  {
    LengthFrom(fieldBytes, fieldBytes + 1)
  }

  /** The loop that settles the self-referential length; it terminates on the least one. */
  method RecordLength(fieldBytes: nat) returns (length: nat)
    ensures SelfLength(fieldBytes, length) && length == PaxLength(fieldBytes)
  {
    length := fieldBytes + 1;
    while length != fieldBytes + |Decimal(length)|
      invariant length <= fieldBytes + |Decimal(length)| && length <= Ceiling(fieldBytes)
      invariant forall n: nat :: SelfLength(fieldBytes, n) ==> length <= n
      decreases Ceiling(fieldBytes) - length
    {
      EstimateGrows(fieldBytes, length);
      EstimateBelow(fieldBytes, length);
      length := fieldBytes + |Decimal(length)|;
    }
  }

  // ---- records

  const SPACE: Byte := 32
  const EQUALS: Byte := 61
  const NEWLINE: Byte := 10
  const PATH: seq<Byte> := [112, 97, 116, 104]

  /** " path=<name>\n". */
  function PathField(name: seq<Byte>): seq<Byte> {
    [SPACE] + PATH + [EQUALS] + name + [NEWLINE]
  }

  function Record(length: nat, name: seq<Byte>): seq<Byte> {
    Decimal(length) + PathField(name)
  }

  function IndexOf(s: seq<Byte>, c: Byte): (i: nat)
    ensures i <= |s|
  {
    if s == [] || s[0] == c then 0 else 1 + IndexOf(s[1..], c)
  }

  lemma {:induction false} IndexOfFirst(a: seq<Byte>, c: Byte, b: seq<Byte>)
    requires c !in a
    ensures IndexOf(a + [c] + b, c) == |a|
  {
    if a != [] {
      assert (a + [c] + b)[1..] == a[1..] + [c] + b;
      IndexOfFirst(a[1..], c, b);
    }
  }

  /** "%d %s=%s\n" records, each as long as it says; the last value of a keyword wins. */
  function Records(b: seq<Byte>): Option<map<seq<Byte>, seq<Byte>>> {
    if b == [] then Some(map[])
    else
      var space := IndexOf(b, SPACE);
      if space == 0 || !AllDigits(b[..space]) then None
      else
        var length := ParseDecimal(b[..space]);
        if length <= space + 1 || length > |b| || b[length - 1] != NEWLINE then None
        else
          var body := b[space + 1..length - 1];
          var equals := IndexOf(body, EQUALS);
          if equals == |body| then None
          else match Records(b[length..])
            case None => None
            case Some(later) => Some(map[body[..equals] := body[equals + 1..]] + later)
  }

  lemma RecordParts(name: seq<Byte>, length: nat)
    requires SelfLength(|PathField(name)|, length)
    ensures var b, space := Record(length, name), |Decimal(length)|;
      && |b| == length && IndexOf(b, SPACE) == space
      && AllDigits(b[..space]) && ParseDecimal(b[..space]) == length
      && length > space + 1 && b[length - 1] == NEWLINE && b[length..] == []
      && b[space + 1..length - 1] == PATH + [EQUALS] + name
  {
    var digits := Decimal(length);
    ParseOfDecimal(length);
    var body := PATH + [EQUALS] + name;
    assert PathField(name) == [SPACE] + body + [NEWLINE];
    assert Record(length, name) == digits + [SPACE] + (body + [NEWLINE]);
    IndexOfFirst(digits, SPACE, body + [NEWLINE]);
    CutRecord(digits, body);
  }

  lemma CutRecord(digits: seq<Byte>, body: seq<Byte>)
    ensures var b := digits + [SPACE] + (body + [NEWLINE]);
      && b[..|digits|] == digits && b[|b| - 1] == NEWLINE && b[|digits| + 1..|b| - 1] == body && b[|b|..] == []
  {
  }

  /** The record written for a name is read back as that name, whatever bytes the name holds. */
  lemma RecordRoundTrip(name: seq<Byte>, length: nat)
    requires SelfLength(|PathField(name)|, length)
    ensures |Record(length, name)| == length && Records(Record(length, name)) == Some(map[PATH := name])
  {
    RecordParts(name, length);
    var body := PATH + [EQUALS] + name;
    IndexOfFirst(PATH, EQUALS, name);
    assert body[..|PATH|] == PATH && body[|PATH| + 1..] == name;
    assert map[PATH := name] + map[] == map[PATH := name];
  }

  // ---- the reader

  /** One archive member: its header fields, its data and the bytes after its padding. */
  datatype Entry = Entry(kind: Byte, name: seq<Byte>, mode: nat, data: seq<Byte>, rest: seq<Byte>)

  function ReadEntry(file: seq<Byte>): (e: Option<Entry>)
    ensures e.Some? ==> |e.value.rest| < |file|
  {
    if |file| < 512 then None
    else
      var h := file[..512];
      var modeText, sizeText, sumText := NumberText(h[100..108]), NumberText(h[124..136]), NumberText(h[148..156]);
      if modeText == [] || !AllOctal(modeText) || sizeText == [] || !AllOctal(sizeText)
         || sumText == [] || !AllOctal(sumText) || ReaderSum(h) != ParseOctal(sumText)
         || h[257..263] != MAGIC || h[345] != 0 then None
      else
        var size := ParseOctal(sizeText);
        if 512 + size + PaddingOf(size) > |file| then None
        else Some(Entry(h[156], UntilNul(h[..100]), ParseOctal(modeText), file[512..512 + size],
                        file[512 + size + PaddingOf(size)..]))
  }

  datatype Restored = Restored(name: seq<Byte>, mode: nat, bytes: seq<Byte>)

  predicate Ended(file: seq<Byte>) { |file| >= 1024 && AllZero(file[..1024]) }

  ghost predicate Shrinks(read: seq<Byte> -> Option<Entry>) {
    forall f {:trigger read(f)} :: read(f).Some? ==> |read(f).value.rest| < |f|
  }

  /** An empty value withdraws the keyword. */
  function Override(records: map<seq<Byte>, seq<Byte>>, path: Option<seq<Byte>>): Option<seq<Byte>> {
    if PATH !in records then path else if records[PATH] == [] then None else Some(records[PATH])
  }

  /** The regular files of a pax archive, a path record overriding the name in the next header.
      Two zero blocks end the archive; None is an archive this reader cannot interpret. */
  function Decode(read: seq<Byte> -> Option<Entry>, file: seq<Byte>, path: Option<seq<Byte>>): Option<seq<Restored>>
    requires Shrinks(read)
    decreases |file|
  {
    if Ended(file) then Some([])
    else match read(file)
      case None => None
      case Some(e) =>
        if e.kind == 120 then
          match Records(e.data)
          case None => None
          case Some(m) => Decode(read, e.rest, Override(m, path))
        else if e.kind == 48 then
          Prepend([Restored(if path.Some? then path.value else e.name, e.mode, e.data)], Decode(read, e.rest, None))
        else None
  }

  // ---- what the writer produces

  function Padded(data: seq<Byte>): seq<Byte> { data + Zeros(PaddingOf(|data|)) }

  const PAX_NAME: seq<Byte> := [80, 97, 120, 72, 101, 97, 100, 101, 114, 115, 47, 115, 111, 117, 114, 99, 101]
  const SOURCE_NAME: seq<Byte> := [115, 111, 117, 114, 99, 101]

  function Mode(executable: bool): nat { if executable then 493 else 420 }

  /** A manifest entry: the name's UTF-8 bytes, the blob's id, and whether its mode is 100755. */
  datatype Blob = Blob(name: seq<Byte>, oid: int, executable: bool)

  function PaxRecord(name: seq<Byte>): seq<Byte> {
    Record(PaxLength(|PathField(name)|), name)
  }

  function Extended(record: seq<Byte>): seq<Byte> {
    Header(PAX_NAME, |record|, 384, 120) + Padded(record)
  }

  function Regular(executable: bool, bytes: seq<Byte>): seq<Byte> {
    Header(SOURCE_NAME, |bytes|, Mode(executable), 48) + Padded(bytes)
  }

  lemma {:induction false} NoDots(s: seq<Byte>)
    requires 46 !in s
    ensures forall i :: 0 <= i < |Split(s)| ==> 46 !in Split(s)[i]
  {
    if s != [] {
      NoDots(s[1..]);
    }
  }

  lemma PlainNameWritable(name: seq<Byte>, size: nat, mode: nat, kind: Byte)
    requires 1 <= |name| <= 99 && NameChars(name) && 46 !in name
    requires size <= MAX_SIZE && mode in {384, 420, 493} && kind in {48, 120}
    ensures Writable(name, size, mode, kind)
  {
    NoDots(name);
    assert 46 in [46, 46];
  }

  lemma NamesWritable(size: nat, executable: bool)
    requires size <= MAX_SIZE
    ensures Writable(PAX_NAME, size, 384, 120) && Writable(SOURCE_NAME, size, Mode(executable), 48)
  {
    assert NameChars(PAX_NAME) && NameChars(SOURCE_NAME);
    PlainNameWritable(PAX_NAME, size, 384, 120);
    PlainNameWritable(SOURCE_NAME, size, Mode(executable), 48);
  }

  lemma EntryRoundTrip(name: seq<Byte>, mode: nat, kind: Byte, data: seq<Byte>, rest: seq<Byte>)
    requires Writable(name, |data|, mode, kind)
    ensures var file := Header(name, |data|, mode, kind) + Padded(data) + rest;
      && !Ended(file)
      && ReadEntry(file) == Some(Entry(kind, name, mode, data, rest))
  {
    var h := Header(name, |data|, mode, kind);
    var file := h + Padded(data) + rest;
    HeaderReads(name, |data|, mode, kind);
    HeaderSum(name, |data|, mode, kind);
    HeaderFits(name, |data|, mode, kind);
    FieldRoundTrip(mode, 7);
    FieldRoundTrip(|data|, 11);
    FieldRoundTrip(ReaderSum(h), 6);
    PrefixZero(h);
    assert file[..512] == h;
    assert forall i :: 0 <= i < 512 ==> file[i] == h[i];
    assert file[512..512 + |data|] == data;
    assert file[512 + |data| + PaddingOf(|data|)..] == rest;
  }

  lemma PrefixZero(h: seq<Byte>)
    requires |h| == 512 && UntilNul(h[345..500]) == []
    ensures h[345] == 0
  {
    assert h[345..500][0] == h[345];
  }

  function Piece(m: Blob, bytes: seq<Byte>): seq<Byte> {
    Extended(PaxRecord(m.name)) + Regular(m.executable, bytes)
  }

  function PieceSize(m: Blob, bytes: seq<Byte>): nat {
    1024 + |Padded(PaxRecord(m.name))| + |Padded(bytes)|
  }

  function JoinTo(pieces: seq<seq<Byte>>, k: nat): seq<Byte>
    requires k <= |pieces|
  {
    if k == 0 then [] else JoinTo(pieces, k - 1) + pieces[k - 1]
  }

  lemma {:induction false} JoinToShift(pieces: seq<seq<Byte>>, k: nat)
    requires 0 < k <= |pieces|
    ensures JoinTo(pieces, k) == pieces[0] + JoinTo(pieces[1..], k - 1)
  {
    if k > 1 {
      JoinToShift(pieces, k - 1);
      assert pieces[k - 1] == pieces[1..][k - 2];
    }
  }

  lemma {:induction false} JoinToIsJoin(pieces: seq<seq<Byte>>)
    ensures JoinTo(pieces, |pieces|) == Join(pieces)
  {
    if pieces != [] {
      JoinToShift(pieces, |pieces|);
      JoinToIsJoin(pieces[1..]);
    }
  }

  lemma PartLength(name: seq<Byte>, mode: nat, kind: Byte, data: seq<Byte>)
    requires Writable(name, |data|, mode, kind)
    ensures |Header(name, |data|, mode, kind) + Padded(data)| == 512 + |Padded(data)|
  {
    HeaderFits(name, |data|, mode, kind);
  }

  lemma MultipleOfBlock(a: nat, b: nat)
    requires a % 512 == 0 && b % 512 == 0
    ensures (a + b) % 512 == 0
  {
    assert a + b == 512 * (a / 512 + b / 512);
  }

  lemma ExtendedLength(record: seq<Byte>)
    requires |record| <= MAX_SIZE
    ensures |Extended(record)| == 512 + |Padded(record)|
  {
    NamesWritable(|record|, false);
    PartLength(PAX_NAME, 384, 120, record);
  }

  lemma RegularLength(executable: bool, bytes: seq<Byte>)
    requires |bytes| <= MAX_SIZE
    ensures |Regular(executable, bytes)| == 512 + |Padded(bytes)|
  {
    NamesWritable(|bytes|, executable);
    PartLength(SOURCE_NAME, Mode(executable), 48, bytes);
  }

  lemma PieceLength(m: Blob, bytes: seq<Byte>)
    requires |bytes| <= MAX_SIZE && |PaxRecord(m.name)| <= MAX_SIZE
    ensures |Piece(m, bytes)| == PieceSize(m, bytes) && PieceSize(m, bytes) % 512 == 0
  {
    var record := PaxRecord(m.name);
    ExtendedLength(record);
    RegularLength(m.executable, bytes);
    PaddedLength(record);
    PaddedLength(bytes);
    MultipleOfBlock(|Padded(record)|, |Padded(bytes)|);
    MultipleOfBlock(1024, |Padded(record)| + |Padded(bytes)|);
  }

  lemma PaddedLength(data: seq<Byte>)
    ensures |Padded(data)| == |data| + PaddingOf(|data|) && |Padded(data)| % 512 == 0
  {
  }

  // ---- the writer

  const SOURCE_BYTES := 134217728

  datatype Failure = Artifact | StreamLimit | Deadline | Child | SourceMismatch
  type Result<T> = Wrappers.Result<T, Failure>

  function SumTo(sizes: seq<nat>, k: nat): nat
    requires k <= |sizes|
  {
    if k == 0 then 0 else SumTo(sizes, k - 1) + sizes[k - 1]
  }

  lemma {:induction false} SumGrows(sizes: seq<nat>, j: nat, k: nat)
    requires j <= k <= |sizes|
    ensures SumTo(sizes, j) <= SumTo(sizes, k)
  {
    if j < k {
      SumGrows(sizes, j, k - 1);
    }
  }

  function Sizes(manifest: seq<Blob>, contents: seq<seq<Byte>>): (sizes: seq<nat>)
    requires |manifest| == |contents|
    ensures |sizes| == |manifest|
    ensures forall i :: 0 <= i < |sizes| ==> sizes[i] == PieceSize(manifest[i], contents[i])
  {
    seq(|manifest|, i requires 0 <= i < |manifest| && |manifest| == |contents| => PieceSize(manifest[i], contents[i]))
  }

  /** Headers, records and blobs with their padding, and the two closing blocks. */
  function TotalSize(manifest: seq<Blob>, contents: seq<seq<Byte>>): nat
    requires |manifest| == |contents|
  {
    1024 + SumTo(Sizes(manifest, contents), |manifest|)
  }

  function Pieces(manifest: seq<Blob>, contents: seq<seq<Byte>>): (pieces: seq<seq<Byte>>)
    requires |manifest| == |contents|
    ensures |pieces| == |manifest|
    ensures forall i :: 0 <= i < |pieces| ==> pieces[i] == Piece(manifest[i], contents[i])
  {
    seq(|manifest|, i requires 0 <= i < |manifest| && |manifest| == |contents| => Piece(manifest[i], contents[i]))
  }

  /** What Git answers for a blob id: None stands for a failed or over-long child process. */
  type Reply = Option<seq<Byte>>

  /** For each entry, whether its blob arrived on time and hashes to its id. */
  ghost function Deliveries(manifest: seq<Blob>, replies: seq<Reply>, onTime: seq<bool>,
                            hash: seq<Byte> -> int): (good: seq<bool>)
    requires |manifest| == |replies| == |onTime|
    ensures |good| == |manifest|
    ensures forall i :: 0 <= i < |good| ==> (good[i] <==> Good(manifest[i], replies[i], onTime[i], hash))
  {
    seq(|manifest|, i requires 0 <= i < |manifest| == |replies| == |onTime| =>
      Good(manifest[i], replies[i], onTime[i], hash))
  }

  ghost predicate AllTrue(good: seq<bool>, upTo: nat)
    requires upTo <= |good|
  {
    forall i :: 0 <= i < upTo ==> good[i]
  }

  lemma AllTrueNext(good: seq<bool>, i: nat)
    requires i < |good|
    ensures AllTrue(good, i) && good[i] ==> AllTrue(good, i + 1)
    ensures AllTrue(good, |good|) ==> good[i]
  {
  }

  predicate Good(m: Blob, reply: Reply, onTime: bool, hash: seq<Byte> -> int) {
    onTime && reply.Some? && hash(reply.value) == m.oid
  }

  ghost function Contents(replies: seq<Reply>): (contents: seq<seq<Byte>>)
    ensures |contents| == |replies|
    ensures forall i :: 0 <= i < |replies| && replies[i].Some? ==> contents[i] == replies[i].value
  {
    seq(|replies|, i requires 0 <= i < |replies| => if replies[i].Some? then replies[i].value else [])
  }

  /** Everything the writer needs: a sane limit, every blob on time with its own hash, and enough room. */
  ghost predicate Fits(manifest: seq<Blob>, replies: seq<Reply>, onTime: seq<bool>, byteLimit: int,
                       hash: seq<Byte> -> int)
    requires |manifest| == |replies| == |onTime|
  {
    && 1024 <= byteLimit <= SOURCE_BYTES
    && AllTrue(Deliveries(manifest, replies, onTime, hash), |manifest|)
    && TotalSize(manifest, Contents(replies)) <= byteLimit
  }

  /** The header, record, header and blob written for one file, its sizes already known to fit. */
  method WritePiece(m: Blob, bytes: seq<Byte>, record: seq<Byte>) returns (piece: seq<Byte>)
    requires record == PaxRecord(m.name) && |record| <= MAX_SIZE && |bytes| <= MAX_SIZE
    ensures piece == Piece(m, bytes) && |piece| == PieceSize(m, bytes) && |piece| % 512 == 0
  {
    NamesWritable(|record|, m.executable);
    NamesWritable(|bytes|, m.executable);
    PieceLength(m, bytes);
    var extended := TarHeader(PAX_NAME, |record|, 384, 120);
    var regular := TarHeader(SOURCE_NAME, |bytes|, Mode(m.executable), 48);
    piece := (extended.value[..] + Padded(record)) + (regular.value[..] + Padded(bytes));
  }

  /** One turn of the loop, with `room` bytes left before the limit. */
  method FilePiece(m: Blob, reply: Reply, onTime: bool, room: int, hash: seq<Byte> -> int)
    returns (r: Result<seq<Byte>>)
    requires room <= SOURCE_BYTES
    ensures r.Ok? <==> Good(m, reply, onTime, hash) && PieceSize(m, reply.value) <= room
    ensures r.Ok? ==>
      r.value == Piece(m, reply.value) && |r.value| == PieceSize(m, reply.value) && |r.value| % 512 == 0
  {
    var length := RecordLength(|PathField(m.name)|);
    var record := Decimal(length) + PathField(m.name);
    assert record == PaxRecord(m.name);
    PaddedLength(record);
    var available := room - (1024 + |record| + PaddingOf(|record|));
    if available < 0 {
      return Err(StreamLimit);
    }
    if !onTime {
      return Err(Deadline);
    }
    if reply.None? {
      return Err(Child);
    }
    var bytes := reply.value;
    PaddedLength(bytes);
    if |bytes| + PaddingOf(|bytes|) > available {
      return Err(StreamLimit);
    }
    if hash(bytes) != m.oid {
      return Err(SourceMismatch);
    }
    var piece := WritePiece(m, bytes, record);
    return Ok(piece);
  }

  /** The piece at `i`, in terms of what all of them should be. */
  method NextPiece(manifest: seq<Blob>, replies: seq<Reply>, onTime: seq<bool>, i: nat, room: int,
                   hash: seq<Byte> -> int) returns (r: Result<seq<Byte>>)
    requires i < |manifest| == |replies| == |onTime| && room <= SOURCE_BYTES
    ensures r.Ok? <==> Deliveries(manifest, replies, onTime, hash)[i] && Sizes(manifest, Contents(replies))[i] <= room
    ensures r.Ok? ==>
      && r.value == Pieces(manifest, Contents(replies))[i] && |r.value| == Sizes(manifest, Contents(replies))[i]
      && |r.value| % 512 == 0
  {
    hide Piece, PieceSize;
    r := FilePiece(manifest[i], replies[i], onTime[i], room, hash);
  }

  /** sourceArchive: it succeeds iff every blob arrives on time with its own hash and the archive fits;
      the file is then the pieces in manifest order, its size is the running total and fits the limit. */
  method SourceArchive(manifest: seq<Blob>, replies: seq<Reply>, onTime: seq<bool>, byteLimit: int,
                       hash: seq<Byte> -> int) returns (r: Result<seq<Byte>>)
    requires |manifest| == |replies| == |onTime|
    ensures r.Ok? <==> Fits(manifest, replies, onTime, byteLimit, hash)
    ensures r.Ok? ==>
      && r.value == Join(Pieces(manifest, Contents(replies))) + Zeros(1024)
      && |r.value| == TotalSize(manifest, Contents(replies)) <= byteLimit && |r.value| % 512 == 0
  {
    hide AllTrue, Good, Written, Piece, PieceSize, Join, Zeros;
    if !(1024 <= byteLimit <= SOURCE_BYTES) {
      return Err(Artifact);
    }
    ghost var contents := Contents(replies);
    ghost var sizes, good := Sizes(manifest, contents), Deliveries(manifest, replies, onTime, hash);
    ghost var pieces := Pieces(manifest, contents);
    var out: seq<Byte> := [];
    var total: nat := 1024;
    WrittenStart(good, pieces);
    for i := 0 to |manifest|
      invariant AllTrue(good, i)
      invariant Written(pieces, i, out, total) && total == 1024 + SumTo(sizes, i) <= byteLimit
    {
      var piece := NextPiece(manifest, replies, onTime, i, byteLimit - total, hash);
      AllTrueNext(good, i);
      if piece.Err? {
        SumGrows(sizes, i + 1, |manifest|);
        return piece;
      }
      WrittenStep(pieces, i, out, total, piece.value);
      out := out + piece.value;
      total := total + |piece.value|;
    }
    WrittenEnd(pieces, out, total);
    return Ok(out + Zeros(1024));
  }

  /** What is in the file so far: i whole pieces, counted together with the closing blocks. */
  ghost predicate Written(pieces: seq<seq<Byte>>, i: nat, out: seq<Byte>, total: nat)
    requires i <= |pieces|
  {
    out == JoinTo(pieces, i) && total == |out| + 1024 && |out| % 512 == 0
  }

  lemma WrittenStart(good: seq<bool>, pieces: seq<seq<Byte>>)
    ensures AllTrue(good, 0) && Written(pieces, 0, [], 1024)
  {
  }

  lemma WrittenStep(pieces: seq<seq<Byte>>, i: nat, out: seq<Byte>, total: nat, piece: seq<Byte>)
    requires i < |pieces| && Written(pieces, i, out, total) && piece == pieces[i] && |piece| % 512 == 0
    ensures Written(pieces, i + 1, out + piece, total + |piece|)
  {
    MultipleOfBlock(|out|, |piece|);
  }

  lemma WrittenEnd(pieces: seq<seq<Byte>>, out: seq<Byte>, total: nat)
    requires Written(pieces, |pieces|, out, total)
    ensures out + Zeros(1024) == Join(pieces) + Zeros(1024)
    ensures |out + Zeros(1024)| == total && |out + Zeros(1024)| % 512 == 0
  {
    JoinToIsJoin(pieces);
    MultipleOfBlock(|out|, 1024);
  }

  // ---- round trip

  function RestoredOf(m: Blob, bytes: seq<Byte>): Restored { Restored(m.name, Mode(m.executable), bytes) }

  /** A piece reads back as its file, whatever follows it. */
  ghost predicate ReadsBack(read: seq<Byte> -> Option<Entry>, piece: seq<Byte>, file: Restored, rest: seq<Byte>)
    requires Shrinks(read)
  {
    Decode(read, piece + rest, None) == Prepend([file], Decode(read, rest, None))
  }

  /** Two entries in a row, the first carrying the path of the second. */
  lemma DecodePair(read: seq<Byte> -> Option<Entry>, a: seq<Byte>, b: seq<Byte>, rest: seq<Byte>,
                   name: seq<Byte>, first: Entry, e: Entry)
    requires Shrinks(read) && !Ended(a + (b + rest)) && !Ended(b + rest)
    requires read(a + (b + rest)) == Some(first) && first.kind == 120 && first.rest == b + rest
    requires Records(first.data) == Some(map[PATH := name]) && name != []
    requires read(b + rest) == Some(e) && e.kind == 48 && e.rest == rest
    ensures ReadsBack(read, a + b, Restored(name, e.mode, e.data), rest)
  {
    assert (a + b) + rest == a + (b + rest);
    assert Decode(read, a + (b + rest), None) == Decode(read, b + rest, Some(name));
  }

  lemma ExtendedReads(record: seq<Byte>, rest: seq<Byte>)
    requires |record| <= MAX_SIZE
    ensures !Ended(Extended(record) + rest)
    ensures ReadEntry(Extended(record) + rest) == Some(Entry(120, PAX_NAME, 384, record, rest))
  {
    NamesWritable(|record|, false);
    EntryRoundTrip(PAX_NAME, 384, 120, record, rest);
  }

  lemma RegularReads(executable: bool, bytes: seq<Byte>, rest: seq<Byte>)
    requires |bytes| <= MAX_SIZE
    ensures !Ended(Regular(executable, bytes) + rest)
    ensures ReadEntry(Regular(executable, bytes) + rest) ==
            Some(Entry(48, SOURCE_NAME, Mode(executable), bytes, rest))
  {
    NamesWritable(|bytes|, executable);
    EntryRoundTrip(SOURCE_NAME, Mode(executable), 48, bytes, rest);
  }

  lemma PieceReadsBack(m: Blob, bytes: seq<Byte>, rest: seq<Byte>)
    requires m.name != [] && |bytes| <= MAX_SIZE && |PaxRecord(m.name)| <= MAX_SIZE
    ensures ReadsBack(ReadEntry, Piece(m, bytes), RestoredOf(m, bytes), rest)
  {
    var record := PaxRecord(m.name);
    var second := Regular(m.executable, bytes) + rest;
    ExtendedReads(record, second);
    RegularReads(m.executable, bytes, rest);
    RecordRoundTrip(m.name, PaxLength(|PathField(m.name)|));
    DecodePair(ReadEntry, Extended(record), Regular(m.executable, bytes), rest, m.name,
               Entry(120, PAX_NAME, 384, record, second), Entry(48, SOURCE_NAME, Mode(m.executable), bytes, rest));
  }

  lemma DecodeEnd(read: seq<Byte> -> Option<Entry>)
    requires Shrinks(read)
    ensures Decode(read, Zeros(1024), None) == Some([])
  {
    assert Zeros(1024)[..1024] == Zeros(1024);
  }

  /** Pieces that each read back as their file, read one after the other. */
  lemma {:induction false} JoinReadsBack(decode: seq<Byte> -> Option<seq<Restored>>, pieces: seq<seq<Byte>>,
                                         files: seq<Restored>, end: seq<Byte>)
    requires |pieces| == |files| && decode(end) == Some([])
    requires forall i, rest :: 0 <= i < |pieces| ==> decode(pieces[i] + rest) == Prepend([files[i]], decode(rest))
    ensures decode(Join(pieces) + end) == Some(files)
    decreases |pieces|
  {
    if pieces == [] {
      assert Join(pieces) + end == end;
    } else {
      var rest := Join(pieces[1..]) + end;
      assert Join(pieces) + end == pieces[0] + rest;
      JoinReadsBack(decode, pieces[1..], files[1..], end);
      assert [files[0]] + files[1..] == files;
    }
  }

  function AllRestored(manifest: seq<Blob>, contents: seq<seq<Byte>>): (files: seq<Restored>)
    requires |manifest| == |contents|
    ensures |files| == |manifest|
    ensures forall i :: 0 <= i < |files| ==> files[i] == RestoredOf(manifest[i], contents[i])
  {
    seq(|manifest|, i requires 0 <= i < |manifest| && |manifest| == |contents| => RestoredOf(manifest[i], contents[i]))
  }

  lemma EachPieceFits(manifest: seq<Blob>, contents: seq<seq<Byte>>, i: nat)
    requires |manifest| == |contents| && i < |manifest|
    ensures |contents[i]| <= TotalSize(manifest, contents)
      && |PaxRecord(manifest[i].name)| <= TotalSize(manifest, contents)
  {
    SumGrows(Sizes(manifest, contents), i + 1, |manifest|);
    PaddedLength(contents[i]);
    PaddedLength(PaxRecord(manifest[i].name));
  }

  /** Reading the archive by the pax rules gives back exactly the manifest's names, modes and bytes, in order. */
  lemma ArchiveRoundTrip(manifest: seq<Blob>, contents: seq<seq<Byte>>)
    requires |manifest| == |contents| && TotalSize(manifest, contents) <= SOURCE_BYTES
    requires forall i :: 0 <= i < |manifest| ==> manifest[i].name != []
    ensures Decode(ReadEntry, Join(Pieces(manifest, contents)) + Zeros(1024), None) ==
            Some(AllRestored(manifest, contents))
  {
    var pieces, files := Pieces(manifest, contents), AllRestored(manifest, contents);
    var decode := file => Decode(ReadEntry, file, None);
    forall i, rest | 0 <= i < |pieces|
      ensures decode(pieces[i] + rest) == Prepend([files[i]], decode(rest))
    {
      EachPieceFits(manifest, contents, i);
      PieceReadsBack(manifest[i], contents[i], rest);
    }
    DecodeEnd(ReadEntry);
    JoinReadsBack(decode, pieces, files, Zeros(1024));
  }
}
