/** contextTar and checkCacheTar of scripts/gate1-build-qualification.js: the archive writer and the
    strict reader, and their agreement. */
module CacheTar {
  import opened Bytes
  import opened Ustar
  import opened Wrappers

  const MAX_ENTRIES := 250000
  const MAX_ARCHIVE := 0x4000_0000

  datatype Entry = Entry(name: seq<Byte>, size: nat)

  function Lower(s: seq<Byte>): seq<Byte> {
    seq(|s|, i requires 0 <= i < |s| => if 65 <= s[i] <= 90 then s[i] + 32 else s[i])
  }

  /** Names that may carry credentials or environment files. */
  predicate Forbidden(part: seq<Byte>) {
    var p := Lower(part);
    || p in [Ascii(".env"), Ascii(".git"), Ascii(".aws"), Ascii(".ssh"), Ascii(".codex"), Ascii(".vercel"),
             Ascii(".npmrc"), Ascii(".netrc"), Ascii("auth.json"), Ascii("credentials"), Ascii("credentials.json")]
    || Ascii(".env.") <= p
  }

  const CACHE := Ascii("_cacache")

  /** _cacache, alone or followed by a slash and name characters; no dot, dot-dot or forbidden part. */
  predicate Readable(name: seq<Byte>) {
    && CACHE <= name
    && (name == CACHE || (name[|CACHE|] == 47 && NameChars(name[|CACHE| + 1..])))
    && PartsAllowed(Split(name))
  }

  predicate PartsAllowed(parts: seq<seq<Byte>>) {
    parts == [] || (parts[0] !in [[46], [46, 46]] && !Forbidden(parts[0]) && PartsAllowed(parts[1..]))
  }

  function RoundUp(n: nat): (r: nat)
    ensures r == n + PaddingOf(n) && r % 512 == 0
  {
    (n + 511) / 512 * 512
  }

  /** TextDecoder drops a leading byte order mark. Text outside ASCII can never match a readable name,
      so a name that holds any ends in a refusal whether or not it is valid UTF-8. */
  function LongNameText(bytes: seq<Byte>): Option<seq<Byte>> {
    var text := if [239, 187, 191] <= bytes then bytes[3..] else bytes;
    if forall i :: 0 <= i < |text| ==> text[i] < 128 then Some(text) else None
  }

  /** The fields one header block yields, or None when the block is not a well-formed header. */
  datatype Fields = Fields(name: seq<Byte>, prefix: seq<Byte>, size: nat, kind: Byte)

  function ReadHeader(h: seq<Byte>): Option<Fields>
    requires |h| == 512
  {
    var magic := Low7(h[257..263]);
    var prefix := if magic == MAGIC then UntilNul(h[345..500]) else [];
    var length, sumText := NumberText(h[124..136]), NumberText(h[148..156]);
    if length == [] || !AllOctal(length) || sumText == [] || !AllOctal(sumText)
       || ReaderSum(h) != ParseOctal(sumText) || magic !in [MAGIC, [117, 115, 116, 97, 114, 32]]
    then None
    else Some(Fields(UntilNul(h[..100]), prefix, ParseOctal(length), h[156]))
  }

  const LONG_LINK := Ascii("././@LongLink")

  /** What is left to read, how many headers were read, and a pending GNU long name ([] for none). */
  datatype Cursor = Cursor(rest: seq<Byte>, count: nat, longName: seq<Byte>)

  datatype Event = Refused | Pending(next: Cursor) | Found(entry: Entry, next: Cursor)

  /** One header block and the data it announces; data past the end leaves nothing to read. */
  function ReadBlock(c: Cursor): (e: Event)
    ensures |c.rest| >= 512 && !e.Refused? ==> |e.next.rest| < |c.rest|
  {
    if |c.rest| < 512 then Refused else Take(c, ReadHeader(c.rest[..512]))
  }

  function Take(c: Cursor, header: Option<Fields>): (e: Event)
    requires |c.rest| >= 512
    ensures !e.Refused? ==> |e.next.rest| < |c.rest|
  {
    match header
    case None => Refused
    case Some(f) =>
      var data := c.rest[512..];
      var after := if RoundUp(f.size) <= |data| then data[RoundUp(f.size)..] else [];
      var full := if c.longName != [] then c.longName
                  else (if f.prefix != [] then f.prefix + [47] else []) + f.name;
      if c.count + 1 > MAX_ENTRIES then Refused
      else if f.kind == 76 then
        if c.longName != [] || f.name != LONG_LINK || f.size < 2 || f.size > 1025
           || |data| < f.size || data[f.size - 1] != 0 then Refused
        else match LongNameText(data[..f.size - 1])
          case None => Refused
          case Some(text) => Pending(Cursor(after, c.count + 1, text))
      else if f.kind !in {0, 48, 53} || !Readable(full) || f.size > MAX_ARCHIVE
              || (f.kind == 53 && f.size != 0) then Refused
      else Found(Entry(full, f.size), Cursor(after, c.count + 1, []))
  }

  /** A way to read one block that always gets closer to the end of the file. */
  ghost predicate Shrinks(read: Cursor -> Event) {
    forall c: Cursor :: |c.rest| >= 512 ==>
      match read(c)
      case Refused => true
      case Pending(next) => |next.rest| < |c.rest|
      case Found(_, next) => |next.rest| < |c.rest|
  }

  /** The (name, size) entries of an accepted archive; None is the 'artifact' failure. */
  function Scan(read: Cursor -> Event, c: Cursor): Option<seq<Entry>>
    requires Shrinks(read)
    decreases |c.rest|
  {
    if |c.rest| < 512 then None
    else if AllZero(c.rest[..512]) then
      if c.count == 0 || c.longName != [] || |c.rest| < 1024 || !AllZero(c.rest) then None else Some([])
    else match read(c)
      case Refused => None
      case Pending(next) => Scan(read, next)
      case Found(entry, next) => Prepend([entry], Scan(read, next))
  }

  lemma PrependOne(walked: seq<Entry>, entry: Entry, r: Option<seq<Entry>>)
    ensures Prepend(walked, Prepend([entry], r)) == Prepend(walked + [entry], r)
  {
    if r.Some? {
      assert walked + ([entry] + r.value) == walked + [entry] + r.value;
    }
  }

  method OnlyZeros(rest: seq<Byte>) returns (zero: bool)
    ensures zero <==> AllZero(rest)
  {
    for i := 0 to |rest|
      invariant forall k :: 0 <= k < i ==> rest[k] == 0
    {
      if rest[i] != 0 {
        return false;
      }
    }
    return true;
  }

  /** The loop of checkCacheTar and its closing checks, over the body that reads one block. */
  method Walk(read: Cursor -> Event, start: Cursor) returns (r: Option<seq<Entry>>)
    requires Shrinks(read)
    ensures r == Scan(read, start)
  {
    var c := start;
    var ended, walked := false, [];
    ghost var whole := Scan(read, c);
    assert whole.Some? ==> [] + whole.value == whole.value;
    while |c.rest| >= 512 && !ended
      invariant ended ==> |c.rest| >= 512 && AllZero(c.rest[..512])
      invariant whole == Prepend(walked, Scan(read, c))
      decreases !ended, |c.rest|
    {
      if AllZero(c.rest[..512]) {
        ended := true;
      } else {
        match read(c) {
          case Refused =>
            return None;
          case Pending(next) =>
            c := next;
          case Found(entry, next) =>
            PrependOne(walked, entry, Scan(read, next));
            walked := walked + [entry];
            c := next;
        }
      }
    }
    if !ended || c.count == 0 || c.longName != [] || |c.rest| < 1024 {
      return None;
    }
    var zero := OnlyZeros(c.rest);
    assert walked + [] == walked;
    return if zero then Some(walked) else None;
  }

  method CheckCacheTar(file: seq<Byte>) returns (r: Option<seq<Entry>>)
    ensures r == Scan(ReadBlock, Cursor(file, 0, []))
  {
    r := Walk(ReadBlock, Cursor(file, 0, []));
  }

  // ---- the writer

  /** A member to write: its size as declared before copying (stat, or the buffer's own length). */
  datatype Source = Source(name: seq<Byte>, declared: int, content: seq<Byte>)

  const PRIVATE := 384
  const REGULAR: Byte := 48

  predicate Sound(m: Source) {
    Writable(m.name, m.declared, PRIVATE, REGULAR) && |m.content| == m.declared
  }

  function Chunk(m: Source): seq<Byte>
    requires Sound(m)
  {
    Header(m.name, m.declared, PRIVATE, REGULAR) + m.content + Zeros(PaddingOf(m.declared))
  }

  function Body(members: seq<Source>): seq<Byte>
    requires forall m :: m in members ==> Sound(m)
  {
    if members == [] then [] else Chunk(members[0]) + Body(members[1..])
  }

  lemma {:induction false} BodyAppend(members: seq<Source>, m: Source)
    requires Sound(m) && forall x :: x in members ==> Sound(x)
    ensures Body(members + [m]) == Body(members) + Chunk(m)
  {
    if members == [] {
      assert members + [m] == [m];
    } else {
      assert (members + [m])[1..] == members[1..] + [m];
      BodyAppend(members[1..], m);
    }
  }

  lemma BodyNext(members: seq<Source>, i: nat)
    requires i < |members| && forall k :: 0 <= k <= i ==> Sound(members[k])
    ensures (forall m :: m in members[..i] ==> Sound(m)) && (forall m :: m in members[..i + 1] ==> Sound(m))
    ensures Body(members[..i + 1]) == Body(members[..i]) + Chunk(members[i])
  {
    assert members[..i + 1] == members[..i] + [members[i]];
    assert forall m :: m in members[..i] ==> Sound(m);
    BodyAppend(members[..i], members[i]);
  }

  /** contextTar: None stands for the 'artifact' failure. */
  method ContextTar(members: seq<Source>) returns (file: Option<seq<Byte>>)
    ensures file.Some? <==> forall m :: m in members ==> Sound(m)
    ensures file.Some? ==> file.value == Body(members) + Zeros(1024)
  {
    var out: seq<Byte> := [];
    for i := 0 to |members|
      invariant forall k :: 0 <= k < i ==> Sound(members[k])
      invariant out == Body(members[..i])
    {
      var m := members[i];
      var header := TarHeader(m.name, m.declared, PRIVATE, REGULAR);
      assert m in members;
      if header.None? || |m.content| != m.declared {
        return None;
      }
      BodyNext(members, i);
      out := out + (header.value[..] + m.content + Zeros(PaddingOf(m.declared)));
    }
    assert members[..|members|] == members;
    return Some(out + Zeros(1024));
  }

  // ---- agreement

  function EntryOf(m: Source): Entry
    requires Sound(m)
  {
    Entry(m.name, m.declared)
  }

  function Entries(members: seq<Source>): seq<Entry>
    requires forall m :: m in members ==> Sound(m)
  {
    seq(|members|, i requires 0 <= i < |members| && Sound(members[i]) => EntryOf(members[i]))
  }

  predicate Admitted(m: Source) { Readable(m.name) && m.declared <= MAX_ARCHIVE }

  /** A regular member's block: admitted under its header name, or refused. */
  lemma RegularBlock(c: Cursor, f: Fields)
    requires |c.rest| >= 512 && c.longName == []
    requires f.kind == REGULAR && f.prefix == [] && RoundUp(f.size) <= |c.rest[512..]|
    ensures Take(c, Some(f)) ==
      if c.count + 1 <= MAX_ENTRIES && Readable(f.name) && f.size <= MAX_ARCHIVE
      then Found(Entry(f.name, f.size), Cursor(c.rest[512..][RoundUp(f.size)..], c.count + 1, [])) else Refused
  {
    assert [] + f.name == f.name;
  }

  /** Reading a chunk yields its outcome, whatever follows it, until the entry limit is reached. */
  ghost predicate Reads(read: Cursor -> Event, chunk: seq<Byte>, outcome: Option<Entry>, rest: seq<Byte>, count: nat) {
    && |chunk + rest| >= 512 && !AllZero((chunk + rest)[..512])
    && read(Cursor(chunk + rest, count, [])) ==
       if count + 1 <= MAX_ENTRIES && outcome.Some? then Found(outcome.value, Cursor(rest, count + 1, [])) else Refused
  }

  function Outcome(m: Source): Option<Entry>
    requires Sound(m)
  {
    if Admitted(m) then Some(EntryOf(m)) else None
  }

  lemma ReadWritten(m: Source, rest: seq<Byte>, count: nat)
    requires Sound(m)
    ensures Reads(ReadBlock, Chunk(m), Outcome(m), rest, count)
  {
    hide Header, ReadHeader, Take;
    var h := Header(m.name, m.declared, PRIVATE, REGULAR);
    var body := m.content + Zeros(PaddingOf(m.declared));
    HeaderIsRead(m);
    assert Chunk(m) + rest == h + (body + rest);
    Cut(h, body, rest);
    RegularBlock(Cursor(h + (body + rest), count, []), Fields(m.name, [], m.declared, REGULAR));
  }

  lemma Cut(h: seq<Byte>, body: seq<Byte>, rest: seq<Byte>)
    ensures var file := h + (body + rest);
      file[..|h|] == h && file[|h|..] == body + rest && file[|h|..][|body|..] == rest
  {
  }

  /** A header block whose fields hold what they should is read. */
  lemma FieldsAreRead(h: seq<Byte>, name: seq<Byte>, size: nat, kind: Byte)
    requires |h| == 512 && UntilNul(h[..100]) == name && UntilNul(h[345..500]) == [] && h[257..263] == MAGIC
    requires size < Pow8(11) && NumberText(h[124..136]) == Field(size, 11)
    requires ReaderSum(h) < Pow8(6) && NumberText(h[148..156]) == Field(ReaderSum(h), 6) && h[156] == kind
    ensures ReadHeader(h) == Some(Fields(name, [], size, kind))
  {
    FieldRoundTrip(size, 11);
    FieldRoundTrip(ReaderSum(h), 6);
    assert Low7(MAGIC) == MAGIC;
  }

  lemma HeaderIsRead(m: Source)
    requires Sound(m)
    ensures var h := Header(m.name, m.declared, PRIVATE, REGULAR);
      |h| == 512 && !AllZero(h) && ReadHeader(h) == Some(Fields(m.name, [], m.declared, REGULAR))
  {
    var h := Header(m.name, m.declared, PRIVATE, REGULAR);
    HeaderReads(m.name, m.declared, PRIVATE, REGULAR);
    HeaderSum(m.name, m.declared, PRIVATE, REGULAR);
    FieldsAreRead(h, m.name, m.declared, REGULAR);
  }

  lemma ScanEnd(read: Cursor -> Event, count: nat)
    requires Shrinks(read)
    ensures Scan(read, Cursor(Zeros(1024), count, [])) == if count == 0 then None else Some([])
  {
    var z := Zeros(1024);
    assert AllZero(z) && AllZero(z[..512]);
  }

  /** Every entry found, or nothing at all. */
  ghost function All(outcomes: seq<Option<Entry>>): Option<seq<Entry>> {
    if outcomes == [] then Some([])
    else if outcomes[0].None? then None
    else Prepend([outcomes[0].value], All(outcomes[1..]))
  }

  ghost function Verdict(outcomes: seq<Option<Entry>>, count: nat): Option<seq<Entry>> {
    if 0 < count + |outcomes| && (outcomes == [] || count + |outcomes| <= MAX_ENTRIES) then All(outcomes) else None
  }

  lemma VerdictStep(outcomes: seq<Option<Entry>>, count: nat)
    requires outcomes != []
    ensures Verdict(outcomes, count) ==
      if count + 1 <= MAX_ENTRIES && outcomes[0].Some?
      then Prepend([outcomes[0].value], Verdict(outcomes[1..], count + 1)) else None
  {
  }

  lemma {:induction false} ScanChunks(read: Cursor -> Event, chunks: seq<seq<Byte>>, outcomes: seq<Option<Entry>>,
                                      count: nat)
    requires Shrinks(read) && |chunks| == |outcomes|
    requires forall i, rest, k :: 0 <= i < |chunks| ==> Reads(read, chunks[i], outcomes[i], rest, k)
    ensures Scan(read, Cursor(Join(chunks) + Zeros(1024), count, [])) == Verdict(outcomes, count)
    decreases |chunks|
  {
    if chunks == [] {
      assert Join(chunks) + Zeros(1024) == Zeros(1024);
      ScanEnd(read, count);
    } else {
      var rest := Join(chunks[1..]) + Zeros(1024);
      assert Join(chunks) + Zeros(1024) == chunks[0] + rest;
      assert Reads(read, chunks[0], outcomes[0], rest, count);
      VerdictStep(outcomes, count);
      ScanChunks(read, chunks[1..], outcomes[1..], count + 1);
    }
  }

  ghost function Chunks(members: seq<Source>): (chunks: seq<seq<Byte>>)
    requires forall m :: m in members ==> Sound(m)
    ensures |chunks| == |members| && forall i :: 0 <= i < |chunks| ==> chunks[i] == Chunk(members[i])
  {
    seq(|members|, i requires 0 <= i < |members| && Sound(members[i]) => Chunk(members[i]))
  }

  ghost function Outcomes(members: seq<Source>): (outcomes: seq<Option<Entry>>)
    requires forall m :: m in members ==> Sound(m)
    ensures |outcomes| == |members| && forall i :: 0 <= i < |outcomes| ==> outcomes[i] == Outcome(members[i])
  {
    seq(|members|, i requires 0 <= i < |members| && Sound(members[i]) => Outcome(members[i]))
  }

  lemma {:induction false} BodyIsJoin(members: seq<Source>)
    requires forall m :: m in members ==> Sound(m)
    ensures Body(members) == Join(Chunks(members))
  {
    if members != [] {
      BodyIsJoin(members[1..]);
      assert Chunks(members)[1..] == Chunks(members[1..]);
    }
  }

  lemma FirstOutcome(members: seq<Source>)
    requires members != [] && forall m :: m in members ==> Sound(m)
    ensures Outcomes(members) == [Outcome(members[0])] + Outcomes(members[1..])
  {
  }

  lemma FirstEntry(members: seq<Source>)
    requires members != [] && forall m :: m in members ==> Sound(m)
    ensures Entries(members) == [EntryOf(members[0])] + Entries(members[1..])
  {
  }

  lemma FirstAdmitted(members: seq<Source>)
    requires members != []
    ensures (forall m :: m in members ==> Admitted(m)) <==>
            Admitted(members[0]) && forall m :: m in members[1..] ==> Admitted(m)
  {
    assert members == [members[0]] + members[1..];
    forall m
      ensures m in members <==> m == members[0] || m in members[1..]
    {
    }
  }

  lemma {:induction false} AllOfMembers(members: seq<Source>)
    requires forall m :: m in members ==> Sound(m)
    ensures All(Outcomes(members)) ==
      if forall m :: m in members ==> Admitted(m) then Some(Entries(members)) else None
  {
    if members != [] {
      AllOfMembers(members[1..]);
      FirstOutcome(members);
      FirstEntry(members);
      FirstAdmitted(members);
      AllFirst(Outcome(members[0]), Outcomes(members[1..]));
    } else {
      assert Outcomes(members) == [] && Entries(members) == [];
    }
  }

  lemma AllFirst(first: Option<Entry>, others: seq<Option<Entry>>)
    ensures All([first] + others) == if first.None? then None else Prepend([first.value], All(others))
  {
    assert ([first] + others)[1..] == others;
  }

  lemma VerdictOfMembers(members: seq<Source>)
    requires forall m :: m in members ==> Sound(m)
    ensures Verdict(Outcomes(members), 0) ==
      if 0 < |members| <= MAX_ENTRIES && forall m :: m in members ==> Admitted(m)
      then Some(Entries(members)) else None
  {
    AllOfMembers(members);
  }

  /** The reader accepts what the writer wrote iff it admits every member and there are 1 to 250000 of
      them, and it then walks exactly the members written, in order. */
  lemma WriterReaderAgree(members: seq<Source>)
    requires forall m :: m in members ==> Sound(m)
    ensures Scan(ReadBlock, Cursor(Body(members) + Zeros(1024), 0, [])) ==
      if 0 < |members| <= MAX_ENTRIES && forall m :: m in members ==> Admitted(m)
      then Some(Entries(members)) else None
  {
    var chunks, outcomes := Chunks(members), Outcomes(members);
    forall i, rest, k: nat | 0 <= i < |chunks|
      ensures Reads(ReadBlock, chunks[i], outcomes[i], rest, k)
    {
      ReadWritten(members[i], rest, k);
    }
    ScanChunks(ReadBlock, chunks, outcomes, 0);
    BodyIsJoin(members);
    VerdictOfMembers(members);
  }
}
