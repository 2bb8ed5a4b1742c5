/** The comparison encodings of scripts/gate1-build-artifact-privacy.js: a private value is
    searched for in its raw, JSON, URI and base64 forms, and in a base64 window per byte alignment. */
module Bytes {
  type Byte = b: int | 0 <= b < 256

  predicate OccursAt<T(==)>(needle: seq<T>, haystack: seq<T>, i: nat) {
    i + |needle| <= |haystack| && haystack[i..i + |needle|] == needle
  }

  /** Buffer.includes and String.includes. */
  predicate Occurs<T(==)>(needle: seq<T>, haystack: seq<T>) {
    exists i :: 0 <= i <= |haystack| && OccursAt(needle, haystack, i)
  }

  predicate Same<T(==)>(a: seq<T>, b: seq<T>, base: nat, j: nat) {
    j < |a| && base + j < |b| && b[base + j] == a[j]
  }

  lemma OccursShifted<T>(a: seq<T>, start: nat, end: nat, b: seq<T>, base: nat)
    requires start <= end <= |a| && forall j :: start <= j < end ==> Same(a, b, base, j)
    ensures Occurs(a[start..end], b)
  {
    if start < end {
      assert Same(a, b, base, end - 1);
    }
    forall j | start <= j < end
      ensures base + j < |b| && a[j] == b[base + j]
    {
      assert Same(a, b, base, j);
    }
    if start < end {
      assert b[base + start..base + end] == a[start..end];
      assert OccursAt(a[start..end], b, base + start);
    } else {
      assert OccursAt(a[start..end], b, 0);
    }
  }

  lemma OccursInContext<T>(needle: seq<T>, before: seq<T>, middle: seq<T>, after: seq<T>)
    requires Occurs(needle, middle)
    ensures Occurs(needle, before + middle + after)
  {
    var i :| 0 <= i <= |middle| && OccursAt(needle, middle, i);
    assert OccursAt(needle, before + middle + after, |before| + i);
  }
}

module Representations {
  import opened Bytes

  /** Standard is RFC 4648 section 4 (padded), UrlSafe section 5 as Node writes it (unpadded). */
  datatype Variant = Standard | UrlSafe

  /** How an artifact may carry a longer text that has the private value somewhere inside. */
  datatype Channel = Raw | Json | Uri | Base64(variant: Variant)

  type Sextet = d: int | 0 <= d < 64

  function Symbol(v: Variant, d: Sextet): (c: Byte) {
    if d < 26 then 65 + d
    else if d < 52 then 97 + (d - 26)
    else if d < 62 then 48 + (d - 52)
    else if d == 62 then (if v == Standard then 43 else 45)
    else (if v == Standard then 47 else 95)
  }

  function Padding(v: Variant, n: nat): seq<Byte> {
    if v == UrlSafe then [] else seq(n, _ => 61)
  }

  /** Buffer.toString('base64' | 'base64url'). */
  function Encode(b: seq<Byte>, v: Variant): seq<Byte> {
    if |b| == 0 then []
    else if |b| == 1 then [Symbol(v, b[0] / 4), Symbol(v, b[0] % 4 * 16)] + Padding(v, 2)
    else if |b| == 2 then
      [Symbol(v, b[0] / 4), Symbol(v, b[0] % 4 * 16 + b[1] / 16), Symbol(v, b[1] % 16 * 4)] + Padding(v, 1)
    else
      [Symbol(v, b[0] / 4), Symbol(v, b[0] % 4 * 16 + b[1] / 16),
       Symbol(v, b[1] % 16 * 4 + b[2] / 64), Symbol(v, b[2] % 64)] + Encode(b[3..], v)
  }

  /** The j-th group of six bits of the bit string b, when all six exist. */
  function SextetAt(b: seq<Byte>, j: nat): Sextet
    requires 6 * j + 6 <= 8 * |b|
  {
    var q := j / 4 * 3;
    if j % 4 == 0 then b[q] / 4
    else if j % 4 == 1 then b[q] % 4 * 16 + b[q + 1] / 16
    else if j % 4 == 2 then b[q + 1] % 16 * 4 + b[q + 2] / 64
    else b[q + 2] % 64
  }

  lemma EncodeHead(b: seq<Byte>, v: Variant, j: nat)
    requires j < 4 && 6 * j + 6 <= 8 * |b|
    ensures j < |Encode(b, v)| && Encode(b, v)[j] == Symbol(v, SextetAt(b, j))
  {
    if |b| == 1 {
      assert j == 0;
    } else if |b| == 2 {
      assert j <= 1;
    }
  }

  lemma SextetTail(b: seq<Byte>, j: nat)
    requires j >= 4 && 6 * j + 6 <= 8 * |b|
    ensures 6 * (j - 4) + 6 <= 8 * |b[3..]| && SextetAt(b, j) == SextetAt(b[3..], j - 4)
  {
    assert j / 4 == (j - 4) / 4 + 1 && j % 4 == (j - 4) % 4;
  }

  /** Every complete group of six bits becomes the symbol at its own index. */
  lemma {:induction false} EncodeAt(b: seq<Byte>, v: Variant, j: nat)
    requires 6 * j + 6 <= 8 * |b|
    ensures j < |Encode(b, v)| && Encode(b, v)[j] == Symbol(v, SextetAt(b, j))
  {
    if j < 4 {
      EncodeHead(b, v, j);
    } else {
      EncodeAt(b[3..], v, j - 4);
      SextetTail(b, j);
      assert Encode(b, v)[j] == Encode(b[3..], v)[j - 4];
    }
  }

  /** Prefixing shift + 3k bytes moves the groups that lie inside r by exactly 4k symbols. */
  lemma SextetShift(p: seq<Byte>, r: seq<Byte>, s: seq<Byte>, zeros: seq<Byte>, j: nat)
    requires |zeros| == |p| % 3
    requires 6 * j >= 8 * |zeros| && 6 * j + 6 <= 8 * |zeros + r|
    ensures 6 * (|p| / 3 * 4 + j) + 6 <= 8 * |p + r + s|
    ensures SextetAt(zeros + r, j) == SextetAt(p + r + s, |p| / 3 * 4 + j)
  {
    var k := |p| / 3;
    var q := j / 4 * 3;
    var text := p + r + s;
    assert (k * 4 + j) / 4 == k + j / 4 && (k * 4 + j) % 4 == j % 4;
    assert (k * 4 + j) / 4 * 3 == 3 * k + q;
    assert forall i :: |zeros| <= i < |zeros| + |r| ==> text[3 * k + i] == (zeros + r)[i];
  }

  function CeilDiv(a: nat, b: nat): nat
    requires b > 0
  {
    (a + b - 1) / b
  }

  /** Complete six-bit groups made of value bits only, for a value starting at `shift` modulo 3. */
  function WindowStart(shift: nat): nat { CeilDiv(shift * 8, 6) }
  function WindowEnd(shift: nat, length: nat): nat { (shift + length) * 8 / 6 }

  lemma WindowFits(shift: nat, value: seq<Byte>, v: Variant)
    requires shift < 3 && |value| > 0
    ensures WindowStart(shift) <= WindowEnd(shift, |value|) <= |Encode(seq(shift, _ => 0) + value, v)|
  {
    var shifted: seq<Byte> := seq(shift, _ => 0) + value;
    var end := WindowEnd(shift, |value|);
    EncodeAt(shifted, v, end - 1);
  }

  function Window(value: seq<Byte>, shift: nat, v: Variant): seq<Byte>
    requires shift < 3 && |value| > 0
  {
    WindowFits(shift, value, v);
    Encode(seq(shift, _ => 0) + value, v)[WindowStart(shift)..WindowEnd(shift, |value|)]
  }

  /** A window is searched for in every artifact, so an empty one would match everything. */
  lemma WindowNonEmpty(value: seq<Byte>, shift: nat, v: Variant)
    requires shift < 3 && |value| > 0
    ensures Window(value, shift, v) == [] <==> |value| == 1 && shift == 1
  {
    WindowFits(shift, value, v);
  }

  /** Each symbol of a window is the symbol of the surrounded value's encoding, four per three bytes on. */
  lemma WindowSymbol(p: seq<Byte>, value: seq<Byte>, s: seq<Byte>, zeros: seq<Byte>, v: Variant, j: nat)
    requires |zeros| == |p| % 3 && WindowStart(|zeros|) <= j < WindowEnd(|zeros|, |value|)
    ensures var code, base := Encode(p + value + s, v), |p| / 3 * 4;
      j < |Encode(zeros + value, v)| && base + j < |code| && code[base + j] == Encode(zeros + value, v)[j]
  {
    assert 8 * |zeros| <= 6 * j && 6 * j + 6 <= 8 * |zeros + value|;
    EncodeAt(zeros + value, v, j);
    SextetShift(p, value, s, zeros, j);
    EncodeAt(p + value + s, v, |p| / 3 * 4 + j);
  }

  /** The window for |p| mod 3 occurs in the encoding of p + value + s, whatever surrounds value. */
  lemma AlignmentComplete(p: seq<Byte>, value: seq<Byte>, s: seq<Byte>, v: Variant)
    requires |value| > 0
    ensures Occurs(Window(value, |p| % 3, v), Encode(p + value + s, v))
  {
    var zeros: seq<Byte> := seq(|p| % 3, _ => 0);
    WindowFits(|zeros|, value, v);
    WindowOccurs(p, value, s, zeros, v, |p| / 3 * 4, WindowStart(|zeros|), WindowEnd(|zeros|, |value|));
  }

  lemma WindowOccurs(p: seq<Byte>, value: seq<Byte>, s: seq<Byte>, zeros: seq<Byte>, v: Variant, base: nat,
                     start: nat, end: nat)
    requires |zeros| == |p| % 3 && base == |p| / 3 * 4
    requires start == WindowStart(|zeros|) <= end == WindowEnd(|zeros|, |value|) <= |Encode(zeros + value, v)|
    ensures Occurs(Encode(zeros + value, v)[start..end], Encode(p + value + s, v))
  {
    var shifted, code := Encode(zeros + value, v), Encode(p + value + s, v);
    forall j | start <= j < end
      ensures Same(shifted, code, base, j)
    {
      WindowSymbol(p, value, s, zeros, v, j);
    }
    OccursShifted(shifted, start, end, code, base);
  }

  lemma SymbolInjective(v: Variant, a: Sextet, b: Sextet)
    requires Symbol(v, a) == Symbol(v, b)
    ensures a == b
  {
  }

  /** The window cannot be widened: the symbol before it, and the symbol after it unless the value ends
      on a group boundary, both change with the bytes around the value. */
  lemma WindowIsWidest(value: seq<Byte>, shift: nat, v: Variant)
    requires |value| > 0 && shift < 3
    ensures shift > 0 ==>
      var start := WindowStart(shift);
      var low, high := Encode(seq(shift, _ => 0) + value, v), Encode(seq(shift, _ => 255) + value, v);
      0 < start <= |low| && start <= |high| && low[start - 1] != high[start - 1]
    ensures (shift + |value|) % 3 != 0 ==>
      var end := WindowEnd(shift, |value|);
      var text := seq(shift, _ => 0) + value;
      var low, high := Encode(text + [0], v), Encode(text + [255], v);
      end < |low| && end < |high| && low[end] != high[end]
  {
    var zeros: seq<Byte> := seq(shift, _ => 0);
    var ones: seq<Byte> := seq(shift, _ => 255);
    if shift > 0 {
      WidestBefore(zeros + value, ones + value, shift, v);
    }
    if (shift + |value|) % 3 != 0 {
      WidestAfter(zeros + value, v);
    }
  }

  lemma SextetsDiffer(a: seq<Byte>, b: seq<Byte>, shift: nat)
    requires 0 < shift < 3 && |a| > shift && |b| > shift
    requires a[shift - 1] == 0 && b[shift - 1] == 255
    ensures SextetAt(a, shift) != SextetAt(b, shift)
  {
    if shift == 1 {
      assert SextetAt(a, 1) == a[1] / 16 && SextetAt(b, 1) == 48 + b[1] / 16;
    } else {
      assert SextetAt(a, 2) == a[2] / 64 && SextetAt(b, 2) == 60 + b[2] / 64;
    }
  }

  lemma WidestBefore(a: seq<Byte>, b: seq<Byte>, shift: nat, v: Variant)
    requires 0 < shift < 3 && |a| > shift && |b| > shift
    requires a[shift - 1] == 0 && b[shift - 1] == 255
    ensures shift < |Encode(a, v)| && shift < |Encode(b, v)| && Encode(a, v)[shift] != Encode(b, v)[shift]
  {
    EncodeHead(a, v, shift);
    EncodeHead(b, v, shift);
    SextetsDiffer(a, b, shift);
    if Encode(a, v)[shift] == Encode(b, v)[shift] {
      SymbolInjective(v, SextetAt(a, shift), SextetAt(b, shift));
    }
  }

  lemma WidestAfter(text: seq<Byte>, v: Variant)
    requires |text| % 3 != 0
    ensures var end := |text| * 8 / 6;
      var low, high := Encode(text + [0], v), Encode(text + [255], v);
      end < |low| && end < |high| && low[end] != high[end]
  {
    var end := |text| * 8 / 6;
    var low, high := text + [0], text + [255];
    EncodeAt(low, v, end);
    EncodeAt(high, v, end);
    if Encode(low, v)[end] == Encode(high, v)[end] {
      SymbolInjective(v, SextetAt(low, end), SextetAt(high, end));
    }
  }

  function HexDigit(d: nat, upper: bool): Byte
    requires d < 16
  {
    if d < 10 then 48 + d else (if upper then 55 else 87) + d
  }

  /** JSON.stringify of one byte of UTF-8 text, without the enclosing quotes. */
  function JsonEscape(c: Byte): seq<Byte> {
    if c == 34 || c == 92 then [92, c]
    else if c == 8 then [92, 98]
    else if c == 9 then [92, 116]
    else if c == 10 then [92, 110]
    else if c == 12 then [92, 102]
    else if c == 13 then [92, 114]
    else if c < 32 then [92, 117, 48, 48, HexDigit(c / 16, false), HexDigit(c % 16, false)]
    else [c]
  }

  predicate Unreserved(c: Byte) {
    || 65 <= c <= 90 || 97 <= c <= 122 || 48 <= c <= 57
    || c in {33, 39, 40, 41, 42, 45, 46, 95, 126}
  }

  /** encodeURIComponent of one byte of UTF-8 text. */
  function UriEscape(c: Byte): seq<Byte> {
    if Unreserved(c) then [c] else [37, HexDigit(c / 16, true), HexDigit(c % 16, true)]
  }

  function EscapeAll(escape: Byte -> seq<Byte>, text: seq<Byte>): seq<Byte> {
    if text == [] then [] else escape(text[0]) + EscapeAll(escape, text[1..])
  }

  function Render(channel: Channel, text: seq<Byte>): seq<Byte> {
    match channel
    case Raw => text
    case Json => EscapeAll(JsonEscape, text)
    case Uri => EscapeAll(UriEscape, text)
    case Base64(v) => Encode(text, v)
  }

  lemma {:induction false} EscapeConcat(escape: Byte -> seq<Byte>, a: seq<Byte>, b: seq<Byte>)
    ensures EscapeAll(escape, a + b) == EscapeAll(escape, a) + EscapeAll(escape, b)
  {
    if a == [] {
      assert a + b == b;
    } else {
      assert (a + b)[1..] == a[1..] + b;
      EscapeConcat(escape, a[1..], b);
    }
  }

  lemma {:induction false} EscapeNonEmpty(escape: Byte -> seq<Byte>, text: seq<Byte>)
    requires text != [] && forall c :: escape(c) != []
    ensures EscapeAll(escape, text) != []
  {
    assert escape(text[0]) != [];
  }

  /** The forms the source lists, as a set: whole renderings, then one window per shift and alphabet. */
  ghost predicate IsForm(value: seq<Byte>, form: seq<Byte>)
    requires |value| > 0
  {
    IsWhole(value, form) || IsWindowBelow(value, form, 3)
  }

  ghost predicate IsWhole(value: seq<Byte>, form: seq<Byte>) {
    exists channel :: form == Render(channel, value)
  }

  ghost predicate IsWindowBelow(value: seq<Byte>, form: seq<Byte>, shifts: nat)
    requires |value| > 0 && shifts <= 3
  {
    exists shift, v :: 0 <= shift < shifts && form == Window(value, shift, v)
  }

  ghost predicate NoDuplicates<T>(s: seq<T>) {
    forall i, j :: 0 <= i < j < |s| ==> s[i] != s[j]
  }

  /** [...new Set(forms)]: the first occurrence of each form, in order. */
  method Unique(forms: seq<seq<Byte>>) returns (unique: seq<seq<Byte>>)
    ensures forall f :: f in unique <==> f in forms
    ensures NoDuplicates(unique)
  {
    unique := [];
    for i := 0 to |forms|
      invariant forall f :: f in unique <==> f in forms[..i]
      invariant NoDuplicates(unique)
    {
      if forms[i] !in unique {
        unique := unique + [forms[i]];
      }
    }
  }

  lemma RenderNonEmpty(channel: Channel, value: seq<Byte>)
    requires value != []
    ensures Render(channel, value) != []
  {
    match channel
    case Json => EscapeNonEmpty(JsonEscape, value);
    case Uri => EscapeNonEmpty(UriEscape, value);
    case _ =>
  }

  method WholeForms(value: seq<Byte>) returns (forms: seq<seq<Byte>>)
    ensures forall f :: f in forms <==> IsWhole(value, f)
  {
    forms := [value, EscapeAll(JsonEscape, value), EscapeAll(UriEscape, value),
              Encode(value, Standard), Encode(value, UrlSafe)];
    ghost var channels := [Raw, Json, Uri, Base64(Standard), Base64(UrlSafe)];
    assert forall i :: 0 <= i < 5 ==> forms[i] == Render(channels[i], value);
    forall channel
      ensures Render(channel, value) in forms
    {
      var i := match channel
        case Raw => 0
        case Json => 1
        case Uri => 2
        case Base64(v) => if v == Standard then 3 else 4;
      assert channel == channels[i] && forms[i] in forms;
    }
  }

  method WindowForms(value: seq<Byte>, shift: nat) returns (forms: seq<seq<Byte>>)
    requires |value| > 0 && shift < 3
    ensures forms == [Window(value, shift, Standard), Window(value, shift, UrlSafe)]
  {
    var shifted: seq<Byte> := seq(shift, _ => 0) + value;
    var start, end := CeilDiv(shift * 8, 6), |shifted| * 8 / 6;
    WindowFits(shift, value, Standard);
    WindowFits(shift, value, UrlSafe);
    forms := [Encode(shifted, Standard)[start..end], Encode(shifted, UrlSafe)[start..end]];
  }

  lemma NextWindows(value: seq<Byte>, form: seq<Byte>, shift: nat)
    requires |value| > 0 && shift < 3
    ensures IsWindowBelow(value, form, shift + 1) <==>
      || IsWindowBelow(value, form, shift)
      || form in [Window(value, shift, Standard), Window(value, shift, UrlSafe)]
  {
    if IsWindowBelow(value, form, shift + 1) {
      var k, v :| 0 <= k < shift + 1 && form == Window(value, k, v);
      assert v == Standard || v == UrlSafe;
    } else if form == Window(value, shift, Standard) {
    } else if form == Window(value, shift, UrlSafe) {
    }
  }

  lemma FormsNonEmpty(value: seq<Byte>, form: seq<Byte>)
    requires |value| > 1 && IsForm(value, form)
    ensures form != []
  {
    if IsWhole(value, form) {
      var channel :| form == Render(channel, value);
      RenderNonEmpty(channel, value);
    } else {
      var shift, v :| 0 <= shift < 3 && form == Window(value, shift, v);
      WindowNonEmpty(value, shift, v);
    }
  }

  method Representations(value: seq<Byte>) returns (forms: seq<seq<Byte>>)
    requires 16 <= |value| <= 4096
    ensures forall f :: f in forms <==> IsForm(value, f)
    ensures [] !in forms
    ensures NoDuplicates(forms)
  {
    var list := WholeForms(value);
    for shift := 0 to 3
      invariant forall f :: f in list <==> IsWhole(value, f) || IsWindowBelow(value, f, shift)
    {
      var windows := WindowForms(value, shift);
      list := list + windows;
      forall f {
        NextWindows(value, f, shift);
      }
    }
    forms := Unique(list);
    if [] in forms {
      FormsNonEmpty(value, []);
    }
  }

  /** Some form of the value occurs in every rendering of any text around it. */
  lemma SomeFormOccurs(channel: Channel, p: seq<Byte>, value: seq<Byte>, s: seq<Byte>) returns (form: seq<Byte>)
    requires |value| > 0
    ensures IsForm(value, form) && Occurs(form, Render(channel, p + value + s))
  {
    if channel.Base64? {
      form := Window(value, |p| % 3, channel.variant);
      AlignmentComplete(p, value, s, channel.variant);
    } else {
      form := Render(channel, value);
      match channel {
        case Raw => assert Occurs(form, value) by { assert OccursAt(form, value, 0); }
          OccursInContext(form, p, value, s);
        case Json => EscapedOccurs(JsonEscape, p, value, s);
        case Uri => EscapedOccurs(UriEscape, p, value, s);
      }
    }
  }

  lemma EscapedOccurs(escape: Byte -> seq<Byte>, p: seq<Byte>, value: seq<Byte>, s: seq<Byte>)
    ensures Occurs(EscapeAll(escape, value), EscapeAll(escape, p + value + s))
  {
    var form := EscapeAll(escape, value);
    EscapeConcat(escape, p + value, s);
    EscapeConcat(escape, p, value);
    assert OccursAt(form, form, 0);
    OccursInContext(form, EscapeAll(escape, p), form, EscapeAll(escape, s));
  }

  datatype Comparison = Comparison(name: string, forms: seq<seq<Byte>>)

  /** The labels compareBytes reports: those with some form included in the bytes. */
  function Labels(bytes: seq<Byte>, compiled: seq<Comparison>): seq<string> {
    if compiled == [] then []
    else (if exists f | f in compiled[0].forms :: Occurs(f, bytes) then [compiled[0].name] else [])
         + Labels(bytes, compiled[1..])
  }

  lemma {:induction false} LabelReported(bytes: seq<Byte>, compiled: seq<Comparison>, i: nat, form: seq<Byte>)
    requires i < |compiled| && form in compiled[i].forms && Occurs(form, bytes)
    ensures compiled[i].name in Labels(bytes, compiled)
  {
    if i > 0 {
      LabelReported(bytes, compiled[1..], i - 1, form);
    }
  }

  /** Wherever a text that contains the value is written in any channel, the value's label is reported. */
  lemma EmbeddedValueIsLabelled(compiled: seq<Comparison>, i: nat, value: seq<Byte>, channel: Channel,
                                p: seq<Byte>, s: seq<Byte>, before: seq<Byte>, after: seq<Byte>)
    requires i < |compiled| && 16 <= |value| <= 4096
    requires forall f :: f in compiled[i].forms <==> IsForm(value, f)
    ensures compiled[i].name in Labels(before + Render(channel, p + value + s) + after, compiled)
  {
    var form := SomeFormOccurs(channel, p, value, s);
    var rendering := Render(channel, p + value + s);
    OccursInContext(form, before, rendering, after);
    LabelReported(before + rendering + after, compiled, i, form);
  }
}
