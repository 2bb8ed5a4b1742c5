/** absentMapTarget of scripts/gate1-build-artifact-privacy.js: two binary searches and a walk over
    ancestors decide that nothing in the inventory is, contains or shadows a source map target. */
module SourceMapTargets {
  /** A UTF-16 code unit: JavaScript compares and sorts strings by these. */
  type Unit = u: int | 0 <= u < 0x10000
  type Path = seq<Unit>

  const SLASH: Unit := 47
  const DOT: Unit := 46

  /** JavaScript's `<` on strings. */
  predicate Less(a: Path, b: Path) {
    b != [] && (a == [] || a[0] < b[0] || (a[0] == b[0] && Less(a[1..], b[1..])))
  }

  lemma {:induction false} LessTotal(a: Path, b: Path)
    ensures !(Less(a, b) && Less(b, a))
    ensures Less(a, b) || Less(b, a) || a == b
  {
    if a != [] && b != [] && a[0] == b[0] {
      LessTotal(a[1..], b[1..]);
      assert a == [a[0]] + a[1..] && b == [b[0]] + b[1..];
    }
  }

  lemma {:induction false} LessTransitive(a: Path, b: Path, c: Path)
    requires Less(a, b) && Less(b, c)
    ensures Less(a, c)
  {
    if a != [] && a[0] == b[0] == c[0] {
      LessTransitive(a[1..], b[1..], c[1..]);
    }
  }

  lemma {:induction false} PrefixNotLess(q: Path, n: Path)
    requires q <= n
    ensures !Less(n, q)
  {
    if q != [] {
      PrefixNotLess(q[1..], n[1..]);
    }
  }

  /** Names with a prefix are contiguous: anything between q and a name starting with q starts with q. */
  lemma {:induction false} PrefixInterval(q: Path, n: Path, m: Path)
    requires q <= m && !Less(n, q) && !Less(m, n)
    ensures q <= n
  {
    if q != [] {
      assert n != [] && n[0] == q[0];
      PrefixInterval(q[1..], n[1..], m[1..]);
      assert n == [n[0]] + n[1..] && q == [q[0]] + q[1..];
    }
  }

  ghost predicate Sorted(names: seq<Path>) {
    forall i, j :: 0 <= i < j < |names| ==> Less(names[i], names[j])
  }

  /** A relative path as path.join leaves it: no empty component and no leading "./". */
  ghost predicate Normal(p: Path) {
    && p != [] && p[0] != SLASH && p[|p| - 1] != SLASH
    && (forall i :: 0 < i < |p| && p[i] == SLASH ==> p[i - 1] != SLASH)
    && !([DOT, SLASH] <= p)
  }

  ghost predicate IsProperAncestor(a: Path, p: Path) {
    a != [] && a + [SLASH] <= p
  }

  function LastSlash(p: Path): (i: int)
    ensures -1 <= i < |p|
    ensures i >= 0 ==> p[i] == SLASH
    ensures forall k :: i < k < |p| ==> p[k] != SLASH
  {
    if p == [] then -1
    else if p[|p| - 1] == SLASH then |p| - 1
    else LastSlash(p[..|p| - 1])
  }

  /** path.posix.dirname on a relative path without empty components. */
  function Dirname(p: Path): Path {
    var i := LastSlash(p);
    if i < 0 then [DOT] else p[..i]
  }

  /** One step of dirname reaches the nearest proper ancestor, and every other one is above it. */
  lemma DirnameIsNearest(p: Path, a: Path)
    requires Normal(p)
    ensures var d := Dirname(p);
      if LastSlash(p) < 0 then d == [DOT] && !IsProperAncestor(a, p)
      else |d| < |p| && d != [DOT] && Normal(d) && IsProperAncestor(d, p)
           && (IsProperAncestor(a, p) <==> a == d || IsProperAncestor(a, d))
  {
    var i := LastSlash(p);
    if IsProperAncestor(a, p) {
      assert p[|a|] == SLASH;
    }
    if i >= 0 {
      var d := p[..i];
      assert p[..i + 1] == d + [SLASH];
      assert d + [SLASH] <= p && [DOT] + [SLASH] == [DOT, SLASH];
      if IsProperAncestor(a, p) && a != d {
        assert |a| <= i && a == p[..|a|];
        assert |a| < i;
        assert p[..|a| + 1] == d[..|a| + 1];
      }
      if IsProperAncestor(a, d) {
        assert d <= p;
      }
    }
  }

  /** The inventory leaves no room for the path: it is not the root, not listed, has nothing listed
      under it, and no known file sits above it. */
  ghost predicate Absent(relative: Path, knownFiles: set<Path>, names: seq<Path>) {
    && relative != [DOT]
    && relative !in names
    && (forall n :: n in names ==> !(relative + [SLASH] <= n))
    && (forall a :: IsProperAncestor(a, relative) ==> a !in knownFiles)
  }

  method LowerBound(names: seq<Path>, query: Path) returns (low: nat)
    requires Sorted(names)
    ensures low <= |names|
    ensures forall i :: 0 <= i < low ==> Less(names[i], query)
    ensures forall i :: low <= i < |names| ==> !Less(names[i], query)
  {
    low := 0;
    var high := |names|;
    while low < high
      invariant 0 <= low <= high <= |names|
      invariant forall i :: 0 <= i < low ==> Less(names[i], query)
      invariant forall i :: high <= i < |names| ==> !Less(names[i], query)
    {
      var middle := (low + high) / 2;
      if Less(names[middle], query) {
        forall i | 0 <= i < middle
          ensures Less(names[i], query)
        {
          LessTransitive(names[i], names[middle], query);
        }
        low := middle + 1;
      } else {
        forall i | middle < i < |names|
          ensures !Less(names[i], query)
        {
          if Less(names[i], query) {
            LessTransitive(names[middle], names[i], query);
          }
        }
        high := middle;
      }
    }
  }

  /** The first name not below q tells for all names whether one equals or starts with q. */
  lemma FirstDecides(names: seq<Path>, q: Path, low: nat, i: nat)
    requires Sorted(names) && low <= |names| && i < |names|
    requires forall k :: 0 <= k < low ==> Less(names[k], q)
    requires forall k :: low <= k < |names| ==> !Less(names[k], q)
    requires q <= names[i]
    ensures low <= i && q <= names[low] && (names[i] == q ==> low == i)
  {
    PrefixNotLess(q, names[i]);
    if low < i {
      assert Less(names[low], names[i]);
      LessTotal(names[low], names[i]);
      PrefixInterval(q, names[low], names[i]);
      PrefixNotLess(q, names[low]);
    }
  }

  method AbsentMapTarget(relative: Path, knownFiles: set<Path>, names: seq<Path>) returns (absent: bool)
    requires Sorted(names) && Normal(relative)
    ensures absent <==> Absent(relative, knownFiles, names)
  {
    if relative == [DOT] {
      return false;
    }
    var queries := [relative, relative + [SLASH]];
    for k := 0 to 2
      invariant k >= 1 ==> relative !in names
      invariant k == 2 ==> forall n :: n in names ==> !(relative + [SLASH] <= n)
    {
      var query := queries[k];
      var low := LowerBound(names, query);
      if low < |names| && (names[low] == relative || (query != relative && query <= names[low])) {
        assert names[low] in names;
        return false;
      }
      forall i | 0 <= i < |names|
        ensures if k == 0 then names[i] != relative else !(relative + [SLASH] <= names[i])
      {
        if query <= names[i] {
          FirstDecides(names, query, low, i);
        }
      }
    }
    var ancestor := Dirname(relative);
    DirnameIsNearest(relative, []);
    forall a {
      DirnameIsNearest(relative, a);
    }
    while ancestor != [DOT]
      invariant ancestor == [DOT] || (Normal(ancestor) && IsProperAncestor(ancestor, relative))
      invariant forall a :: IsProperAncestor(a, relative) && a in knownFiles ==>
        ancestor != [DOT] && (a == ancestor || IsProperAncestor(a, ancestor))
      decreases if ancestor == [DOT] then 0 else |ancestor|
    {
      if ancestor in knownFiles {
        return false;
      }
      forall a {
        DirnameIsNearest(ancestor, a);
      }
      var next := Dirname(ancestor);
      if next != [DOT] {
        AncestorTransitive(next, ancestor, relative);
      }
      ancestor := next;
    }
    return true;
  }

  lemma AncestorTransitive(a: Path, b: Path, c: Path)
    requires IsProperAncestor(a, b) && IsProperAncestor(b, c)
    ensures IsProperAncestor(a, c)
  {
    assert b <= c;
  }
}
