/** resolveAliases of scripts/gate1-build-artifact-privacy.js: link targets resolved against an inventory,
    never against the disk, compared with pathname resolution (section 4.13 of POSIX.1-2017) on the tree
    the inventory lists. */
module AliasResolution {
  import opened Wrappers

  type Path = seq<string>

  // ---- the file tree, and what an inventory of it lists

  datatype Tree = Directory(children: map<string, Tree>) | Regular | Link(text: string)

  function Parent(path: Path): Path
    requires path != []
  {
    path[..|path| - 1]
  }

  function Base(path: Path): string
    requires path != []
  {
    path[|path| - 1]
  }

  function At(tree: Tree, path: Path): Option<Tree>
    decreases |path|
  {
    if path == [] then Some(tree)
    else match At(tree, Parent(path))
      case Some(Directory(children)) => if Base(path) in children then Some(children[Base(path)]) else None
      case _ => None
  }

  ghost predicate IsDirectory(tree: Tree, path: Path) {
    At(tree, path).Some? && At(tree, path).value.Directory?
  }

  datatype Kind = DirectoryEntry | FileEntry | AliasEntry(text: string)
  datatype Entry = Entry(path: Path, kind: Kind)

  function KindOf(tree: Tree): Kind {
    match tree
    case Directory(_) => DirectoryEntry
    case Regular => FileEntry
    case Link(text) => AliasEntry(text)
  }

  /** The map from relative names to entries describes exactly the tree below its root. */
  ghost predicate Mirrors(physical: map<Path, Kind>, tree: Tree) {
    && tree.Directory?
    && (forall p {:trigger p in physical} :: p in physical <==> p != [] && At(tree, p).Some?)
    && (forall p :: p in physical ==> physical[p] == KindOf(At(tree, p).value))
  }

  ghost predicate Describes(e: Entry, tree: Tree) {
    e.path != [] && At(tree, e.path).Some? && e.kind == KindOf(At(tree, e.path).value)
  }

  /** The entries are the paths of the tree below its root, each once. */
  ghost predicate Lists(entries: seq<Entry>, tree: Tree) {
    && tree.Directory?
    && (forall i :: 0 <= i < |entries| ==> Describes(entries[i], tree))
    && (forall i, j :: 0 <= i < j < |entries| ==> entries[i].path != entries[j].path)
    && (forall p :: p != [] && At(tree, p).Some? ==> exists i :: 0 <= i < |entries| && entries[i].path == p)
  }

  // ---- pathname resolution on the tree

  function Split(text: string): (parts: Path)
    ensures parts != []
  {
    if text == "" then [""]
    else
      var rest := Split(text[1..]);
      if text[0] == '/' then [""] + rest else [[text[0]] + rest[0]] + rest[1..]
  }

  datatype Stop = AboveRoot | Missing | NotDirectory | AnotherLink

  /** Where resolution stands: on the last of a chain of nested directories, or stopped. */
  datatype Walk = On(spine: seq<Tree>) | Stopped(why: Stop)

  predicate Nested(spine: seq<Tree>) {
    spine != [] && forall i :: 0 <= i < |spine| ==> spine[i].Directory?
  }

  predicate Moves(part: string) { part != "" && part != "." }

  function Step(spine: seq<Tree>, part: string): (w: Walk)
    requires Nested(spine)
    ensures w.On? ==> Nested(w.spine)
  {
    var here := spine[|spine| - 1];
    if !Moves(part) then On(spine)
    else if part == ".." then if |spine| == 1 then Stopped(AboveRoot) else On(spine[..|spine| - 1])
    else if part !in here.children then Stopped(Missing)
    else match here.children[part]
      case Directory(_) => On(spine + [here.children[part]])
      case Regular => Stopped(NotDirectory)
      case Link(_) => Stopped(AnotherLink)
  }

  function Resolve(spine: seq<Tree>, parts: Path): (w: Walk)
    requires Nested(spine)
    ensures w.On? ==> Nested(w.spine)
    decreases |parts|
  {
    if parts == [] then On(spine)
    else match Resolve(spine, Parent(parts))
      case On(reached) => Step(reached, Base(parts))
      case Stopped(why) => Stopped(why)
  }

  /** The directories from the root down to a path. */
  ghost function Spine(tree: Tree, path: Path): (spine: seq<Tree>)
    requires IsDirectory(tree, path)
    ensures Nested(spine) && |spine| == |path| + 1 && spine[|path|] == At(tree, path).value
    decreases |path|
  {
    if path == [] then [tree] else Spine(tree, Parent(path)) + [At(tree, path).value]
  }

  lemma {:induction false} StopsForGood(spine: seq<Tree>, parts: Path, k: nat)
    requires Nested(spine) && k <= |parts|
    ensures Resolve(spine, parts[..k]).Stopped? ==> Resolve(spine, parts) == Resolve(spine, parts[..k])
    decreases |parts|
  {
    if k < |parts| {
      assert Parent(parts)[..k] == parts[..k];
      StopsForGood(spine, Parent(parts), k);
    } else {
      assert parts[..k] == parts;
    }
  }

  lemma SpineSnoc(tree: Tree, dir: Path, part: string)
    requires IsDirectory(tree, dir) && IsDirectory(tree, dir + [part])
    ensures Spine(tree, dir + [part]) == Spine(tree, dir) + [At(tree, dir + [part]).value]
  {
    assert Parent(dir + [part]) == dir;
  }

  lemma AtSnoc(tree: Tree, dir: Path, part: string)
    requires IsDirectory(tree, dir)
    ensures var children := At(tree, dir).value.children;
      At(tree, dir + [part]) == if part in children then Some(children[part]) else None
  {
    assert Parent(dir + [part]) == dir && Base(dir + [part]) == part;
  }

  lemma StepDown(tree: Tree, dir: Path, part: string)
    requires IsDirectory(tree, dir) && Moves(part) && part != ".."
    ensures
      match At(tree, dir + [part])
      case None => Step(Spine(tree, dir), part) == Stopped(Missing)
      case Some(Directory(_)) => Step(Spine(tree, dir), part) == On(Spine(tree, dir + [part]))
      case Some(Regular) => Step(Spine(tree, dir), part) == Stopped(NotDirectory)
      case Some(Link(_)) => Step(Spine(tree, dir), part) == Stopped(AnotherLink)
  {
    AtSnoc(tree, dir, part);
    if IsDirectory(tree, dir + [part]) {
      SpineSnoc(tree, dir, part);
    }
  }

  lemma StepUp(tree: Tree, dir: Path)
    requires IsDirectory(tree, dir)
    ensures dir != [] ==> IsDirectory(tree, Parent(dir)) && Step(Spine(tree, dir), "..") == On(Spine(tree, Parent(dir)))
    ensures dir == [] ==> Step(Spine(tree, dir), "..") == Stopped(AboveRoot)
  {
    if dir != [] {
      var above := Spine(tree, Parent(dir));
      assert Spine(tree, dir)[..|dir|] == above;
    }
  }

  lemma StepStays(tree: Tree, dir: Path, part: string)
    requires IsDirectory(tree, dir) && !Moves(part)
    ensures Step(Spine(tree, dir), part) == On(Spine(tree, dir))
  {
  }

  ghost predicate EndsOn(tree: Tree, w: Walk, point: Path) {
    IsDirectory(tree, point) && w == On(Spine(tree, point))
  }

  /** The same resolution on paths: it tells apart directories that hold the same things. */
  ghost function NextPath(tree: Tree, at: Path, part: string): Option<Path> {
    if !Moves(part) then Some(at)
    else if part == ".." then if at == [] then None else Some(Parent(at))
    else if IsDirectory(tree, at + [part]) then Some(at + [part]) else None
  }

  ghost function Lands(tree: Tree, dir: Path, parts: Path): Option<Path>
    decreases |parts|
  {
    if parts == [] then Some(dir)
    else match Lands(tree, dir, Parent(parts))
      case Some(at) => NextPath(tree, at, Base(parts))
      case None => None
  }

  lemma NextPathIsStep(tree: Tree, at: Path, part: string)
    requires IsDirectory(tree, at)
    ensures
      match NextPath(tree, at, part)
      case Some(next) => EndsOn(tree, Step(Spine(tree, at), part), next)
      case None => Step(Spine(tree, at), part).Stopped?
  {
    hide At, Spine, Step;
    if Moves(part) {
      if part == ".." {
        StepUp(tree, at);
      } else {
        StepDown(tree, at, part);
      }
    } else {
      StepStays(tree, at, part);
    }
  }

  /** Both forms of resolution succeed together, and the path is where the chain of directories ends. */
  lemma {:induction false} LandsWhereItEnds(tree: Tree, dir: Path, parts: Path)
    requires IsDirectory(tree, dir)
    ensures
      match Lands(tree, dir, parts)
      case Some(point) => EndsOn(tree, Resolve(Spine(tree, dir), parts), point)
      case None => Resolve(Spine(tree, dir), parts).Stopped?
    decreases |parts|
  {
    if parts != [] {
      LandsWhereItEnds(tree, dir, Parent(parts));
      var before := Lands(tree, dir, Parent(parts));
      if before.Some? {
        NextPathIsStep(tree, before.value, Base(parts));
      }
    }
  }

  /** Resolution that succeeds never leaves the root and never stands anywhere but in a directory of the tree. */
  lemma StaysInside(tree: Tree, dir: Path, parts: Path, k: nat)
    requires IsDirectory(tree, dir) && k <= |parts| && Resolve(Spine(tree, dir), parts).On?
    ensures var point := Lands(tree, dir, parts[..k]);
      point.Some? && EndsOn(tree, Resolve(Spine(tree, dir), parts[..k]), point.value)
  {
    StopsForGood(Spine(tree, dir), parts, k);
    LandsWhereItEnds(tree, dir, parts[..k]);
  }

  // ---- the resolver

  /** The finite failure codes of the inventory passes. */
  datatype Failure = AliasTarget | AliasChain | AliasCycle | ForbiddenFile | DepthLimit | EntryLimit | FileLimit
    | TotalBytes | MapContract | ExternalMap
  type Result<T> = Wrappers.Result<T, Failure>

  predicate Control(c: char) { (c as int) < 32 || c as int == 127 }

  /** Relative, non-empty, and free of separators and control characters of other systems. */
  predicate TextAllowed(text: string) {
    text != "" && text[0] != '/' && forall i :: 0 <= i < |text| ==> text[i] !in {'\\', ':'} && !Control(text[i])
  }

  /** No directory reached by a component that moves lies deeper than the limit. */
  ghost predicate Shallow(start: seq<Tree>, parts: Path, maxDepth: nat)
    requires Nested(start)
    decreases |parts|
  {
    parts == [] ||
    (Shallow(start, Parent(parts), maxDepth) &&
     (Moves(Base(parts)) && Resolve(start, parts).On? ==> |Resolve(start, parts).spine| <= maxDepth + 1))
  }

  lemma {:induction false} ShallowThroughout(start: seq<Tree>, parts: Path, k: nat, maxDepth: nat)
    requires Nested(start) && k <= |parts| && Shallow(start, parts, maxDepth)
    ensures Shallow(start, parts[..k], maxDepth)
    decreases |parts|
  {
    if k < |parts| {
      assert Parent(parts)[..k] == parts[..k];
      ShallowThroughout(start, Parent(parts), k, maxDepth);
    } else {
      assert parts[..k] == parts;
    }
  }

  predicate NamesForbidden(parts: Path, forbidden: string -> bool) {
    exists k :: 0 <= k < |parts| && Moves(parts[k]) && parts[k] != ".." && forbidden(parts[k])
  }

  /** The link resolves, by POSIX rules and within the limits, to a directory of the tree. */
  ghost predicate Resolves(tree: Tree, dir: Path, text: string, maxDepth: nat, forbidden: string -> bool)
    requires IsDirectory(tree, dir)
  {
    var start, parts := Spine(tree, dir), Split(text);
    && TextAllowed(text) && |parts| <= maxDepth && !NamesForbidden(parts, forbidden)
    && Resolve(start, parts).On? && Shallow(start, parts, maxDepth)
  }

  /** Why a link is refused, in terms of where POSIX resolution would go. */
  ghost predicate Refuses(tree: Tree, dir: Path, text: string, maxDepth: nat, forbidden: string -> bool, why: Failure)
    requires IsDirectory(tree, dir)
  {
    var start, parts := Spine(tree, dir), Split(text);
    match why
    case AliasChain => Resolve(start, parts) == Stopped(AnotherLink)
    case AliasTarget => !TextAllowed(text)
      || (Resolve(start, parts).Stopped? && Resolve(start, parts).why != AnotherLink)
    case ForbiddenFile => NamesForbidden(parts, forbidden)
    case DepthLimit => |parts| > maxDepth || !Shallow(start, parts, maxDepth)
    case _ => false
  }

  method HasForeignChar(text: string) returns (found: bool)
    ensures found <==> exists i :: 0 <= i < |text| && (text[i] in {'\\', ':'} || Control(text[i]))
  {
    for i := 0 to |text|
      invariant forall k :: 0 <= k < i ==> text[k] !in {'\\', ':'} && !Control(text[k])
    {
      if text[i] in {'\\', ':'} || Control(text[i]) {
        return true;
      }
    }
    return false;
  }

  /** What one component does to the directory reached so far. */
  method Advance(physical: map<Path, Kind>, ghost tree: Tree, at: Path, part: string, maxDepth: nat,
                 forbidden: string -> bool) returns (r: Result<Path>)
    requires Mirrors(physical, tree) && IsDirectory(tree, at)
    ensures r.Ok? ==> NextPath(tree, at, part) == Some(r.value) && EndsOn(tree, Step(Spine(tree, at), part), r.value)
    ensures r.Ok? ==> (Moves(part) ==> |r.value| <= maxDepth)
                      && !(Moves(part) && part != ".." && forbidden(part))
    ensures r.Err? ==> r.error in {AliasChain, AliasTarget, ForbiddenFile, DepthLimit}
    ensures r == Err(AliasChain) ==> Step(Spine(tree, at), part) == Stopped(AnotherLink)
    ensures r == Err(AliasTarget) ==>
      Step(Spine(tree, at), part).Stopped? && Step(Spine(tree, at), part).why != AnotherLink
    ensures r == Err(ForbiddenFile) ==> Moves(part) && part != ".." && forbidden(part)
    ensures r == Err(DepthLimit) ==>
      Moves(part) && Step(Spine(tree, at), part).On? && |Step(Spine(tree, at), part).spine| > maxDepth + 1
  {
    if part == "" || part == "." {
      return Ok(at);
    }
    var resolved := at;
    if part == ".." {
      StepUp(tree, at);
      if resolved == [] {
        return Err(AliasTarget);
      }
      resolved := Parent(resolved);
    } else {
      StepDown(tree, at, part);
      if forbidden(part) {
        return Err(ForbiddenFile);
      }
      resolved := resolved + [part];
      assert resolved != [];
      if resolved in physical && physical[resolved].AliasEntry? {
        return Err(AliasChain);
      }
      if resolved !in physical || physical[resolved] != DirectoryEntry {
        return Err(AliasTarget);
      }
    }
    if |resolved| > maxDepth {
      return Err(DepthLimit);
    }
    return Ok(resolved);
  }

  /** The loop invariant of the resolver: the components so far led to this directory. */
  ghost predicate Reached(start: seq<Tree>, parts: Path, spine: seq<Tree>, maxDepth: nat)
    requires Nested(start)
  {
    Resolve(start, parts) == On(spine) && Shallow(start, parts, maxDepth)
  }

  ghost predicate ReachedAt(tree: Tree, dir: Path, parts: Path, at: Path, maxDepth: nat)
    requires IsDirectory(tree, dir)
  {
    && Lands(tree, dir, parts) == Some(at) && IsDirectory(tree, at)
    && Reached(Spine(tree, dir), parts, Spine(tree, at), maxDepth)
  }

  lemma ReachedNothing(tree: Tree, dir: Path, maxDepth: nat)
    requires IsDirectory(tree, dir)
    ensures ReachedAt(tree, dir, [], dir, maxDepth)
  {
  }

  lemma ReachedStep(start: seq<Tree>, parts: Path, k: nat, maxDepth: nat, spine: seq<Tree>)
    requires Nested(start) && Nested(spine) && k < |parts| && Reached(start, parts[..k], spine, maxDepth)
    ensures var w := Step(spine, parts[k]);
      && (w.On? && (Moves(parts[k]) ==> |w.spine| <= maxDepth + 1) ==>
        Reached(start, parts[..k + 1], w.spine, maxDepth))
      && (w.On? && Moves(parts[k]) && |w.spine| > maxDepth + 1 ==> !Shallow(start, parts, maxDepth))
      && (w.Stopped? ==> Resolve(start, parts) == w)
  {
    assert Parent(parts[..k + 1]) == parts[..k] && Base(parts[..k + 1]) == parts[k];
    StopsForGood(start, parts, k + 1);
    if Shallow(start, parts, maxDepth) {
      ShallowThroughout(start, parts, k + 1, maxDepth);
    }
  }

  /** Why the loop over the components stops. */
  ghost predicate Blocked(start: seq<Tree>, parts: Path, maxDepth: nat, forbidden: string -> bool, why: Failure)
    requires Nested(start)
  {
    match why
    case AliasChain => Resolve(start, parts) == Stopped(AnotherLink)
    case AliasTarget => Resolve(start, parts).Stopped? && Resolve(start, parts).why != AnotherLink
    case ForbiddenFile => NamesForbidden(parts, forbidden)
    case DepthLimit => !Shallow(start, parts, maxDepth)
    case _ => false
  }

  /** One turn of the loop over the components. */
  method FollowOne(physical: map<Path, Kind>, ghost tree: Tree, ghost dir: Path, at: Path, parts: Path,
                   k: nat, maxDepth: nat, forbidden: string -> bool) returns (r: Result<Path>)
    requires Mirrors(physical, tree) && IsDirectory(tree, dir) && k < |parts|
    requires ReachedAt(tree, dir, parts[..k], at, maxDepth)
    ensures r.Ok? ==>
      && ReachedAt(tree, dir, parts[..k + 1], r.value, maxDepth)
      && !(Moves(parts[k]) && parts[k] != ".." && forbidden(parts[k]))
    ensures r.Err? ==> Blocked(Spine(tree, dir), parts, maxDepth, forbidden, r.error)
  {
    ghost var start := Spine(tree, dir);
    assert Parent(parts[..k + 1]) == parts[..k] && Base(parts[..k + 1]) == parts[k];
    r := Advance(physical, tree, at, parts[k], maxDepth, forbidden);
    ghost var spine := Spine(tree, at);
    ReachedStep(start, parts, k, maxDepth, spine);
    if r.Ok? {
      assert Spine(tree, r.value) == Step(spine, parts[k]).spine;
    }
  }

  /** The loop over the components of a link. */
  method Follow(physical: map<Path, Kind>, ghost tree: Tree, dir: Path, parts: Path, maxDepth: nat,
                forbidden: string -> bool) returns (r: Result<Path>)
    requires Mirrors(physical, tree) && IsDirectory(tree, dir)
    ensures r.Ok? ==> !NamesForbidden(parts, forbidden) && ReachedAt(tree, dir, parts, r.value, maxDepth)
    ensures r.Err? ==> Blocked(Spine(tree, dir), parts, maxDepth, forbidden, r.error)
  {
    hide Resolve, Spine, Shallow, Blocked;
    var resolved := dir;
    ReachedNothing(tree, dir, maxDepth);
    assert parts[..0] == [];
    for k := 0 to |parts|
      invariant ReachedAt(tree, dir, parts[..k], resolved, maxDepth)
      invariant forall j :: 0 <= j < k ==> !(Moves(parts[j]) && parts[j] != ".." && forbidden(parts[j]))
    {
      var next := FollowOne(physical, tree, dir, resolved, parts, k, maxDepth, forbidden);
      if next.Err? {
        return next;
      }
      resolved := next.value;
    }
    assert parts[..|parts|] == parts;
    return Ok(resolved);
  }

  /** The one directory that the text of a link at this path leads to. */
  ghost predicate TargetOf(tree: Tree, path: Path, text: string, target: Path)
    requires path != [] && IsDirectory(tree, Parent(path))
  {
    && Lands(tree, Parent(path), Split(text)) == Some(target)
    && EndsOn(tree, Resolve(Spine(tree, Parent(path)), Split(text)), target)
  }

  /** Resolving one link: it succeeds iff POSIX resolution ends in a directory of the tree within the limits,
      and then names that directory. */
  method ResolveAlias(physical: map<Path, Kind>, ghost tree: Tree, alias: Path, text: string, maxDepth: nat,
                      forbidden: string -> bool) returns (r: Result<Path>)
    requires Mirrors(physical, tree) && alias != [] && IsDirectory(tree, Parent(alias))
    ensures r.Ok? <==> Resolves(tree, Parent(alias), text, maxDepth, forbidden)
    ensures r.Ok? ==> TargetOf(tree, alias, text, r.value)
    ensures r.Err? ==> Refuses(tree, Parent(alias), text, maxDepth, forbidden, r.error)
  {
    var foreign := HasForeignChar(text);
    if text == "" || text[0] == '/' || foreign {
      return Err(AliasTarget);
    }
    var parts := Split(text);
    if |parts| > maxDepth {
      return Err(DepthLimit);
    }
    r := Follow(physical, tree, Parent(alias), parts, maxDepth, forbidden);
    if r.Ok? {
      assert r.value == [] || r.value in physical;
    }
  }

  // ---- all links of an inventory

  /** An entry once its link, if it is one, carries the directory it stands for. */
  datatype Node = DirectoryNode | FileNode | AliasNode(target: Path)
  datatype Item = Item(path: Path, node: Node)

  ghost predicate AliasResolves(tree: Tree, e: Entry, maxDepth: nat, forbidden: string -> bool)
    requires Describes(e, tree)
  {
    e.kind.AliasEntry? ==> Resolves(tree, Parent(e.path), e.kind.text, maxDepth, forbidden)
  }

  lemma ParentIsDirectory(tree: Tree, path: Path)
    requires path != [] && At(tree, path).Some?
    ensures IsDirectory(tree, Parent(path))
  {
  }

  /** The resolved form of a path of the tree. */
  ghost predicate Stands(tree: Tree, path: Path, node: Node)
    requires path != [] && At(tree, path).Some?
  {
    match At(tree, path).value
    case Directory(_) => node == DirectoryNode
    case Regular => node == FileNode
    case Link(text) => node.AliasNode? && TargetOf(tree, path, text, node.target)
  }

  method Index(entries: seq<Entry>, ghost tree: Tree) returns (physical: map<Path, Kind>)
    requires Lists(entries, tree)
    ensures Mirrors(physical, tree)
  {
    physical := map[];
    for i := 0 to |entries|
      invariant forall p :: p in physical ==>
        p != [] && At(tree, p).Some? && physical[p] == KindOf(At(tree, p).value)
      invariant forall k :: 0 <= k < i ==> entries[k].path in physical
    {
      physical := physical[entries[i].path := entries[i].kind];
    }
    forall p | p != [] && At(tree, p).Some?
      ensures p in physical
    {
      var i :| 0 <= i < |entries| && entries[i].path == p;
    }
  }

  ghost predicate Settled(tree: Tree, e: Entry, item: Item)
    requires Describes(e, tree)
  {
    item.path == e.path && Stands(tree, e.path, item.node)
  }

  method ResolveEntry(physical: map<Path, Kind>, ghost tree: Tree, e: Entry, maxDepth: nat,
                      forbidden: string -> bool) returns (r: Result<Item>)
    requires Mirrors(physical, tree) && Describes(e, tree)
    ensures r.Ok? <==> AliasResolves(tree, e, maxDepth, forbidden)
    ensures r.Ok? ==> Settled(tree, e, r.value)
  {
    ParentIsDirectory(tree, e.path);
    match e.kind {
      case DirectoryEntry =>
        return Ok(Item(e.path, DirectoryNode));
      case FileEntry =>
        return Ok(Item(e.path, FileNode));
      case AliasEntry(text) =>
        var target := ResolveAlias(physical, tree, e.path, text, maxDepth, forbidden);
        return if target.Ok? then Ok(Item(e.path, AliasNode(target.value))) else Err(target.error);
    }
  }

  method ResolveEach(physical: map<Path, Kind>, entries: seq<Entry>, ghost tree: Tree, maxDepth: nat,
                     forbidden: string -> bool) returns (r: Result<seq<Item>>)
    requires Mirrors(physical, tree)
    requires forall i :: 0 <= i < |entries| ==> Describes(entries[i], tree)
    ensures r.Ok? <==> forall i :: 0 <= i < |entries| ==> AliasResolves(tree, entries[i], maxDepth, forbidden)
    ensures r.Ok? ==>
      |r.value| == |entries| && forall i :: 0 <= i < |entries| ==> Settled(tree, entries[i], r.value[i])
  {
    hide AliasResolves, Settled, Mirrors;
    var items: seq<Item> := [];
    for i := 0 to |entries|
      invariant |items| == i
      invariant forall k :: 0 <= k < i ==> AliasResolves(tree, entries[k], maxDepth, forbidden)
      invariant forall k :: 0 <= k < i ==> Settled(tree, entries[k], items[k])
    {
      var item := ResolveEntry(physical, tree, entries[i], maxDepth, forbidden);
      if item.Err? {
        return Err(item.error);
      }
      items := items + [item.value];
    }
    return Ok(items);
  }

  /** resolveAliases: it accepts iff every link resolves inside the tree without crossing another link, and
      then gives every link the directory POSIX resolution ends in. */
  method ResolveAliases(entries: seq<Entry>, ghost tree: Tree, maxDepth: nat, forbidden: string -> bool)
    returns (r: Result<seq<Item>>)
    requires Lists(entries, tree)
    ensures r.Ok? <==> forall i :: 0 <= i < |entries| ==> AliasResolves(tree, entries[i], maxDepth, forbidden)
    ensures r.Ok? ==>
      |r.value| == |entries| && forall i :: 0 <= i < |entries| ==> Settled(tree, entries[i], r.value[i])
  {
    var physical := Index(entries, tree);
    r := ResolveEach(physical, entries, tree, maxDepth, forbidden);
  }
}
