/** aliasCoverage of scripts/gate1-build-artifact-privacy.js: the breadth-first unfolding of a directory
    graph with aliases into the logical paths that lead to each physical entry. */
module AliasCoverage {
  import opened AliasResolution
  import opened Finite
  import opened Wrappers

  type Result<T> = Wrappers.Result<T, Failure>

  // ---- what the unfolding means

  /** A resolved inventory, as a map. */
  type Table = map<Path, Node>

  /** The physical directory an entry leads to. */
  function Leads(path: Path, node: Node): Option<Path> {
    match node
    case DirectoryNode => Some(path)
    case AliasNode(target) => Some(target)
    case FileNode => None
  }

  /** The physical directory a logical path stands for, following aliases from the root. */
  function DirAt(table: Table, logical: Path): Option<Path>
    decreases |logical|
  {
    if logical == [] then Some([])
    else match DirAt(table, Parent(logical))
      case None => None
      case Some(dir) =>
        var entry := dir + [Base(logical)];
        if entry in table then Leads(entry, table[entry]) else None
  }

  /** The physical entry a logical path names. */
  function EntryAt(table: Table, logical: Path): Option<Path> {
    if logical == [] then None
    else match DirAt(table, Parent(logical))
      case None => None
      case Some(dir) => if dir + [Base(logical)] in table then Some(dir + [Base(logical)]) else None
  }

  /** The physical directories a logical directory passes through, the root first. */
  function Chain(table: Table, logical: Path): (chain: seq<Path>)
    requires DirAt(table, logical).Some?
    ensures |chain| == |logical| + 1 && chain[|logical|] == DirAt(table, logical).value
    decreases |logical|
  {
    if logical == [] then [[]] else Chain(table, Parent(logical)) + [DirAt(table, logical).value]
  }

  /** A logical directory that passes twice through one physical directory. */
  ghost predicate Cyclic(table: Table, logical: Path) {
    DirAt(table, logical).Some? && !NoRepeat(Chain(table, logical))
  }

  ghost predicate HasCycle(table: Table) {
    exists logical :: Cyclic(table, logical)
  }

  ghost predicate IsFile(table: Table, logical: Path) {
    EntryAt(table, logical).Some? && table[EntryAt(table, logical).value].FileNode?
  }

  // ---- the unfolding is finite

  /** Every word of at most n letters. */
  ghost function Words(letters: set<string>, n: nat): set<Path> {
    if n == 0 then {[]}
    else Words(letters, n - 1) + (set w, x | w in Words(letters, n - 1) && x in letters :: w + [x])
  }

  lemma {:induction false} WordsComplete(letters: set<string>, n: nat, word: Path)
    requires |word| <= n && forall i :: 0 <= i < |word| ==> word[i] in letters
    ensures word in Words(letters, n)
    decreases n
  {
    if n > 0 && |word| <= n - 1 {
      WordsComplete(letters, n - 1, word);
    } else if n > 0 {
      WordsComplete(letters, n - 1, Parent(word));
      assert word == Parent(word) + [Base(word)];
    }
  }

  ghost function Names(table: Table): set<string> {
    set p | p in table && p != [] :: Base(p)
  }

  ghost function Target(node: Node): Path {
    if node.AliasNode? then node.target else []
  }

  ghost function Dirs(table: Table): set<Path> {
    {[]} + table.Keys + (set p | p in table :: Target(table[p]))
  }

  /** A bound on the unfolding that owes nothing to the configured limits. */
  ghost function Bound(table: Table): set<Path> {
    Words(Names(table), |Dirs(table)|)
  }

  lemma {:induction false} ChainInDirs(table: Table, logical: Path)
    requires DirAt(table, logical).Some?
    ensures forall i :: 0 <= i < |Chain(table, logical)| ==> Chain(table, logical)[i] in Dirs(table)
    ensures forall i :: 0 <= i < |logical| ==> logical[i] in Names(table)
    decreases |logical|
  {
    if logical != [] {
      ChainInDirs(table, Parent(logical));
      var entry := DirAt(table, Parent(logical)).value + [Base(logical)];
      assert Base(entry) == Base(logical);
      assert DirAt(table, logical).value in {entry, Target(table[entry])};
    }
  }

  /** Without a cycle in it, a logical directory is no deeper than there are directories to pass through. */
  lemma FiniteUnfolding(table: Table, logical: Path)
    requires DirAt(table, logical).Some? && NoRepeat(Chain(table, logical))
    ensures |logical| < |Dirs(table)| && logical in Bound(table)
  {
    ChainInDirs(table, logical);
    RepeatFree(Chain(table, logical), Dirs(table));
    WordsComplete(Names(table), |Dirs(table)|, logical);
  }

  lemma DirSnoc(table: Table, a: Path, b: Path, x: string)
    requires DirAt(table, a) == DirAt(table, b)
    ensures DirAt(table, a + [x]) == DirAt(table, b + [x])
  {
    assert Parent(a + [x]) == a && Parent(b + [x]) == b;
  }

  lemma {:induction false} SameSuffix(table: Table, a: Path, b: Path, suffix: Path)
    requires DirAt(table, a) == DirAt(table, b)
    ensures DirAt(table, a + suffix) == DirAt(table, b + suffix)
    decreases |suffix|
  {
    if suffix == [] {
      assert a + suffix == a && b + suffix == b;
    } else {
      var shorter, x := Parent(suffix), Base(suffix);
      SameSuffix(table, a, b, shorter);
      DirSnoc(table, a + shorter, b + shorter, x);
      assert a + suffix == (a + shorter) + [x] && b + suffix == (b + shorter) + [x];
    }
  }

  lemma {:induction false} ChainAt(table: Table, logical: Path, i: nat)
    requires DirAt(table, logical).Some? && i <= |logical|
    ensures DirAt(table, logical[..i]) == Some(Chain(table, logical)[i])
    decreases |logical|
  {
    if i < |logical| {
      ChainAt(table, Parent(logical), i);
      assert Parent(logical)[..i] == logical[..i];
    } else {
      assert logical[..i] == logical;
    }
  }

  lemma {:induction false} Again(table: Table, a: Path, loop: Path, n: nat) returns (longer: Path)
    requires DirAt(table, a).Some? && loop != [] && DirAt(table, a + loop) == DirAt(table, a)
    ensures |longer| >= n && DirAt(table, longer) == DirAt(table, a)
  {
    if n == 0 {
      longer := a;
    } else {
      var shorter := Again(table, a, loop, n - 1);
      SameSuffix(table, shorter, a, loop);
      longer := shorter + loop;
    }
  }

  /** Some logical directory is at least this deep. */
  ghost predicate Reaches(table: Table, n: nat) {
    exists p :: DirAt(table, p).Some? && |p| >= n
  }

  /** A cycle is exactly what makes the unfolding infinite. */
  lemma CycleIffInfinite(table: Table)
    ensures HasCycle(table) <==> forall n: nat :: Reaches(table, n)
  {
    if HasCycle(table) {
      var p :| Cyclic(table, p);
      var i, j :| 0 <= i < j < |Chain(table, p)| && Chain(table, p)[i] == Chain(table, p)[j];
      ChainAt(table, p, i);
      ChainAt(table, p, j);
      assert p[..i] + p[i..j] == p[..j];
      forall n: nat
        ensures Reaches(table, n)
      {
        var longer := Again(table, p[..i], p[i..j], n);
      }
    } else if Reaches(table, |Dirs(table)|) {
      var p :| DirAt(table, p).Some? && |p| >= |Dirs(table)|;
      assert !Cyclic(table, p);
      FiniteUnfolding(table, p);
    }
  }

  // ---- the traversal

  datatype Pending = Pending(physical: Path, logical: Path, ancestors: seq<Path>, depth: nat)

  datatype Coverage = Coverage(knownFiles: set<Path>, locations: map<Path, set<Path>>, nodes: map<Path, Item>,
                               children: map<Path, seq<Path>>)

  /** Each logical path recorded so far names the entry recorded for it. */
  ghost predicate Faithful(table: Table, nodes: map<Path, Item>) {
    forall p :: p in nodes ==>
      EntryAt(table, p) == Some(nodes[p].path) && nodes[p].path in table && nodes[p].node == table[nodes[p].path]
  }

  ghost predicate Rooted(nodes: map<Path, Item>) {
    && (forall p :: p in nodes ==> p != [])
    && (forall p, q {:trigger p in nodes, q in nodes} ::
          p in nodes && p != [] && q == Parent(p) && q != [] ==> q in nodes)
  }

  /** Every queued directory is what its logical path stands for, with the directories it passes through. */
  ghost predicate Sound(table: Table, q: Pending) {
    && DirAt(table, q.logical) == Some(q.physical)
    && q.ancestors == Chain(table, q.logical) && NoRepeat(q.ancestors) && q.depth == |q.logical|
  }

  ghost predicate AllSound(table: Table, queue: seq<Pending>) {
    forall i :: 0 <= i < |queue| ==> Sound(table, queue[i])
  }

  ghost predicate Distinct(queue: seq<Pending>) {
    forall i, j :: 0 <= i < j < |queue| ==> queue[i].logical != queue[j].logical
  }

  ghost predicate InQueue(queue: seq<Pending>, p: Path) {
    exists i :: 0 <= i < |queue| && queue[i].logical == p
  }

  /** The queue holds the root and every recorded path that leads to a directory, and nothing else. */
  ghost predicate Enqueued(queue: seq<Pending>, nodes: map<Path, Item>) {
    && InQueue(queue, [])
    && (forall p :: p in nodes && Leads(nodes[p].path, nodes[p].node).Some? ==> InQueue(queue, p))
    && (forall i :: 0 <= i < |queue| ==> queue[i].logical == [] || queue[i].logical in nodes)
  }

  /** Nothing is recorded below a directory still waiting, and below the current one only what was placed. */
  ghost predicate Untouched(queue: seq<Pending>, head: nat, placed: set<Path>, nodes: map<Path, Item>) {
    forall p, i :: p in nodes && head <= i < |queue| && p != [] && queue[i].logical == Parent(p) ==>
      i == head && nodes[p].path in placed
  }

  /** Every entry of a directory already taken from the queue is recorded under its logical path. */
  ghost predicate Expanded(table: Table, queue: seq<Pending>, head: nat, nodes: map<Path, Item>) {
    forall i, e {:trigger queue[i].logical + [Base(e)]} ::
      0 <= i < head && i < |queue| && e in table && e != [] && Parent(e) == queue[i].physical ==>
        queue[i].logical + [Base(e)] in nodes
  }

  ghost predicate Placed(dir: Pending, placed: set<Path>, nodes: map<Path, Item>) {
    && (forall e :: e in placed ==> e != [])
    && (forall e {:trigger dir.logical + [Base(e)]} :: e in placed && e != [] ==> dir.logical + [Base(e)] in nodes)
  }

  ghost predicate Inv(table: Table, queue: seq<Pending>, head: nat, placed: set<Path>, nodes: map<Path, Item>) {
    && Faithful(table, nodes) && Rooted(nodes) && AllSound(table, queue) && Distinct(queue)
    && Enqueued(queue, nodes) && Untouched(queue, head, placed, nodes) && Expanded(table, queue, head, nodes)
    && (head < |queue| ==> Placed(queue[head], placed, nodes))
  }

  function Under(dir: Pending, kid: Item): Path
    requires kid.path != []
  {
    dir.logical + [Base(kid.path)]
  }

  ghost predicate Fresh(table: Table, queue: seq<Pending>, head: nat, placed: set<Path>, kid: Item) {
    && head < |queue| && kid.path != [] && kid.path in table && table[kid.path] == kid.node
    && Parent(kid.path) == queue[head].physical && kid.path !in placed
  }

  lemma UnderIs(table: Table, dir: Pending, kid: Item)
    requires Sound(table, dir) && kid.path != [] && kid.path in table && table[kid.path] == kid.node
    requires Parent(kid.path) == dir.physical
    ensures var p := Under(dir, kid);
      && p != [] && Parent(p) == dir.logical && Base(p) == Base(kid.path)
      && EntryAt(table, p) == Some(kid.path) && DirAt(table, p) == Leads(kid.path, kid.node)
  {
    var p := Under(dir, kid);
    assert Parent(p) == dir.logical;
    assert dir.physical + [Base(kid.path)] == kid.path;
  }

  lemma NotYetRecorded(queue: seq<Pending>, head: nat, placed: set<Path>, nodes: map<Path, Item>, p: Path, path: Path)
    requires Untouched(queue, head, placed, nodes) && head < |queue| && p != [] && Parent(p) == queue[head].logical
    requires path !in placed && (p in nodes ==> nodes[p].path == path)
    ensures p !in nodes
  {
  }

  lemma FaithfulGrows(table: Table, nodes: map<Path, Item>, p: Path, kid: Item)
    requires Faithful(table, nodes) && EntryAt(table, p) == Some(kid.path)
    requires kid.path in table && table[kid.path] == kid.node
    ensures Faithful(table, nodes[p := kid])
  {
  }

  lemma UntouchedGrows(queue: seq<Pending>, head: nat, placed: set<Path>, nodes: map<Path, Item>, p: Path, kid: Item)
    requires Untouched(queue, head, placed, nodes) && Distinct(queue) && head < |queue|
    requires p != [] && Parent(p) == queue[head].logical
    ensures Untouched(queue, head, placed + {kid.path}, nodes[p := kid])
  {
  }

  lemma PlacedGrows(dir: Pending, placed: set<Path>, nodes: map<Path, Item>, kid: Item)
    requires Placed(dir, placed, nodes) && kid.path != []
    ensures Placed(dir, placed + {kid.path}, nodes[Under(dir, kid) := kid])
  {
  }

  lemma UntouchedQueue(queue: seq<Pending>, head: nat, placed: set<Path>, nodes: map<Path, Item>, next: Pending)
    requires Untouched(queue, head, placed, nodes) && head < |queue|
    requires forall q :: q in nodes && q != [] ==> Parent(q) != next.logical
    ensures Untouched(queue + [next], head, placed, nodes)
  {
  }

  lemma ExpandedGrows(table: Table, queue: seq<Pending>, head: nat, nodes: map<Path, Item>, p: Path, kid: Item)
    requires Expanded(table, queue, head, nodes)
    ensures Expanded(table, queue, head, nodes[p := kid])
  {
  }

  lemma ExpandedQueue(table: Table, queue: seq<Pending>, head: nat, nodes: map<Path, Item>, next: Pending)
    requires Expanded(table, queue, head, nodes) && head < |queue|
    ensures Expanded(table, queue + [next], head, nodes)
  {
  }

  lemma DistinctGrows(queue: seq<Pending>, nodes: map<Path, Item>, next: Pending)
    requires Distinct(queue) && Enqueued(queue, nodes) && next.logical != [] && next.logical !in nodes
    ensures Distinct(queue + [next])
  {
  }

  lemma EnqueuedFile(queue: seq<Pending>, nodes: map<Path, Item>, p: Path, kid: Item)
    requires Enqueued(queue, nodes) && kid.node.FileNode?
    ensures Enqueued(queue, nodes[p := kid])
  {
  }

  lemma EnqueuedGrows(queue: seq<Pending>, nodes: map<Path, Item>, next: Pending, kid: Item)
    requires Enqueued(queue, nodes)
    ensures Enqueued(queue + [next], nodes[next.logical := kid])
  {
    var longer := queue + [next];
    assert longer[|queue|] == next;
    forall p | InQueue(queue, p)
      ensures InQueue(longer, p)
    {
      var i :| 0 <= i < |queue| && queue[i].logical == p;
      assert longer[i].logical == p;
    }
  }

  lemma RootedGrows(queue: seq<Pending>, nodes: map<Path, Item>, head: nat, p: Path, kid: Item)
    requires Rooted(nodes) && Enqueued(queue, nodes) && head < |queue| && p != [] && Parent(p) == queue[head].logical
    ensures Rooted(nodes[p := kid])
  {
  }

  /** Recording a file of the current directory. */
  lemma FileKeeps(table: Table, queue: seq<Pending>, head: nat, placed: set<Path>, nodes: map<Path, Item>, kid: Item)
    requires Inv(table, queue, head, placed, nodes) && Fresh(table, queue, head, placed, kid) && kid.node.FileNode?
    ensures Under(queue[head], kid) !in nodes
    ensures Inv(table, queue, head, placed + {kid.path}, nodes[Under(queue[head], kid) := kid])
  {
    UnderIs(table, queue[head], kid);
    var p := Under(queue[head], kid);
    NotYetRecorded(queue, head, placed, nodes, p, kid.path);
    FaithfulGrows(table, nodes, p, kid);
    RootedGrows(queue, nodes, head, p, kid);
    UntouchedGrows(queue, head, placed, nodes, p, kid);
    ExpandedGrows(table, queue, head, nodes, p, kid);
    PlacedGrows(queue[head], placed, nodes, kid);
    EnqueuedFile(queue, nodes, p, kid);
  }

  /** Recording an entry that leads to a directory the chain has not passed through. */
  lemma DirectoryKeeps(table: Table, queue: seq<Pending>, head: nat, placed: set<Path>, nodes: map<Path, Item>,
                       kid: Item, next: Pending)
    requires Inv(table, queue, head, placed, nodes) && Fresh(table, queue, head, placed, kid)
    requires Leads(kid.path, kid.node) == Some(next.physical) && next.logical == Under(queue[head], kid)
    requires Sound(table, next)
    ensures next.logical !in nodes
    ensures Inv(table, queue + [next], head, placed + {kid.path}, nodes[next.logical := kid])
  {
    UnderIs(table, queue[head], kid);
    var p := next.logical;
    NotYetRecorded(queue, head, placed, nodes, p, kid.path);
    FaithfulGrows(table, nodes, p, kid);
    RootedGrows(queue, nodes, head, p, kid);
    UntouchedGrows(queue, head, placed, nodes, p, kid);
    UntouchedQueue(queue, head, placed + {kid.path}, nodes[p := kid], next);
    ExpandedGrows(table, queue, head, nodes, p, kid);
    ExpandedQueue(table, queue, head, nodes[p := kid], next);
    PlacedGrows(queue[head], placed, nodes, kid);
    EnqueuedGrows(queue, nodes, next, kid);
    DistinctGrows(queue, nodes, next);
  }

  lemma SoundNext(table: Table, dir: Pending, kid: Item, target: Path)
    requires Sound(table, dir) && kid.path != [] && kid.path in table && table[kid.path] == kid.node
    requires Parent(kid.path) == dir.physical && Leads(kid.path, kid.node) == Some(target)
    ensures var p := Under(dir, kid);
      && DirAt(table, p) == Some(target) && Chain(table, p) == dir.ancestors + [target]
      && (target in dir.ancestors ==> Cyclic(table, p))
      && (target !in dir.ancestors ==> Sound(table, Pending(target, p, dir.ancestors + [target], dir.depth + 1)))
  {
    UnderIs(table, dir, kid);
    var chain := dir.ancestors + [target];
    if target in dir.ancestors {
      var i :| 0 <= i < |dir.ancestors| && dir.ancestors[i] == target;
      assert chain[i] == chain[|dir.ancestors|];
    }
  }

  /** The current directory is done once all its entries are placed. */
  lemma NextDirectory(table: Table, queue: seq<Pending>, head: nat, placed: set<Path>, nodes: map<Path, Item>)
    requires Inv(table, queue, head, placed, nodes) && head < |queue|
    requires forall e :: e in table && e != [] && Parent(e) == queue[head].physical ==> e in placed
    ensures Inv(table, queue, head + 1, {}, nodes)
  {
  }

  /** The queue cannot outgrow the finite unfolding. */
  lemma QueueBound(table: Table, queue: seq<Pending>)
    requires AllSound(table, queue) && Distinct(queue)
    ensures |queue| <= |Bound(table)|
  {
    var logicals := seq(|queue|, i requires 0 <= i < |queue| => queue[i].logical);
    forall i | 0 <= i < |queue|
      ensures logicals[i] in Bound(table)
    {
      FiniteUnfolding(table, queue[i].logical);
    }
    RepeatFree(logicals, Bound(table));
  }

  lemma RecordedBelow(table: Table, queue: seq<Pending>, nodes: map<Path, Item>, i: nat, p: Path)
    requires Expanded(table, queue, |queue|, nodes) && i < |queue| && EntryAt(table, p).Some?
    requires Parent(p) == queue[i].logical && DirAt(table, queue[i].logical) == Some(queue[i].physical)
    ensures p in nodes
  {
    var e := queue[i].physical + [Base(p)];
    assert Parent(e) == queue[i].physical && Base(e) == Base(p);
    assert p == queue[i].logical + [Base(e)];
  }

  lemma InTheQueue(queue: seq<Pending>, nodes: map<Path, Item>, l: Path) returns (i: nat)
    requires Enqueued(queue, nodes) && (l == [] || (l in nodes && Leads(nodes[l].path, nodes[l].node).Some?))
    ensures i < |queue| && queue[i].logical == l
  {
    assert InQueue(queue, l);
    i :| 0 <= i < |queue| && queue[i].logical == l;
  }

  lemma LeadsOn(table: Table, nodes: map<Path, Item>, l: Path)
    requires Faithful(table, nodes) && l in nodes && l != [] && DirAt(table, l).Some?
    ensures Leads(nodes[l].path, nodes[l].node).Some?
  {
  }

  /** With the queue worked off, every logical path has been recorded. */
  lemma {:induction false} NothingMissed(table: Table, queue: seq<Pending>, nodes: map<Path, Item>, p: Path)
    requires Inv(table, queue, |queue|, {}, nodes) && EntryAt(table, p).Some?
    ensures p in nodes
    decreases |p|
  {
    var l := Parent(p);
    if l != [] {
      NothingMissed(table, queue, nodes, l);
      LeadsOn(table, nodes, l);
    }
    var i := InTheQueue(queue, nodes, l);
    assert Sound(table, queue[i]);
    RecordedBelow(table, queue, nodes, i, p);
  }

  lemma NoCycleLeft(table: Table, queue: seq<Pending>, nodes: map<Path, Item>)
    requires Inv(table, queue, |queue|, {}, nodes)
    ensures !HasCycle(table)
  {
    forall p | DirAt(table, p).Some?
      ensures NoRepeat(Chain(table, p))
    {
      if p != [] {
        NothingMissed(table, queue, nodes, p);
      }
      assert InQueue(queue, p);
    }
  }

  // ---- a cycle is met before the finite unfolding runs out

  lemma BelowIsBounded(table: Table, dir: Pending, p: Path)
    requires Sound(table, dir) && EntryAt(table, p).Some? && Parent(p) == dir.logical
    ensures p in Bound(table) && |p| <= |Dirs(table)|
  {
    FiniteUnfolding(table, dir.logical);
    ChainInDirs(table, dir.logical);
    assert Base(dir.physical + [Base(p)]) == Base(p);
    forall i | 0 <= i < |p|
      ensures p[i] in Names(table)
    {
      assert i < |dir.logical| ==> p[i] == dir.logical[i];
    }
    WordsComplete(Names(table), |Dirs(table)|, p);
  }

  lemma RecordedIsBounded(table: Table, queue: seq<Pending>, head: nat, placed: set<Path>, nodes: map<Path, Item>)
    requires Inv(table, queue, head, placed, nodes)
    ensures nodes.Keys <= Bound(table)
  {
    forall p | p in nodes
      ensures p in Bound(table)
    {
      var l := Parent(p);
      if l != [] {
        LeadsOn(table, nodes, l);
      }
      var i := InTheQueue(queue, nodes, l);
      assert Sound(table, queue[i]);
      BelowIsBounded(table, queue[i], p);
    }
  }

  lemma NeverFull(table: Table, cov: Coverage, p: Path)
    requires cov.nodes.Keys <= Bound(table) && KnownExact(cov) && p in Bound(table) && p !in cov.nodes
    ensures |cov.nodes| < |Bound(table)| && |cov.knownFiles| < |Bound(table)|
  {
    SubsetCount(cov.nodes.Keys + {p}, Bound(table));
    SubsetCount(cov.knownFiles, cov.nodes.Keys);
  }

  // ---- the derived maps

  ghost predicate KnownExact(cov: Coverage) {
    forall p :: p in cov.knownFiles <==> p in cov.nodes && cov.nodes[p].node.FileNode?
  }

  /** locations is the inverse image of the recorded paths, file by file. */
  ghost predicate LocationsExact(cov: Coverage) {
    && (forall e, p :: e in cov.locations && p in cov.locations[e] ==>
          p in cov.knownFiles && p in cov.nodes && cov.nodes[p].path == e)
    && (forall p :: p in cov.knownFiles && p in cov.nodes ==>
          cov.nodes[p].path in cov.locations && p in cov.locations[cov.nodes[p].path])
    && (forall e :: e in cov.locations ==> cov.locations[e] != {})
  }

  /** Whatever children lists has been recorded, and hangs under that parent. */
  ghost predicate Inside(children: map<Path, seq<Path>>, paths: set<Path>) {
    forall l, c :: l in children && c in children[l] ==> c in paths && c != [] && Parent(c) == l
  }

  ghost predicate Complete(children: map<Path, seq<Path>>, paths: set<Path>) {
    forall p :: p in paths && p != [] ==> Parent(p) in children && p in children[Parent(p)]
  }

  /** children lists each recorded path once, under its parent. */
  ghost predicate ChildrenExact(children: map<Path, seq<Path>>, paths: set<Path>) {
    && (forall l :: l in children ==> NoRepeat(children[l]))
    && Inside(children, paths) && Complete(children, paths)
  }

  ghost predicate Derived(cov: Coverage) {
    KnownExact(cov) && LocationsExact(cov) && ChildrenExact(cov.children, cov.nodes.Keys)
  }

  /** What coverage promises: exactly the logical paths of the graph, and the exact inverse image per file. */
  ghost predicate Unfolds(table: Table, cov: Coverage) {
    && (forall p :: p in cov.nodes <==> EntryAt(table, p).Some?)
    && Faithful(table, cov.nodes) && Derived(cov)
  }

  function Siblings(children: map<Path, seq<Path>>, l: Path): seq<Path> {
    if l in children then children[l] else []
  }

  lemma OneMoreChild(siblings: seq<Path>, p: Path)
    requires NoRepeat(siblings) && p !in siblings
    ensures NoRepeat(siblings + [p]) && forall c :: c in siblings + [p] <==> c in siblings || c == p
  {
    var longer := siblings + [p];
    forall c
      ensures c in longer <==> c in siblings || c == p
    {
      if c in siblings {
        var i :| 0 <= i < |siblings| && siblings[i] == c;
        assert longer[i] == c;
      }
      assert longer[|siblings|] == p;
    }
  }

  lemma InsideGrows(children: map<Path, seq<Path>>, paths: set<Path>, l: Path, p: Path, longer: seq<Path>)
    requires Inside(children, paths) && p != [] && Parent(p) == l
    requires forall c :: c in longer <==> c in Siblings(children, l) || c == p
    ensures Inside(children[l := longer], paths + {p})
  {
    var after := children[l := longer];
    forall m, c | m in after && c in after[m]
      ensures c in paths + {p} && c != [] && Parent(c) == m
    {
      if m == l {
        assert c in Siblings(children, l) || c == p;
      } else {
        assert c in children[m];
      }
    }
    assert Inside(after, paths + {p});
  }

  lemma CompleteGrows(children: map<Path, seq<Path>>, paths: set<Path>, l: Path, p: Path, longer: seq<Path>)
    requires Complete(children, paths) && p != [] && Parent(p) == l
    requires forall c :: c in longer <==> c in Siblings(children, l) || c == p
    ensures Complete(children[l := longer], paths + {p})
  {
  }

  lemma ChildrenGrow(children: map<Path, seq<Path>>, paths: set<Path>, l: Path, p: Path)
    requires ChildrenExact(children, paths) && p != [] && Parent(p) == l && p !in paths
    ensures ChildrenExact(children[l := Siblings(children, l) + [p]], paths + {p})
  {
    var siblings := Siblings(children, l);
    var longer := siblings + [p];
    OneMoreChild(siblings, p);
    InsideGrows(children, paths, l, p, longer);
    CompleteGrows(children, paths, l, p, longer);
    var after := children[l := longer];
    forall m | m in after
      ensures NoRepeat(after[m])
    {
      assert m == l || after[m] == children[m];
    }
  }

  lemma LocationsGrow(cov: Coverage, p: Path, kid: Item, children: map<Path, seq<Path>>)
    requires KnownExact(cov) && LocationsExact(cov) && p !in cov.nodes && kid.node.FileNode?
    ensures var known := if kid.path in cov.locations then cov.locations[kid.path] else {};
      var after := Coverage(cov.knownFiles + {p}, cov.locations[kid.path := known + {p}], cov.nodes[p := kid],
        children);
      KnownExact(after) && LocationsExact(after)
  {
    var known := if kid.path in cov.locations then cov.locations[kid.path] else {};
    var after := Coverage(cov.knownFiles + {p}, cov.locations[kid.path := known + {p}], cov.nodes[p := kid], children);
    assert p in known + {p};
    forall e, q | e in after.locations && q in after.locations[e]
      ensures q in after.knownFiles && q in after.nodes && after.nodes[q].path == e
    {
      if q != p {
        assert e in cov.locations && q in cov.locations[e];
      }
    }
    forall q | q in after.knownFiles && q in after.nodes
      ensures after.nodes[q].path in after.locations && q in after.locations[after.nodes[q].path]
    {
      if q != p {
        assert q in cov.knownFiles;
      }
    }
  }

  method AddNode(cov: Coverage, l: Path, kid: Item) returns (after: Coverage)
    requires Derived(cov) && kid.path != [] && l + [Base(kid.path)] !in cov.nodes && !kid.node.FileNode?
    ensures Derived(after) && after.nodes == cov.nodes[l + [Base(kid.path)] := kid]
    ensures after.knownFiles == cov.knownFiles
  {
    var relative := l + [Base(kid.path)];
    assert Parent(relative) == l;
    ChildrenGrow(cov.children, cov.nodes.Keys, l, relative);
    after := cov.(nodes := cov.nodes[relative := kid],
                  children := cov.children[l := Siblings(cov.children, l) + [relative]]);
    assert after.nodes.Keys == cov.nodes.Keys + {relative};
  }

  method AddFile(cov: Coverage, l: Path, kid: Item) returns (after: Coverage)
    requires Derived(cov) && kid.path != [] && l + [Base(kid.path)] !in cov.nodes && kid.node.FileNode?
    ensures Derived(after) && after.nodes == cov.nodes[l + [Base(kid.path)] := kid]
    ensures after.knownFiles == cov.knownFiles + {l + [Base(kid.path)]}
  {
    var relative := l + [Base(kid.path)];
    var known := if kid.path in cov.locations then cov.locations[kid.path] else {};
    var children := cov.children[l := Siblings(cov.children, l) + [relative]];
    assert Parent(relative) == l;
    ChildrenGrow(cov.children, cov.nodes.Keys, l, relative);
    LocationsGrow(cov, relative, kid, children);
    after := Coverage(cov.knownFiles + {relative}, cov.locations[kid.path := known + {relative}],
                      cov.nodes[relative := kid], children);
    assert after.nodes.Keys == cov.nodes.Keys + {relative};
  }

  // ---- the whole traversal

  ghost predicate Tabulates(items: seq<Item>, table: Table) {
    && (forall i :: 0 <= i < |items| ==>
          items[i].path != [] && items[i].path in table && table[items[i].path] == items[i].node)
    && (forall i, j :: 0 <= i < j < |items| ==> items[i].path != items[j].path)
    && (forall p :: p in table ==> exists i :: 0 <= i < |items| && items[i].path == p)
  }

  /** The entries of one physical directory, each once. */
  ghost predicate Members(table: Table, dir: Path, group: seq<Item>) {
    && (forall k :: 0 <= k < |group| ==>
          && group[k].path != [] && group[k].path in table && table[group[k].path] == group[k].node
          && Parent(group[k].path) == dir)
    && (forall j, k :: 0 <= j < k < |group| ==> group[j].path != group[k].path)
  }

  ghost predicate Listed(group: seq<Item>, p: Path) {
    exists k :: 0 <= k < |group| && group[k].path == p
  }

  lemma MembersGrow(table: Table, dir: Path, group: seq<Item>, item: Item, seen: set<Path>)
    requires Members(table, dir, group) && Members(table, dir, [item])
    requires (forall k :: 0 <= k < |group| ==> group[k].path in seen) && item.path !in seen
    ensures Members(table, dir, group + [item])
  {
  }

  lemma MembersAlone(table: Table, item: Item)
    requires item.path != [] && item.path in table && table[item.path] == item.node
    ensures Members(table, Parent(item.path), []) && Members(table, Parent(item.path), [item])
  {
  }

  lemma ListedGrows(group: seq<Item>, item: Item)
    ensures Listed(group + [item], item.path)
    ensures forall p :: Listed(group, p) ==> Listed(group + [item], p)
  {
    var longer := group + [item];
    assert longer[|group|] == item;
    forall p | Listed(group, p)
      ensures Listed(longer, p)
    {
      var k :| 0 <= k < |group| && group[k].path == p;
      assert longer[k].path == p;
    }
  }

  ghost predicate Grouped(table: Table, groups: map<Path, seq<Item>>, seen: set<Path>) {
    && (forall d :: d in groups ==> Members(table, d, groups[d]))
    && (forall d, k :: d in groups && 0 <= k < |groups[d]| ==> groups[d][k].path in seen)
    && (forall p :: p in seen ==> p != [] && Parent(p) in groups && Listed(groups[Parent(p)], p))
  }

  /** Filing an entry under its parent directory. */
  function File(groups: map<Path, seq<Item>>, item: Item): map<Path, seq<Item>>
    requires item.path != []
  {
    var parent := Parent(item.path);
    groups[parent := (if parent in groups then groups[parent] else []) + [item]]
  }

  lemma GroupedGrows(table: Table, groups: map<Path, seq<Item>>, seen: set<Path>, item: Item)
    requires Grouped(table, groups, seen) && item.path != [] && item.path !in seen
    requires item.path in table && table[item.path] == item.node
    ensures Grouped(table, File(groups, item), seen + {item.path})
  {
    hide Members, Listed;
    var group := if Parent(item.path) in groups then groups[Parent(item.path)] else [];
    MembersAlone(table, item);
    MembersGrow(table, Parent(item.path), group, item, seen);
    ListedGrows(group, item);
  }

  /** The first k of a list of entries. */
  ghost function PathsOf(kids: seq<Item>, k: nat): set<Path>
    requires k <= |kids|
  {
    if k == 0 then {} else PathsOf(kids, k - 1) + {kids[k - 1].path}
  }

  lemma {:induction false} PathsOfExact(kids: seq<Item>, k: nat, p: Path)
    requires k <= |kids|
    ensures p in PathsOf(kids, k) <==> exists j :: 0 <= j < k && kids[j].path == p
  {
    if k > 0 {
      PathsOfExact(kids, k - 1, p);
      if p == kids[k - 1].path {
        assert exists j :: 0 <= j < k && kids[j].path == p;
      }
    }
  }

  lemma Others(items: seq<Item>, table: Table, i: nat)
    requires Tabulates(items, table) && i < |items|
    ensures items[i].path !in PathsOf(items, i)
  {
    PathsOfExact(items, i, items[i].path);
  }

  lemma AllItems(items: seq<Item>, table: Table)
    requires Tabulates(items, table)
    ensures PathsOf(items, |items|) == table.Keys
  {
    forall p
      ensures p in PathsOf(items, |items|) <==> p in table
    {
      PathsOfExact(items, |items|, p);
    }
  }

  function Filed(items: seq<Item>, i: nat): map<Path, seq<Item>>
    requires i <= |items| && forall k :: 0 <= k < |items| ==> items[k].path != []
  {
    if i == 0 then map[] else File(Filed(items, i - 1), items[i - 1])
  }

  lemma {:induction false} FiledIsGrouped(items: seq<Item>, table: Table, i: nat)
    requires Tabulates(items, table) && i <= |items|
    ensures Grouped(table, Filed(items, i), PathsOf(items, i))
  {
    if i > 0 {
      FiledIsGrouped(items, table, i - 1);
      Others(items, table, i - 1);
      GroupedGrows(table, Filed(items, i - 1), PathsOf(items, i - 1), items[i - 1]);
    }
  }

  /** The first loop of aliasCoverage: the entries of each physical directory, in inventory order. */
  method GroupByParent(items: seq<Item>) returns (groups: map<Path, seq<Item>>)
    requires forall k :: 0 <= k < |items| ==> items[k].path != []
    ensures groups == Filed(items, |items|)
  {
    groups := map[];
    for i := 0 to |items|
      invariant groups == Filed(items, i)
    {
      var parent := Parent(items[i].path);
      var group := if parent in groups then groups[parent] else [];
      groups := groups[parent := group + [items[i]]];
    }
  }

  datatype Limits = Limits(maxEntries: nat, maxDepth: nat, maxFiles: nat)

  ghost predicate AllLogical(table: Table, s: set<Path>) {
    forall p :: p in s ==> EntryAt(table, p).Some?
  }

  ghost predicate AllFiles(table: Table, s: set<Path>) {
    forall p :: p in s ==> IsFile(table, p)
  }

  ghost predicate ManyPaths(table: Table, n: nat) {
    exists s :: AllLogical(table, s) && |s| == n
  }

  ghost predicate ManyFiles(table: Table, n: nat) {
    exists s :: AllFiles(table, s) && |s| == n
  }

  /** Each refusal names something true of the graph. */
  ghost predicate Justified(table: Table, limits: Limits, why: Failure) {
    match why
    case AliasCycle => HasCycle(table)
    case DepthLimit => exists p :: EntryAt(table, p).Some? && |p| == limits.maxDepth + 1
    case EntryLimit => ManyPaths(table, limits.maxEntries + 1)
    case FileLimit => ManyFiles(table, limits.maxFiles + 1)
    case _ => false
  }

  /** Limits that the part of the unfolding before any cycle cannot reach. */
  ghost predicate Generous(table: Table, limits: Limits) {
    && limits.maxDepth >= |Dirs(table)|
    && limits.maxEntries >= |Bound(table)| && limits.maxFiles >= |Bound(table)|
  }

  datatype State = State(queue: seq<Pending>, cov: Coverage)

  ghost predicate Within(limits: Limits, cov: Coverage) {
    && |cov.nodes| <= limits.maxEntries && |cov.knownFiles| <= limits.maxFiles
    && forall p :: p in cov.nodes ==> |p| <= limits.maxDepth
  }

  lemma EntryLimitHolds(table: Table, limits: Limits, nodes: map<Path, Item>, p: Path)
    requires Faithful(table, nodes) && p !in nodes && EntryAt(table, p).Some? && |nodes| == limits.maxEntries
    ensures Justified(table, limits, EntryLimit)
  {
    var s := nodes.Keys + {p};
    assert |s| == |nodes| + 1;
    assert AllLogical(table, s);
  }

  lemma FileLimitHolds(table: Table, limits: Limits, cov: Coverage, p: Path)
    requires Faithful(table, cov.nodes) && KnownExact(cov) && p !in cov.nodes && IsFile(table, p)
    requires |cov.knownFiles| == limits.maxFiles
    ensures Justified(table, limits, FileLimit)
  {
    var s := cov.knownFiles + {p};
    assert |s| == |cov.knownFiles| + 1;
    assert AllFiles(table, s);
  }

  lemma DepthLimitHolds(table: Table, limits: Limits, p: Path)
    requires EntryAt(table, p).Some? && |p| > limits.maxDepth
    ensures Justified(table, limits, DepthLimit)
  {
    TooDeep(table, p, limits.maxDepth);
  }

  /** The three limits, checked in the order the source checks them; None lets the entry pass. */
  method CheckLimits(limits: Limits, cov: Coverage, depth: nat, kid: Item, ghost table: Table, ghost p: Path)
    returns (stop: Option<Failure>)
    requires Faithful(table, cov.nodes) && KnownExact(cov) && Within(limits, cov)
    requires p !in cov.nodes && |p| == depth && EntryAt(table, p) == Some(kid.path)
    requires kid.path in table && table[kid.path] == kid.node
    ensures stop.Some? ==>
      && Justified(table, limits, stop.value)
      && (|cov.nodes| >= limits.maxEntries || depth > limits.maxDepth || |cov.knownFiles| >= limits.maxFiles)
    ensures stop.None? ==>
      && |cov.nodes| < limits.maxEntries && depth <= limits.maxDepth
      && (kid.node.FileNode? ==> |cov.knownFiles| < limits.maxFiles)
  {
    if |cov.nodes| >= limits.maxEntries {
      EntryLimitHolds(table, limits, cov.nodes, p);
      return Some(EntryLimit);
    }
    if depth > limits.maxDepth {
      DepthLimitHolds(table, limits, p);
      return Some(DepthLimit);
    }
    if kid.node.FileNode? && |cov.knownFiles| + 1 > limits.maxFiles {
      FileLimitHolds(table, limits, cov, p);
      return Some(FileLimit);
    }
    return None;
  }

  lemma WithinGrows(limits: Limits, cov: Coverage, after: Coverage, p: Path, kid: Item)
    requires Within(limits, cov) && p !in cov.nodes && after.nodes == cov.nodes[p := kid]
    requires |cov.nodes| < limits.maxEntries && |p| <= limits.maxDepth && |after.knownFiles| <= limits.maxFiles
    ensures Within(limits, after)
  {
    assert after.nodes.Keys == cov.nodes.Keys + {p};
  }

  method VisitFile(ghost table: Table, limits: Limits, st: State, head: nat, kid: Item, ghost placed: set<Path>)
    returns (after: State)
    requires Inv(table, st.queue, head, placed, st.cov.nodes) && Derived(st.cov) && Within(limits, st.cov)
    requires Fresh(table, st.queue, head, placed, kid) && kid.node.FileNode?
    requires |st.cov.nodes| < limits.maxEntries && st.queue[head].depth + 1 <= limits.maxDepth
    requires |st.cov.knownFiles| < limits.maxFiles
    ensures Inv(table, after.queue, head, placed + {kid.path}, after.cov.nodes)
    ensures Derived(after.cov) && Within(limits, after.cov) && after.queue == st.queue
  {
    ghost var p := Under(st.queue[head], kid);
    FileKeeps(table, st.queue, head, placed, st.cov.nodes, kid);
    var cov := AddFile(st.cov, st.queue[head].logical, kid);
    WithinGrows(limits, st.cov, cov, p, kid);
    after := State(st.queue, cov);
  }

  method VisitDirectory(ghost table: Table, limits: Limits, st: State, head: nat, kid: Item, target: Path,
                        ghost placed: set<Path>) returns (after: State)
    requires Inv(table, st.queue, head, placed, st.cov.nodes) && Derived(st.cov) && Within(limits, st.cov)
    requires Fresh(table, st.queue, head, placed, kid) && Leads(kid.path, kid.node) == Some(target)
    requires |st.cov.nodes| < limits.maxEntries && st.queue[head].depth + 1 <= limits.maxDepth
    requires target !in st.queue[head].ancestors
    ensures Inv(table, after.queue, head, placed + {kid.path}, after.cov.nodes)
    ensures Derived(after.cov) && Within(limits, after.cov)
    ensures head < |after.queue| && after.queue[head] == st.queue[head]
  {
    var dir := st.queue[head];
    var next := Pending(target, Under(dir, kid), dir.ancestors + [target], dir.depth + 1);
    SoundNext(table, dir, kid, target);
    DirectoryKeeps(table, st.queue, head, placed, st.cov.nodes, kid, next);
    var cov := AddNode(st.cov, dir.logical, kid);
    WithinGrows(limits, st.cov, cov, next.logical, kid);
    after := State(st.queue + [next], cov);
  }

  /** The body of the inner loop. */
  method Visit(ghost table: Table, limits: Limits, st: State, head: nat, kid: Item, ghost placed: set<Path>)
    returns (r: Result<State>)
    requires Inv(table, st.queue, head, placed, st.cov.nodes) && Derived(st.cov) && Within(limits, st.cov)
    requires Fresh(table, st.queue, head, placed, kid)
    ensures r.Ok? ==>
      && Inv(table, r.value.queue, head, placed + {kid.path}, r.value.cov.nodes)
      && Derived(r.value.cov) && Within(limits, r.value.cov)
      && head < |r.value.queue| && r.value.queue[head] == st.queue[head]
    ensures r.Err? ==> Justified(table, limits, r.error) && (Generous(table, limits) ==> r.error == AliasCycle)
  {
    var dir := st.queue[head];
    ghost var relative := Under(dir, kid);
    UnderIs(table, dir, kid);
    NotYetRecorded(st.queue, head, placed, st.cov.nodes, relative, kid.path);
    BelowIsBounded(table, dir, relative);
    RecordedIsBounded(table, st.queue, head, placed, st.cov.nodes);
    NeverFull(table, st.cov, relative);
    var stop := CheckLimits(limits, st.cov, dir.depth + 1, kid, table, relative);
    if stop.Some? {
      return Err(stop.value);
    }
    match Leads(kid.path, kid.node) {
      case None =>
        var after := VisitFile(table, limits, st, head, kid, placed);
        return Ok(after);
      case Some(target) =>
        if target in dir.ancestors {
          SoundNext(table, dir, kid, target);
          return Err(AliasCycle);
        }
        var after := VisitDirectory(table, limits, st, head, kid, target, placed);
        return Ok(after);
    }
  }

  lemma {:induction false} TooDeep(table: Table, p: Path, maxDepth: nat)
    requires EntryAt(table, p).Some? && |p| > maxDepth
    ensures exists q :: EntryAt(table, q).Some? && |q| == maxDepth + 1
    decreases |p|
  {
    if |p| > maxDepth + 1 {
      TooDeep(table, Parent(p), maxDepth);
    }
  }

  lemma NextIsFresh(table: Table, queue: seq<Pending>, head: nat, kids: seq<Item>, k: nat)
    requires head < |queue| && Members(table, queue[head].physical, kids) && k < |kids|
    ensures Fresh(table, queue, head, PathsOf(kids, k), kids[k])
  {
    PathsOfExact(kids, k, kids[k].path);
  }

  lemma AllPlaced(table: Table, dir: Path, kids: seq<Item>)
    requires forall e :: e in table && e != [] && Parent(e) == dir ==> Listed(kids, e)
    ensures forall e :: e in table && e != [] && Parent(e) == dir ==> e in PathsOf(kids, |kids|)
  {
    forall e | e in table && e != [] && Parent(e) == dir
      ensures e in PathsOf(kids, |kids|)
    {
      PathsOfExact(kids, |kids|, e);
    }
  }

  /** The inner loop: every entry of the directory at the head of the queue. */
  method Expand(ghost table: Table, limits: Limits, start: State, head: nat, kids: seq<Item>) returns (r: Result<State>)
    requires head < |start.queue| && Inv(table, start.queue, head, {}, start.cov.nodes)
    requires Derived(start.cov) && Within(limits, start.cov)
    requires Members(table, start.queue[head].physical, kids)
    requires forall e :: e in table && e != [] && Parent(e) == start.queue[head].physical ==> Listed(kids, e)
    ensures r.Ok? ==>
      && Inv(table, r.value.queue, head + 1, {}, r.value.cov.nodes) && Derived(r.value.cov)
      && Within(limits, r.value.cov) && head < |r.value.queue|
    ensures r.Err? ==> Justified(table, limits, r.error) && (Generous(table, limits) ==> r.error == AliasCycle)
  {
    var st := start;
    ghost var dir := start.queue[head];
    for k := 0 to |kids|
      invariant head < |st.queue| && st.queue[head] == dir
      invariant Inv(table, st.queue, head, PathsOf(kids, k), st.cov.nodes)
      invariant Derived(st.cov) && Within(limits, st.cov)
    {
      NextIsFresh(table, st.queue, head, kids, k);
      var next := Visit(table, limits, st, head, kids[k], PathsOf(kids, k));
      if next.Err? {
        return next;
      }
      st := next.value;
    }
    AllPlaced(table, dir.physical, kids);
    NextDirectory(table, st.queue, head, PathsOf(kids, |kids|), st.cov.nodes);
    return Ok(st);
  }

  lemma Beginning(table: Table)
    ensures Inv(table, [Pending([], [], [[]], 0)], 0, {}, map[])
  {
    var queue := [Pending([], [], [[]], 0)];
    assert queue[0].logical == [];
  }

  lemma Ending(table: Table, queue: seq<Pending>, cov: Coverage)
    requires Inv(table, queue, |queue|, {}, cov.nodes) && Derived(cov)
    ensures Unfolds(table, cov) && !HasCycle(table)
  {
    forall p | EntryAt(table, p).Some?
      ensures p in cov.nodes
    {
      NothingMissed(table, queue, cov.nodes, p);
    }
    NoCycleLeft(table, queue, cov.nodes);
  }

  /** What was returned leaves no reason to refuse. */
  lemma NoReason(table: Table, limits: Limits, cov: Coverage, why: Failure)
    requires Unfolds(table, cov) && !HasCycle(table) && Within(limits, cov)
    ensures !Justified(table, limits, why)
  {
    if why == EntryLimit && Justified(table, limits, why) {
      var s :| AllLogical(table, s) && |s| == limits.maxEntries + 1;
      SubsetCount(s, cov.nodes.Keys);
      assert false;
    }
    if why == FileLimit && Justified(table, limits, why) {
      var s :| AllFiles(table, s) && |s| == limits.maxFiles + 1;
      assert s <= cov.knownFiles;
      SubsetCount(s, cov.knownFiles);
      assert false;
    }
  }

  /** aliasCoverage. It always terminates, also without limits: the measure is the size of the finite
      unfolding. It returns exactly the unfolding, or refuses for a reason that holds of the graph; and it
      refuses only if there is such a reason. Under limits out of reach the one reason left is a cycle. */
  method Cover(items: seq<Item>, ghost table: Table, limits: Limits) returns (r: Result<Coverage>)
    requires Tabulates(items, table)
    ensures r.Ok? <==> forall why :: !Justified(table, limits, why)
    ensures r.Ok? ==> Unfolds(table, r.value) && !HasCycle(table) && Within(limits, r.value)
    ensures r.Err? ==> Justified(table, limits, r.error)
    ensures Generous(table, limits) ==> (r.Ok? <==> !HasCycle(table)) && (r == Err(AliasCycle) <==> HasCycle(table))
  {
    var groups := GroupByParent(items);
    FiledIsGrouped(items, table, |items|);
    AllItems(items, table);
    var st := State([Pending([], [], [[]], 0)], Coverage({}, map[], map[], map[]));
    Beginning(table);
    var head := 0;
    while head < |st.queue|
      invariant head <= |st.queue| && Inv(table, st.queue, head, {}, st.cov.nodes)
      invariant Derived(st.cov) && Within(limits, st.cov)
      decreases |Bound(table)| - head
    {
      QueueBound(table, st.queue);
      var physical := st.queue[head].physical;
      var kids := if physical in groups then groups[physical] else [];
      var next := Expand(table, limits, st, head, kids);
      if next.Err? {
        return Err(next.error);
      }
      st := next.value;
      head := head + 1;
    }
    Ending(table, st.queue, st.cov);
    forall why
      ensures !Justified(table, limits, why)
    {
      NoReason(table, limits, st.cov, why);
    }
    return Ok(st.cov);
  }
}
