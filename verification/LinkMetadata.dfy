/** metadataLibrary().inspect and validateReport of scripts/gate1-link-rejection-metadata.js: a reader that may meet
    any file tree and any failure, its descriptors, its reserved budget, and the validator its reports satisfy. */
module LinkMetadata {
  import opened Finite
  import opened Wrappers

  // ---- limits and public vocabulary

  const ENTRIES_PER_WALK := 50000
  const ENTRY_VISITS := 100000
  const FILES_PER_WALK := 25000
  const DEPTH := 64
  const METADATA_CALLS := 500000
  const RESERVE := 512
  const PATH_BYTES := 4096
  const INVENTORY_PATH_BYTES := 8388608
  const LINK_BYTES := 4096
  const TOTAL_LINK_BYTES := 32768
  const FILE_BYTES := 67108864
  const INVENTORY_FILE_BYTES := 1073741824
  const LINK_COUNT := 65535
  const MAX_SAFE := 9007199254740991
  const FIXED := 5
  /** An output path is this long besides its part inside the output. */
  const OUTPUT_BYTES := 70
  /** The most descriptors ever held: the fixed ancestors and one chain of directories. */
  const MAX_OPEN := FIXED + DEPTH

  datatype Code = Input | Deadline | EntryLimit | FileLimit | DepthLimit | MetadataLimit | PathLimit | PathBudget
    | Encoding | ForbiddenFile | BadPath | BadFileType | FileSize | TotalBytes | Changed | Device | DirectoryIdentity
    | Unreadable | Cleanup | Metadata

  datatype Outcome = Diagnosed | Inconclusive | NotReproduced
  datatype Rejection = AncestorSymlink | FileLinkCount
  datatype Accounting = NotApplicable | Unaccounted | AllNames | NotAllNames

  datatype Counters = Counters(entryVisits: nat, walksCompleted: nat, directoriesOpened: nat, metadataCalls: nat,
                               linkTexts: nat, linkBytes: nat)

  const ZERO := Counters(0, 0, 0, 0, 0, 0)

  datatype Report = Report(approval: string, outcome: Outcome, reason: Option<Code>, rejection: Option<Rejection>,
                           observedLinkCount: Option<int>, matchingNames: Option<nat>, accounting: Accounting,
                           inventoryStable: bool, counters: Counters)

  /** validateReport, on the values of the fields. */
  predicate ValidReport(v: Report, approval: string) {
    var c := v.counters;
    && v.approval == approval
    && c.entryVisits <= 100000 && c.walksCompleted <= 2 && c.directoriesOpened <= 500000 && c.metadataCalls <= 500000
    && c.linkTexts <= 50000 && c.linkBytes <= 32768
    && c.directoriesOpened <= c.metadataCalls && c.linkTexts <= c.entryVisits && c.linkTexts <= c.metadataCalls
    && (v.outcome.Inconclusive? <==> v.reason.Some?)
    && if v.rejection == Some(FileLinkCount) then
         && v.observedLinkCount.Some? && 0 <= v.observedLinkCount.value <= LINK_COUNT && v.observedLinkCount.value != 1
         && c.entryVisits > 0
         && if v.outcome.Diagnosed? then
              && v.inventoryStable && c.walksCompleted == 2
              && v.matchingNames.Some? && 0 < v.matchingNames.value <= 25000
              && v.matchingNames.value <= v.observedLinkCount.value && c.entryVisits >= 2 * v.matchingNames.value
              && v.accounting == (if v.matchingNames.value == v.observedLinkCount.value then AllNames else NotAllNames)
            else
              v.outcome.Inconclusive? && v.accounting.Unaccounted? && !v.inventoryStable && v.matchingNames.None?
       else
         && v.observedLinkCount.None? && v.matchingNames.None? && !v.inventoryStable && v.accounting.NotApplicable?
         && (v.rejection == Some(AncestorSymlink) ==>
               c.entryVisits == 0 && c.walksCompleted == 0 && !v.outcome.NotReproduced?)
         && (v.rejection.None? ==> !v.outcome.Diagnosed?) && (v.outcome.NotReproduced? ==> c.walksCompleted == 1)
  }

  // ---- what the file system answers

  type Path = seq<string>

  /** Where a call is anchored: at a fixed ancestor, or under the descriptor of its parent directory. */
  datatype Anchor = Above(parent: Option<nat>, level: nat) | Inside(fd: nat, path: Path)

  datatype FileType = Directory | File | Symlink | OtherType

  /** What two looks at one thing are compared by; `finite` is whether both times are. */
  datatype Stamp = Stamp(dev: int, ino: int, mode: int, size: int, mtime: int, ctime: int, finite: bool, nlink: int)

  datatype Stat = Stat(ftype: FileType, stamp: Stamp)

  type Inode = (int, int)

  function InodeOf(s: Stat): Inode { (s.stamp.dev, s.stamp.ino) }

  predicate Bounded(n: int, maximum: int) { 0 <= n <= maximum }

  predicate Sane(stat: Stat) {
    var s := stat.stamp;
    && Bounded(s.dev, MAX_SAFE) && Bounded(s.ino, MAX_SAFE) && Bounded(s.mode, MAX_SAFE) && Bounded(s.size, MAX_SAFE)
    && s.ino != 0 && Bounded(s.nlink, LINK_COUNT) && s.finite
  }

  /** One answer of a directory read: a failure, the end, a name, or one refused as it stands. */
  datatype Listing = ReadFails | End | Named(name: string) | BadName(why: Code)

  datatype LinkText = LinkText(length: nat, readable: bool)

  /** The answers to every call in turn; None or false stands for an exception. A descriptor is asked for together
      with the anchor it was opened at. */
  datatype Io = Io(flags: bool, lstat: (nat, Anchor) -> Option<Stat>, fstat: (nat, nat, Anchor) -> Option<Stat>,
                   open: (nat, Anchor) -> bool, opendir: (nat, nat) -> bool, read: (nat, Path, nat) -> Listing,
                   readlink: (nat, Anchor) -> Option<LinkText>, late: nat -> bool, close: nat -> bool,
                   closeIterator: nat -> bool)

  /** Name rules left to the platform: refused names, malformed names, and encoded lengths. */
  datatype Rules = Rules(forbidden: string -> bool, malformed: string -> bool, pathBytes: Path -> nat)

  /** One tree of files, the order its directories list their names in, the lengths of its link texts, and the fixed
      ancestors above it. */
  datatype Tree = Tree(stats: map<Path, Stat>, names: Path -> seq<string>, links: Path -> nat, above: seq<Stat>)

  /** Whatever the file system does answer is true of this tree. */
  ghost predicate Truthful(io: Io, tree: Tree) {
    && (forall turn: nat, a: Anchor :: a.Inside? && io.lstat(turn, a).Some? ==>
          a.path in tree.stats && tree.stats[a.path] == io.lstat(turn, a).value)
    && (forall turn: nat, d: Path, k: nat :: io.read(turn, d, k).Named? ==>
          k < |tree.names(d)| && tree.names(d)[k] == io.read(turn, d, k).name)
    && (forall turn: nat, d: Path, k: nat :: io.read(turn, d, k).End? ==> |tree.names(d)| <= k)
  }

  /** Everything in the tree hangs in a directory that lists it. */
  ghost predicate Rooted(tree: Tree) {
    [] !in tree.stats && forall d: Path, name {:trigger d + [name]} :: d + [name] in tree.stats ==> Hangs(tree, d, name)
  }

  predicate Hangs(tree: Tree, d: Path, name: string) {
    (d == [] || (d in tree.stats && tree.stats[d].ftype.Directory?)) && name in tree.names(d)
  }

  // ---- a file system that answers, and a tree without anything to refuse

  /** The tree has something at this anchor. */
  predicate Located(tree: Tree, a: Anchor) {
    if a.Above? then a.level < |tree.above| else a.path in tree.stats
  }

  function StatAt(tree: Tree, a: Anchor): Stat
    requires Located(tree, a)
  {
    if a.Above? then tree.above[a.level] else tree.stats[a.path]
  }

  /** Every call is answered in time, and as the tree has it. */
  ghost predicate Serves(io: Io, tree: Tree) {
    && io.flags && (forall turn: nat :: !io.late(turn)) && (forall turn: nat :: io.close(turn))
    && (forall turn: nat :: io.closeIterator(turn))
    && (forall turn: nat, a: Anchor :: io.open(turn, a)) && (forall turn: nat, fd: nat :: io.opendir(turn, fd))
    && (forall turn: nat, a: Anchor :: Located(tree, a) ==> io.lstat(turn, a) == Some(StatAt(tree, a)))
    && (forall turn: nat, fd: nat, a: Anchor :: Located(tree, a) ==> io.fstat(turn, fd, a) == Some(StatAt(tree, a)))
    && (forall turn: nat, d: Path, k: nat ::
          io.read(turn, d, k) == if k < |tree.names(d)| then Named(tree.names(d)[k]) else End)
    && (forall turn: nat, a: Anchor :: a.Inside? && a.path in tree.stats ==>
          io.readlink(turn, a) == Some(LinkText(tree.links(a.path), true)))
  }

  /** The device of the ancestors, and the identity of the last of them, under which the output is. */
  function HomeOf(tree: Tree): int {
    if |tree.above| == FIXED then tree.above[0].stamp.dev else 0
  }

  function RootOf(tree: Tree): Inode {
    if |tree.above| == FIXED then InodeOf(tree.above[FIXED - 1]) else (0, 0)
  }

  /** One path of the tree, taken by itself, is nothing to refuse. */
  predicate Fits(tree: Tree, rules: Rules, p: Path)
    requires p in tree.stats && p != []
  {
    var s := tree.stats[p];
    && !rules.forbidden(p[|p| - 1]) && !rules.malformed(p[|p| - 1]) && OUTPUT_BYTES + rules.pathBytes(p) <= PATH_BYTES
    && Sane(s) && s.stamp.dev == HomeOf(tree) && !s.ftype.OtherType?
    && (s.ftype.File? ==>
          s.stamp.nlink > 0 && s.stamp.size <= FILE_BYTES && |Matching(tree.stats, InodeOf(s))| <= s.stamp.nlink)
    && (s.ftype.Symlink? ==> s.stamp.size <= LINK_BYTES && tree.links(p) <= LINK_BYTES)
    && (s.ftype.Directory? ==> InodeOf(s) != RootOf(tree))
  }

  predicate SharedFile(tree: Tree, p: Path, q: Path) {
    && p in tree.stats && q in tree.stats && tree.stats[p].ftype.File? && tree.stats[q].ftype.File?
    && InodeOf(tree.stats[p]) == InodeOf(tree.stats[q])
  }

  /** Ancestors are directories of one device; each path fits; directories are listed without repetition, exactly
      with what is in them, and are all different; and the names of one file agree on it. */
  ghost predicate Plain(tree: Tree, rules: Rules) {
    && Rooted(tree) && |tree.above| == FIXED
    && (forall level {:trigger Ancestral(tree, level)} :: 0 <= level < FIXED ==> Ancestral(tree, level))
    && (forall p {:trigger Fits(tree, rules, p)} :: p in tree.stats && p != [] ==> Fits(tree, rules, p))
    && (forall d {:trigger Repeats(tree, d)} :: !Repeats(tree, d))
    && (forall d, name {:trigger Hangs(tree, d, name)} :: Hangs(tree, d, name) ==> d + [name] in tree.stats)
    && AliasFree(tree.stats)
    && (forall p, q {:trigger SharedFile(tree, p, q)} :: SharedFile(tree, p, q) ==>
          tree.stats[p].stamp == tree.stats[q].stamp)
  }

  predicate Ancestral(tree: Tree, level: nat)
    requires level < |tree.above|
  {
    Sane(tree.above[level]) && tree.above[level].ftype.Directory? && tree.above[level].stamp.dev == HomeOf(tree)
  }

  ghost predicate Repeats(tree: Tree, d: Path) { !NoRepeat(tree.names(d)) }

  // ---- what a tree adds up to

  datatype Weights = Weights(files: nat, fileBytes: nat, pathBytes: nat, linkBytes: nat, calls: nat)

  function Plus(a: Weights, b: Weights): Weights {
    Weights(a.files + b.files, a.fileBytes + b.fileBytes, a.pathBytes + b.pathBytes, a.linkBytes + b.linkBytes,
            a.calls + b.calls)
  }

  predicate AtMost(a: Weights, b: Weights) {
    && a.files <= b.files && a.fileBytes <= b.fileBytes && a.pathBytes <= b.pathBytes && a.linkBytes <= b.linkBytes
    && a.calls <= b.calls
  }

  /** Calls for a look at an entry that has been read: twice and at its text where it is a link. */
  function LookCalls(ftype: FileType): nat {
    if ftype.Symlink? then 3 else 1
  }

  /** Calls for a visit to a directory at this depth: each on the way is looked at, opened and checked, and checked
      twice more when it is released; and the listing is opened and ends. */
  function VisitCalls(depth: nat): nat { 5 * depth + 2 }

  /** What one path of the tree weighs in one walk. */
  function Weight(tree: Tree, rules: Rules, p: Path): Weights {
    if p !in tree.stats then Weights(0, 0, 0, 0, 0)
    else
      var s := tree.stats[p];
      Weights(if s.ftype.File? then 1 else 0, if s.ftype.File? && s.stamp.size > 0 then s.stamp.size else 0,
              rules.pathBytes(p), if s.ftype.Symlink? then tree.links(p) else 0,
              1 + LookCalls(s.ftype) + if s.ftype.Directory? then VisitCalls(|p|) else 0)
  }

  lemma WeightOf(tree: Tree, rules: Rules, p: Path)
    ensures p in tree.stats ==>
      var s, w := tree.stats[p], Weight(tree, rules, p);
      && w.pathBytes == rules.pathBytes(p) && (s.ftype.Symlink? ==> w.linkBytes == tree.links(p))
      && (s.ftype.File? && s.stamp.size >= 0 ==> w.files == 1 && w.fileBytes == s.stamp.size)
  {
  }

  ghost function Pick(s: set<Path>): (p: Path)
    requires s != {}
    ensures p in s
  {
    var p :| p in s; p
  }

  ghost function Total(tree: Tree, rules: Rules, s: set<Path>): Weights {
    if s == {} then Weights(0, 0, 0, 0, 0) else Plus(Weight(tree, rules, Pick(s)), Total(tree, rules, s - {Pick(s)}))
  }

  lemma PlusSwap(a: Weights, b: Weights, c: Weights)
    ensures Plus(a, Plus(b, c)) == Plus(b, Plus(a, c))
  {
  }

  lemma {:induction false} TotalWithout(tree: Tree, rules: Rules, s: set<Path>, p: Path)
    requires p in s
    ensures Total(tree, rules, s) == Plus(Weight(tree, rules, p), Total(tree, rules, s - {p}))
    decreases |s|
  {
    hide Weight, Plus;
    var q := Pick(s);
    if p != q {
      TotalWithout(tree, rules, s - {q}, p);
      TotalWithout(tree, rules, s - {p}, q);
      assert s - {q} - {p} == s - {p} - {q};
      PlusSwap(Weight(tree, rules, q), Weight(tree, rules, p), Total(tree, rules, s - {p} - {q}));
    }
  }

  lemma TotalWith(tree: Tree, rules: Rules, s: set<Path>, p: Path)
    requires p !in s
    ensures Total(tree, rules, s + {p}) == Plus(Weight(tree, rules, p), Total(tree, rules, s))
  {
    TotalWithout(tree, rules, s + {p}, p);
    assert s + {p} - {p} == s;
  }

  lemma {:induction false} TotalOfPart(tree: Tree, rules: Rules, part: set<Path>, whole: set<Path>)
    requires part <= whole
    ensures AtMost(Total(tree, rules, part), Total(tree, rules, whole))
    decreases |part|
  {
    hide Weight;
    if part != {} {
      var p := Pick(part);
      TotalOfPart(tree, rules, part - {p}, whole - {p});
      TotalWithout(tree, rules, whole, p);
    }
  }

  ghost function Whole(tree: Tree, rules: Rules): Weights {
    Total(tree, rules, tree.stats.Keys)
  }

  /** Calls for the fixed ancestors, and for two walks through the whole tree with a last look at its root. */
  ghost function Effort(tree: Tree, rules: Rules): nat {
    3 * FIXED + 2 * (VisitCalls(0) + Whole(tree, rules).calls + 1)
  }

  /** The tree as a whole is over one of the limits that no single path of it can be blamed for. */
  ghost predicate Exceeds(tree: Tree, rules: Rules, limit: Code) {
    match limit
    case EntryLimit => |tree.stats| > ENTRIES_PER_WALK
    case FileLimit => Whole(tree, rules).files > FILES_PER_WALK
    case PathBudget => Whole(tree, rules).pathBytes > INVENTORY_PATH_BYTES
    case TotalBytes =>
      Whole(tree, rules).fileBytes > INVENTORY_FILE_BYTES || Whole(tree, rules).linkBytes > TOTAL_LINK_BYTES
    case DepthLimit => exists d :: d in tree.stats && tree.stats[d].ftype.Directory? && |d| > DEPTH
    case MetadataLimit => Effort(tree, rules) >= METADATA_CALLS - RESERVE
    case _ => false
  }

  /** One file under two names in the output's root, with nothing else. */
  function TwoNames(): Tree {
    var file, directory := Stat(File, Stamp(1, 2, 0, 0, 0, 0, true, 2)),
      Stat(Directory, Stamp(1, 1, 0, 0, 0, 0, true, 1));
    Tree(map[["a"] := file, ["b"] := file], (d: Path) => if d == [] then ["a", "b"] else [], (p: Path) => 0,
         [directory, directory, directory, directory, directory])
  }

  function Serving(tree: Tree): Io {
    Io(true, (turn: nat, a: Anchor) => if Located(tree, a) then Some(StatAt(tree, a)) else None,
       (turn: nat, fd: nat, a: Anchor) => if Located(tree, a) then Some(StatAt(tree, a)) else None,
       (turn: nat, a: Anchor) => true, (turn: nat, fd: nat) => true,
       (turn: nat, d: Path, k: nat) => if k < |tree.names(d)| then Named(tree.names(d)[k]) else End,
       (turn: nat, a: Anchor) => Some(LinkText(if a.Inside? then tree.links(a.path) else 0, true)),
       (turn: nat) => false, (turn: nat) => true, (turn: nat) => true)
  }

  lemma ServingServes(tree: Tree)
    ensures Truthful(Serving(tree), tree) && Serves(Serving(tree), tree)
  {
  }

  lemma TwoNamesHang(d: Path, name: string)
    ensures d + [name] in TwoNames().stats <==> Hangs(TwoNames(), d, name)
  {
    var tree := TwoNames();
    assert (d + [name])[|d|] == name;
    if d + [name] in tree.stats {
      assert d + [name] == ["a"] || d + [name] == ["b"];
    }
    if Hangs(tree, d, name) {
      assert d + [name] == [name];
    }
  }

  lemma TwoNamesFit(rules: Rules, p: Path)
    requires forall name :: !rules.forbidden(name) && !rules.malformed(name)
    requires forall q :: rules.pathBytes(q) == |q|
    requires p in TwoNames().stats
    ensures Fits(TwoNames(), rules, p)
  {
    assert Matching(TwoNames().stats, (1, 2)) == {["a"], ["b"]};
  }

  /** There are plain trees within all limits, also with something to diagnose, and every tree has a file system that
      serves it. */
  lemma TwoNamesPlain(rules: Rules)
    requires forall name :: !rules.forbidden(name) && !rules.malformed(name)
    requires forall p :: rules.pathBytes(p) == |p|
    ensures Plain(TwoNames(), rules) && !SingleLinks(TwoNames().stats)
    ensures forall limit :: !Exceeds(TwoNames(), rules, limit)
  {
    hide Exceeds, AliasFree, SingleLinks;
    var tree := TwoNames();
    TwoNamesSmall(rules);
    forall p | p in tree.stats
      ensures Fits(tree, rules, p)
    {
      TwoNamesFit(rules, p);
    }
    forall d: Path, name
      ensures d + [name] in tree.stats <==> Hangs(tree, d, name)
    {
      TwoNamesHang(d, name);
    }
    TwoNamesAlike();
  }

  lemma PairTotal(tree: Tree, rules: Rules, a: Path, b: Path)
    requires a != b && tree.stats.Keys == {a, b}
    ensures Whole(tree, rules) == Plus(Weight(tree, rules, a), Weight(tree, rules, b))
  {
    assert {a, b} - {a} == {b} && {b} - {b} == {};
    TotalWithout(tree, rules, {a, b}, a);
    TotalWithout(tree, rules, {b}, b);
  }

  lemma EmptyFile(tree: Tree, rules: Rules, p: Path)
    requires p in tree.stats && tree.stats[p].ftype.File? && tree.stats[p].stamp.size == 0
    ensures rules.pathBytes(p) <= 3 ==> AtMost(Weight(tree, rules, p), Weights(3, 3, 3, 3, 3))
  {
  }

  /** Everything is in the root. */
  ghost predicate Flat(tree: Tree) {
    forall d :: d in tree.stats ==> |d| == 1
  }

  lemma PairSize(tree: Tree, a: Path, b: Path)
    requires a != b && |a| == |b| == 1 && tree.stats.Keys == {a, b}
    ensures |tree.stats| == 2 && Flat(tree)
  {
    assert |tree.stats| == |tree.stats.Keys|;
  }

  lemma BothLight(a: Weights, b: Weights)
    requires AtMost(a, Weights(3, 3, 3, 3, 3)) && AtMost(b, Weights(3, 3, 3, 3, 3))
    ensures AtMost(Plus(a, b), Weights(9, 9, 9, 9, 9))
  {
  }

  lemma LightEnough(tree: Tree, rules: Rules)
    requires |tree.stats| == 2 && Flat(tree) && AtMost(Whole(tree, rules), Weights(9, 9, 9, 9, 9))
    ensures forall limit :: !Exceeds(tree, rules, limit)
  {
    hide Whole, Total, Weight;
  }

  lemma PairSmall(tree: Tree, rules: Rules, a: Path, b: Path)
    requires a != b && |a| == |b| == 1 && tree.stats.Keys == {a, b}
    requires AtMost(Weight(tree, rules, a), Weights(3, 3, 3, 3, 3))
    requires AtMost(Weight(tree, rules, b), Weights(3, 3, 3, 3, 3))
    ensures forall limit :: !Exceeds(tree, rules, limit)
  {
    hide Whole, Total, Weight, Exceeds, Flat, Plus;
    PairSize(tree, a, b);
    PairTotal(tree, rules, a, b);
    BothLight(Weight(tree, rules, a), Weight(tree, rules, b));
    LightEnough(tree, rules);
  }

  lemma TwoNamesSmall(rules: Rules)
    requires forall p :: rules.pathBytes(p) == |p|
    ensures forall limit :: !Exceeds(TwoNames(), rules, limit)
  {
    hide Exceeds, Weight;
    var a: Path, b: Path := ["a"], ["b"];
    assert a[0] != b[0];
    EmptyFile(TwoNames(), rules, a);
    EmptyFile(TwoNames(), rules, b);
    PairSmall(TwoNames(), rules, a, b);
  }

  lemma TwoNamesAlike()
    ensures var tree := TwoNames();
      && AliasFree(tree.stats) && !SingleLinks(tree.stats)
      && forall p, q {:trigger SharedFile(tree, p, q)} :: SharedFile(tree, p, q) ==>
           tree.stats[p].stamp == tree.stats[q].stamp
  {
    var tree := TwoNames();
    assert ["a"] in tree.stats && tree.stats[["a"]].ftype.File?;
  }

  // ---- what one walk keeps

  datatype Node = Node(anchor: Anchor, path: Path, stat: Stat, fd: nat)

  type Inventory = map<Path, Stat>

  datatype Item = Item(path: Path, depth: nat)

  /** Files and bytes so far, and names of the selected inode. */
  datatype Tally = Tally(files: nat, fileBytes: int, pathBytes: nat, matches: nat)

  datatype Pass = Pass(inventory: Inventory, directories: set<Inode>, queue: seq<Item>, tally: Tally)

  datatype Selected = Selected(path: Path, stat: Stat)

  type Result<T> = Wrappers.Result<T, Code>

  /** The names of one inode's regular file. */
  function Matching(inventory: Inventory, inode: Inode): set<Path> {
    set p | p in inventory && inventory[p].ftype.File? && InodeOf(inventory[p]) == inode
  }

  lemma MatchingGrows(inventory: Inventory, p: Path, record: Stat, inode: Inode)
    requires p !in inventory
    ensures |Matching(inventory[p := record], inode)| ==
            |Matching(inventory, inode)| + (if record.ftype.File? && InodeOf(record) == inode then 1 else 0)
  {
    var grown := inventory[p := record];
    if record.ftype.File? && InodeOf(record) == inode {
      assert Matching(grown, inode) == Matching(inventory, inode) + {p};
    } else {
      assert Matching(grown, inode) == Matching(inventory, inode);
    }
  }

  /** Everything found is in the reference, unchanged. */
  ghost predicate Agrees(inventory: Inventory, reference: Inventory) {
    forall p {:trigger inventory[p]} :: p in inventory ==> p in reference && reference[p] == inventory[p]
  }

  lemma SameSizeSame(inventory: Inventory, reference: Inventory)
    requires Agrees(inventory, reference) && |inventory| == |reference|
    ensures inventory == reference
  {
    forall p | p in reference
      ensures p in inventory
    {
      if p !in inventory {
        SubsetCount(inventory.Keys, reference.Keys - {p});
      }
    }
  }

  ghost predicate SingleLinks(inventory: Inventory) {
    forall p {:trigger inventory[p]} :: p in inventory && inventory[p].ftype.File? ==> inventory[p].stamp.nlink == 1
  }

  /** No two directories found are one physical directory. */
  ghost predicate AliasFree(inventory: Inventory) {
    forall p, q {:trigger OneDirectory(inventory, p, q)} :: OneDirectory(inventory, p, q) ==> p == q
  }

  /** Both paths were found to be one physical directory. */
  predicate OneDirectory(inventory: Inventory, p: Path, q: Path) {
    && p in inventory && q in inventory && inventory[p].ftype.Directory? && inventory[q].ftype.Directory?
    && InodeOf(inventory[p]) == InodeOf(inventory[q])
  }

  ghost predicate DirectoriesOnce(inventory: Inventory, directories: set<Inode>) {
    && (forall p {:trigger inventory[p]} :: p in inventory && inventory[p].ftype.Directory? ==>
          InodeOf(inventory[p]) in directories)
    && AliasFree(inventory)
  }

  ghost predicate TrueTo(inventory: Inventory, tree: Tree) {
    forall p {:trigger inventory[p]} :: p in inventory ==> p in tree.stats && inventory[p] == tree.stats[p]
  }

  ghost predicate Queued(queue: seq<Item>, path: Path) {
    exists i :: 0 <= i < |queue| && queue[i].path == path
  }

  /** Every directory found is queued. */
  ghost predicate AllQueued(pass: Pass) {
    && Queued(pass.queue, [])
    && (forall p {:trigger pass.inventory[p]} :: p in pass.inventory && pass.inventory[p].ftype.Directory? ==>
          Queued(pass.queue, p))
  }

  /** The first `k` names of a directory have been found in it. */
  ghost predicate Listed(inventory: Inventory, path: Path, names: seq<string>, k: nat)
    requires k <= |names|
  {
    k == 0 || (path + [names[k - 1]] in inventory && Listed(inventory, path, names, k - 1))
  }

  lemma {:induction false} ListedHas(inventory: Inventory, path: Path, names: seq<string>, k: nat, j: nat)
    requires j < k <= |names| && Listed(inventory, path, names, k)
    ensures path + [names[j]] in inventory
  {
    if j < k - 1 {
      ListedHas(inventory, path, names, k - 1, j);
    }
  }

  lemma {:induction false} ListedGrows(before: Inventory, after: Inventory, path: Path, names: seq<string>, k: nat)
    requires k <= |names| && Listed(before, path, names, k) && before.Keys <= after.Keys
    ensures Listed(after, path, names, k)
  {
    if k > 0 {
      assert path + [names[k - 1]] in before.Keys;
      ListedGrows(before, after, path, names, k - 1);
    }
  }

  /** All names of a directory have been found in it. */
  ghost predicate Full(inventory: Inventory, path: Path, names: Path -> seq<string>) {
    Listed(inventory, path, names(path), |names(path)|)
  }

  ghost predicate ListedBefore(inventory: Inventory, queue: seq<Item>, cursor: nat, names: Path -> seq<string>)
    requires cursor <= |queue|
  {
    cursor == 0 || (Full(inventory, queue[cursor - 1].path, names) && ListedBefore(inventory, queue, cursor - 1, names))
  }

  lemma {:induction false} ListedAt(inventory: Inventory, queue: seq<Item>, cursor: nat, names: Path -> seq<string>,
                                    i: nat)
    requires i < cursor <= |queue| && ListedBefore(inventory, queue, cursor, names)
    ensures Full(inventory, queue[i].path, names)
  {
    if i < cursor - 1 {
      ListedAt(inventory, queue, cursor - 1, names, i);
    }
  }

  /** What a pass keeps; `second` is the reference of a second walk. */
  ghost predicate Sound(pass: Pass, second: Option<Inventory>, selected: Option<Selected>) {
    && |pass.inventory| <= ENTRIES_PER_WALK && pass.tally.files <= FILES_PER_WALK
    && (forall i :: 0 <= i < |pass.queue| ==> pass.queue[i].depth == |pass.queue[i].path|)
    && AllQueued(pass) && DirectoriesOnce(pass.inventory, pass.directories)
    && (selected.None? ==> SingleLinks(pass.inventory))
    && (second.Some? ==>
          && Agrees(pass.inventory, second.value) && selected.Some? && pass.tally.matches <= pass.tally.files
          && pass.tally.matches == |Matching(pass.inventory, InodeOf(selected.value.stat))|)
  }

  lemma SoundFor(pass: Pass, second: Option<Inventory>, selected: Option<Selected>)
    requires Sound(pass, second, selected)
    ensures pass.tally.files <= FILES_PER_WALK && (second.Some? ==> selected.Some?)
  {
  }

  /** Nothing found is forgotten, nothing queued is moved. */
  ghost predicate Extends(pass: Pass, after: Pass) {
    pass.queue <= after.queue && pass.inventory.Keys <= after.inventory.Keys
  }

  function Start(root: Stat): Pass {
    Pass(map[], {InodeOf(root)}, [Item([], 0)], Tally(0, 0, 0, 0))
  }

  lemma StartSound(root: Stat, second: Option<Inventory>, selected: Option<Selected>)
    requires second.Some? ==> selected.Some?
    ensures Sound(Start(root), second, selected)
  {
    assert Start(root).queue[0].path == [];
    if second.Some? {
      assert Matching(Start(root).inventory, InodeOf(selected.value.stat)) == {};
    }
  }

  /** The pass after one more name. */
  function Recorded(pass: Pass, path: Path, stat: Stat, depth: nat, tally: Tally): Pass {
    if stat.ftype.Directory?
    then Pass(pass.inventory[path := stat], pass.directories + {InodeOf(stat)}, pass.queue + [Item(path, depth)], tally)
    else Pass(pass.inventory[path := stat], pass.directories, pass.queue, tally)
  }

  lemma QueueGrows(queue: seq<Item>, more: seq<Item>, path: Path)
    requires Queued(queue, path)
    ensures Queued(queue + more, path)
  {
    var i :| 0 <= i < |queue| && queue[i].path == path;
    assert (queue + more)[i].path == path;
  }

  lemma RecordedQueued(pass: Pass, path: Path, stat: Stat, tally: Tally)
    requires AllQueued(pass)
    ensures AllQueued(Recorded(pass, path, stat, |path|, tally))
  {
    var after := Recorded(pass, path, stat, |path|, tally);
    var more := if stat.ftype.Directory? then [Item(path, |path|)] else [];
    assert after.queue == pass.queue + more;
    QueueGrows(pass.queue, more, []);
    forall p | p in after.inventory && after.inventory[p].ftype.Directory?
      ensures Queued(after.queue, p)
    {
      if p == path {
        assert after.queue[|pass.queue|].path == path;
      } else {
        QueueGrows(pass.queue, more, p);
      }
    }
  }

  lemma RecordedOnce(pass: Pass, path: Path, stat: Stat, tally: Tally)
    requires path !in pass.inventory && DirectoriesOnce(pass.inventory, pass.directories)
    requires stat.ftype.Directory? ==> InodeOf(stat) !in pass.directories
    ensures var after := Recorded(pass, path, stat, |path|, tally); DirectoriesOnce(after.inventory, after.directories)
  {
    var after := Recorded(pass, path, stat, |path|, tally);
    forall p, q | OneDirectory(after.inventory, p, q)
      ensures p == q
    {
      if p != path && q != path {
        assert OneDirectory(pass.inventory, p, q);
      }
    }
  }

  /** Whether this is one more name of the selected inode's file. */
  function Counts(stat: Stat, selected: Option<Selected>): nat {
    if selected.Some? && stat.ftype.File? && InodeOf(stat) == InodeOf(selected.value.stat) then 1 else 0
  }

  /** A record keeps the pass sound. */
  lemma RecordedSound(pass: Pass, tally: Tally, path: Path, stat: Stat, second: Option<Inventory>,
                      before: Option<Selected>, selected: Option<Selected>)
    requires Sound(pass, second, before) && path !in pass.inventory && |pass.inventory| < ENTRIES_PER_WALK
    requires before.Some? ==> selected == before
    requires Admitted(pass, tally, path, stat, second, selected)
    ensures Sound(Recorded(pass, path, stat, |path|, tally), second, selected)
  {
    RecordedQueued(pass, path, stat, tally);
    RecordedOnce(pass, path, stat, tally);
    if second.Some? {
      MatchingGrows(pass.inventory, path, stat, InodeOf(selected.value.stat));
    }
  }

  /** What the checks on one entry leave behind. */
  predicate Admitted(pass: Pass, tally: Tally, path: Path, stat: Stat, second: Option<Inventory>,
                     selected: Option<Selected>) {
    && tally.files == pass.tally.files + (if stat.ftype.File? then 1 else 0)
    && (tally.files <= FILES_PER_WALK || tally.files == pass.tally.files)
    && tally.matches == pass.tally.matches + Counts(stat, selected)
    && (selected.None? && stat.ftype.File? ==> stat.stamp.nlink == 1)
    && (stat.ftype.Directory? ==> InodeOf(stat) !in pass.directories)
    && (second.Some? ==> path in second.value && second.value[path] == stat)
  }

  lemma RecordedGrows(pass: Pass, tally: Tally, path: Path, stat: Stat)
    requires path !in pass.inventory
    ensures var after := Recorded(pass, path, stat, |path|, tally);
            Extends(pass, after) && path in after.inventory && |after.inventory| == |pass.inventory| + 1
  {
  }

  lemma RecordedTrue(pass: Pass, tally: Tally, path: Path, stat: Stat, tree: Tree)
    requires TrueTo(pass.inventory, tree) && path in tree.stats && tree.stats[path] == stat
    ensures TrueTo(Recorded(pass, path, stat, |path|, tally).inventory, tree)
  {
  }

  /** A directory's whole content has been found, for every directory. */
  ghost predicate Closed(inventory: Inventory, names: Path -> seq<string>) {
    forall d, name :: (d == [] || (d in inventory && inventory[d].ftype.Directory?)) && name in names(d) ==>
      d + [name] in inventory
  }

  lemma AllListed(pass: Pass, names: Path -> seq<string>)
    requires AllQueued(pass) && ListedBefore(pass.inventory, pass.queue, |pass.queue|, names)
    ensures Closed(pass.inventory, names)
  {
    forall d, name | (d == [] || (d in pass.inventory && pass.inventory[d].ftype.Directory?)) && name in names(d)
      ensures d + [name] in pass.inventory
    {
      var i :| 0 <= i < |pass.queue| && pass.queue[i].path == d;
      var j :| 0 <= j < |names(d)| && names(d)[j] == name;
      ListedAt(pass.inventory, pass.queue, |pass.queue|, names, i);
      ListedHas(pass.inventory, d, names(d), |names(d)|, j);
    }
  }

  /** A closed inventory that is true to a tree is the whole tree. */
  lemma {:induction false} NothingMissing(inventory: Inventory, tree: Tree, p: Path)
    requires TrueTo(inventory, tree) && Closed(inventory, tree.names) && Rooted(tree) && p in tree.stats
    ensures p in inventory
    decreases |p|
  {
    var d, name := p[..|p| - 1], p[|p| - 1];
    assert p == d + [name];
    if d != [] {
      NothingMissing(inventory, tree, d);
    }
  }

  lemma {:induction false} ListedStays(pass: Pass, after: Pass, cursor: nat, names: Path -> seq<string>)
    requires cursor <= |pass.queue| && Extends(pass, after) && ListedBefore(pass.inventory, pass.queue, cursor, names)
    ensures ListedBefore(after.inventory, after.queue, cursor, names)
  {
    if cursor > 0 {
      var path := pass.queue[cursor - 1].path;
      ListedGrows(pass.inventory, after.inventory, path, names(path), |names(path)|);
      ListedStays(pass, after, cursor - 1, names);
    }
  }

  // ---- descriptors and their budget

  function Fds(chain: seq<Node>): set<nat> {
    set i | 0 <= i < |chain| :: chain[i].fd
  }

  ghost predicate DistinctFds(chain: seq<Node>) {
    forall i, j :: 0 <= i < j < |chain| ==> chain[i].fd != chain[j].fd
  }

  /** The chain's descriptors are open, and are all that is open besides `others`. */
  ghost predicate Holds(open: set<nat>, chain: seq<Node>, others: set<nat>) {
    DistinctFds(chain) && Fds(chain) !! others && open == Fds(chain) + others
  }

  lemma FdsSnoc(chain: seq<Node>, node: Node)
    ensures Fds(chain + [node]) == Fds(chain) + {node.fd}
  {
    var longer := chain + [node];
    forall fd | fd in Fds(chain)
      ensures fd in Fds(longer)
    {
      var i :| 0 <= i < |chain| && chain[i].fd == fd;
      assert longer[i].fd == fd;
    }
    assert longer[|chain|].fd == node.fd;
  }

  lemma HoldsSnoc(open: set<nat>, chain: seq<Node>, others: set<nat>, node: Node)
    requires Holds(open, chain, others) && node.fd !in open
    ensures Holds(open + {node.fd}, chain + [node], others)
  {
    FdsSnoc(chain, node);
    forall i | 0 <= i < |chain|
      ensures chain[i].fd != node.fd
    {
      assert chain[i].fd in Fds(chain);
    }
  }

  lemma HoldsNothing(open: set<nat>, above: Option<nat>, tree: Tree)
    ensures Holds(open, [], open) && Linked([], above) && AllGenuine(tree, [])
  {
  }

  lemma HoldsPop(open: set<nat>, chain: seq<Node>, others: set<nat>)
    requires Holds(open, chain, others) && chain != []
    ensures chain[|chain| - 1].fd in open
    ensures Holds(open - {chain[|chain| - 1].fd}, chain[..|chain| - 1], others)
  {
    var front, last := chain[..|chain| - 1], chain[|chain| - 1];
    assert chain == front + [last];
    FdsSnoc(front, last);
    assert last.fd !in Fds(front);
  }

  /** However far the ordinary calls have gone, releasing everything still fits. */
  ghost predicate Affordable(calls: nat, open: set<nat>) {
    |open| <= MAX_OPEN && calls + 2 * |open| <= METADATA_CALLS - RESERVE + 2 * MAX_OPEN
  }

  /** Every descriptor handed out is open or has been closed once. */
  ghost predicate Ledger(open: set<nat>, closed: seq<nat>, issued: nat) {
    && NoRepeat(closed) && |open| + |closed| == issued
    && (forall fd :: fd in open ==> fd < issued)
    && (forall i :: 0 <= i < |closed| ==> closed[i] < issued && closed[i] !in open)
  }

  lemma LedgerIssue(open: set<nat>, closed: seq<nat>, issued: nat)
    requires Ledger(open, closed, issued)
    ensures issued !in open && |open + {issued}| == |open| + 1 && open + {issued} - {issued} == open
    ensures Ledger(open + {issued}, closed, issued + 1)
  {
  }

  lemma LedgerClose(open: set<nat>, closed: seq<nat>, issued: nat, fd: nat)
    requires Ledger(open, closed, issued) && fd in open
    ensures |open - {fd}| == |open| - 1
    ensures Ledger(open - {fd}, closed + [fd], issued)
  {
  }

  /** Each node of a chain was opened under the one before it. */
  ghost predicate Linked(chain: seq<Node>, above: Option<nat>) {
    chain == [] ||
    var last := |chain| - 1;
    ParentOf(chain[last].anchor) == (if last == 0 then above else Some(chain[last - 1].fd))
      && Linked(chain[..last], above)
  }

  function ParentOf(anchor: Anchor): Option<nat> {
    if anchor.Above? then anchor.parent else Some(anchor.fd)
  }

  /** The node is what the tree has at its anchor. */
  predicate Genuine(tree: Tree, node: Node) { Located(tree, node.anchor) && node.stat == StatAt(tree, node.anchor) }

  predicate AllGenuine(tree: Tree, chain: seq<Node>) {
    chain == [] || (Genuine(tree, chain[|chain| - 1]) && AllGenuine(tree, chain[..|chain| - 1]))
  }

  lemma GenuineGrows(tree: Tree, chain: seq<Node>, node: Node)
    ensures AllGenuine(tree, chain + [node]) <==> AllGenuine(tree, chain) && Genuine(tree, node)
  {
    assert (chain + [node])[..|chain|] == chain;
  }

  /** A directory of the tree, inventoried as it is. */
  predicate Known(inventory: Inventory, tree: Tree, path: Path) {
    && path in inventory && inventory[path].ftype.Directory?
    && path in tree.stats && inventory[path] == tree.stats[path] && Sane(tree.stats[path])
  }

  /** Every directory on the way to a path is known. */
  predicate Climbable(inventory: Inventory, tree: Tree, path: Path) {
    path == [] || (Known(inventory, tree, path) && Climbable(inventory, tree, path[..|path| - 1]))
  }

  lemma {:induction false} ClimbableUpTo(inventory: Inventory, tree: Tree, path: Path, k: nat)
    requires k <= |path| && Climbable(inventory, tree, path)
    ensures Climbable(inventory, tree, path[..k])
  {
    if k == |path| {
      assert path[..k] == path;
    } else {
      ClimbableUpTo(inventory, tree, path[..|path| - 1], k);
      assert path[..|path| - 1][..k] == path[..k];
    }
  }

  /** A call may use this anchor: the directory it hangs under is held open. */
  predicate Usable(anchor: Anchor, open: set<nat>) {
    ParentOf(anchor).Some? ==> ParentOf(anchor).value in open
  }

  lemma EndHeld(open: set<nat>, chain: seq<Node>)
    requires Holds(open, chain, {}) && chain != []
    ensures chain[|chain| - 1].fd in open
  {
    HoldsPop(open, chain, {});
  }

  lemma LastUsable(open: set<nat>, chain: seq<Node>, others: set<nat>, above: Option<nat>)
    requires Holds(open, chain, others) && Linked(chain, above) && chain != []
    requires above.Some? ==> above.value in others
    ensures Usable(chain[|chain| - 1].anchor, open)
  {
    var last := |chain| - 1;
    if last > 0 {
      assert chain[last - 1].fd in Fds(chain);
    }
  }

  /** Two parts of the counters: calls made, and link texts read. */
  datatype Calls = Calls(metadataCalls: nat, directoriesOpened: nat)

  datatype Links = Links(linkTexts: nat, linkBytes: nat)

  /** Counters that validateReport admits, whatever comes next. */
  predicate Within(calls: Calls, links: Links, entryVisits: nat) {
    && calls.directoriesOpened <= calls.metadataCalls
    && links.linkTexts <= entryVisits && links.linkTexts <= calls.metadataCalls
    && entryVisits <= ENTRY_VISITS && links.linkTexts <= ENTRIES_PER_WALK && links.linkBytes <= TOTAL_LINK_BYTES
  }

  /** So many calls were made at most. */
  predicate Spends(before: Calls, after: Calls, most: nat) {
    before.metadataCalls <= after.metadataCalls <= before.metadataCalls + most
  }

  /** At most one call was made, and no directory was opened. */
  predicate Called(before: Calls, after: Calls) {
    Spends(before, after, 1) && before.directoriesOpened == after.directoriesOpened
  }

  /** What a report says about the selected file while the walks go on. */
  predicate Declared(selected: Option<Selected>, rejection: Option<Rejection>, observed: Option<int>,
                     accounting: Accounting, visits: nat) {
    match selected
    case None => rejection.None? && observed.None? && accounting.NotApplicable?
    case Some(s) =>
      && rejection == Some(FileLinkCount) && observed == Some(s.stat.stamp.nlink) && accounting.Unaccounted?
      && Bounded(s.stat.stamp.nlink, LINK_COUNT) && s.stat.stamp.nlink != 1 && visits > 0
  }

  /** A chain with one more directory opened under its end. */
  lemma ChainGrows(before: set<nat>, chain: seq<Node>, others: set<nat>, above: Option<nat>, node: Node,
                   after: set<nat>)
    requires Holds(before, chain, others) && Linked(chain, above)
    requires node.fd !in before && after == before + {node.fd}
    requires ParentOf(node.anchor) == if chain == [] then above else Some(chain[|chain| - 1].fd)
    ensures Holds(after, chain + [node], others) && Linked(chain + [node], above) && |after| == |before| + 1
  {
    HoldsSnoc(before, chain, others, node);
    assert (chain + [node])[..|chain|] == chain;
  }

  /** Entries visited before a walk. */
  function Base(second: Option<Inventory>): nat {
    if second.Some? then |second.value| else 0
  }

  /** The names that count are among the names found. */
  lemma MatchingBounded(inventory: Inventory, inode: Inode)
    ensures |Matching(inventory, inode)| <= |inventory|
  {
    SubsetCount(Matching(inventory, inode), inventory.Keys);
  }

  /** What a finished walk has found, and that it is what the first walk had found where it is the second. */
  ghost predicate Walked(pass: Pass, second: Option<Inventory>, selected: Option<Selected>, truthful: bool,
                         tree: Tree) {
    && Surveyed(pass.inventory, truthful, tree)
    && (selected.None? ==> SingleLinks(pass.inventory))
    && (second.Some? ==>
          && pass.inventory == second.value && selected.Some? && pass.tally.matches <= FILES_PER_WALK
          && pass.tally.matches == |Matching(pass.inventory, InodeOf(selected.value.stat))|)
  }

  lemma SoundWalked(pass: Pass, second: Option<Inventory>, selected: Option<Selected>, truthful: bool, tree: Tree)
    requires Sound(pass, second, selected)
    requires truthful ==> TrueTo(pass.inventory, tree)
    requires truthful ==> ListedBefore(pass.inventory, pass.queue, |pass.queue|, tree.names)
    requires second.Some? ==> |second.value| == |pass.inventory|
    ensures Walked(pass, second, selected, truthful, tree)
  {
    if truthful {
      AllListed(pass, tree.names);
    }
    if second.Some? {
      SameSizeSame(pass.inventory, second.value);
    }
  }

  /** What a diagnosed link count rests on. */
  ghost predicate Accounted(selected: Selected, first: Inventory, second: Inventory, matching: nat) {
    var inode := InodeOf(selected.stat);
    && first == second && matching == |Matching(first, inode)| && 0 < matching <= selected.stat.stamp.nlink
    && matching <= FILES_PER_WALK
    && (forall p :: p in Matching(first, inode) ==> first[p].stamp == selected.stat.stamp)
  }

  predicate Approved(approval: string) {
    |approval| == 64 && forall i :: 0 <= i < |approval| ==> '0' <= approval[i] <= '9' || 'a' <= approval[i] <= 'f'
  }

  /** What one walk tells of the output: every name of the tree where the answers were true, no directory twice. */
  ghost predicate Surveyed(inventory: Inventory, truthful: bool, tree: Tree) {
    AliasFree(inventory) && (truthful ==> TrueTo(inventory, tree) && Closed(inventory, tree.names))
  }

  /** The selected file is a file of the tree. */
  predicate TrueSelection(tree: Tree, selected: Option<Selected>) {
    selected.Some? ==>
      && selected.value.path in tree.stats && tree.stats[selected.value.path] == selected.value.stat
      && selected.value.stat.ftype.File?
  }

  /** A path that is new to the pass, and nothing to refuse. */
  ghost predicate Acceptable(tree: Tree, rules: Rules, pass: Pass, path: Path, second: Option<Inventory>) {
    && path in tree.stats && path != [] && Fits(tree, rules, path) && path !in pass.inventory
    && (tree.stats[path].ftype.Directory? ==> InodeOf(tree.stats[path]) !in pass.directories)
    && (second.Some? ==> path in second.value && second.value[path] == tree.stats[path])
  }

  lemma SurveyedWhole(inventory: Inventory, tree: Tree)
    requires Surveyed(inventory, true, tree) && Rooted(tree)
    ensures inventory == tree.stats
  {
    forall p | p in tree.stats
      ensures p in inventory
    {
      NothingMissing(inventory, tree, p);
    }
    forall p | p in inventory
      ensures p in tree.stats
    {
      assert inventory[p] == tree.stats[p];
    }
  }

  /** On a plain tree two whole walks find as many names. */
  lemma SameCount(pass: Pass, second: Option<Inventory>, selected: Option<Selected>, tree: Tree)
    requires Sound(pass, second, selected) && TrueTo(pass.inventory, tree) && Rooted(tree)
    requires ListedBefore(pass.inventory, pass.queue, |pass.queue|, tree.names)
    requires second.Some? && second.value == tree.stats
    ensures |second.value| == |pass.inventory|
  {
    AllListed(pass, tree.names);
    SurveyedWhole(pass.inventory, tree);
  }

  /** On a plain tree the recount of the first walk's names has nothing to object to. */
  lemma NamesAgree(tree: Tree, rules: Rules, selected: Selected)
    requires Plain(tree, rules) && TrueSelection(tree, Some(selected))
    ensures var names := Matching(tree.stats, InodeOf(selected.stat));
      && selected.path in names && |names| <= selected.stat.stamp.nlink
      && forall p :: p in names ==> tree.stats[p].stamp == selected.stat.stamp
  {
    assert Fits(tree, rules, selected.path);
    forall p | p in Matching(tree.stats, InodeOf(selected.stat))
      ensures tree.stats[p].stamp == selected.stat.stamp
    {
      assert SharedFile(tree, p, selected.path);
    }
  }

  // ---- the order a walk keeps on a plain tree

  predicate Below(inventory: Inventory, d: Path, name: string) { d + [name] in inventory }

  /** Whatever was found hangs in the root or in something found. */
  predicate Grounded(inventory: Inventory, p: Path) {
    p in inventory ==> p != [] && (|p| == 1 || p[..|p| - 1] in inventory)
  }

  predicate Apart(queue: seq<Item>, i: nat, j: nat) {
    i < j < |queue| ==> queue[i].path != queue[j].path
  }

  /** The identity is the root's, or that of a directory found. */
  ghost predicate Met(pass: Pass, tree: Tree, inode: Inode) {
    || inode == RootOf(tree)
    || exists p :: p in pass.inventory && pass.inventory[p].ftype.Directory? && InodeOf(pass.inventory[p]) == inode
  }

  /** Nothing is found below the directories still to come, which are all different and can all be reached. */
  ghost predicate Orderly(tree: Tree, pass: Pass, cursor: nat) {
    && (forall p {:trigger Grounded(pass.inventory, p)} :: Grounded(pass.inventory, p))
    && (forall i, name {:trigger Below(pass.inventory, pass.queue[i].path, name)} :: cursor < i < |pass.queue| ==>
          !Below(pass.inventory, pass.queue[i].path, name))
    && (forall i, j {:trigger Apart(pass.queue, i, j)} :: Apart(pass.queue, i, j))
    && (forall i {:trigger Climbable(pass.inventory, tree, pass.queue[i].path)} :: 0 <= i < |pass.queue| ==>
          Climbable(pass.inventory, tree, pass.queue[i].path))
    && (forall inode {:trigger Met(pass, tree, inode)} :: inode in pass.directories ==> Met(pass, tree, inode))
  }

  /** From the k-th name on, nothing of a directory has been found. */
  ghost predicate NotYet(inventory: Inventory, d: Path, names: seq<string>, k: nat) {
    forall j {:trigger Below(inventory, d, names[j])} :: k <= j < |names| ==> !Below(inventory, d, names[j])
  }

  lemma StartOrderly(tree: Tree, root: Stat)
    requires |tree.above| == FIXED && root == tree.above[FIXED - 1]
    ensures Orderly(tree, Start(root), 0) && NotYet(Start(root).inventory, [], tree.names([]), 0)
  {
  }

  lemma OrderlyAdvance(tree: Tree, pass: Pass, cursor: nat)
    requires Orderly(tree, pass, cursor) && cursor + 1 < |pass.queue|
    ensures var d := pass.queue[cursor + 1].path;
      Orderly(tree, pass, cursor + 1) && NotYet(pass.inventory, d, tree.names(d), 0)
  {
  }

  lemma WayOpen(tree: Tree, pass: Pass, cursor: nat)
    requires Orderly(tree, pass, cursor) && cursor < |pass.queue|
    ensures Climbable(pass.inventory, tree, pass.queue[cursor].path)
  {
  }

  lemma {:induction false} ClimbableGrows(inventory: Inventory, path: Path, record: Stat, tree: Tree, p: Path)
    requires Climbable(inventory, tree, p) && path !in inventory
    ensures Climbable(inventory[path := record], tree, p)
  {
    if p != [] {
      ClimbableGrows(inventory, path, record, tree, p[..|p| - 1]);
    }
  }

  /** On a plain tree the next name of a directory is acceptable. */
  lemma NextAcceptable(tree: Tree, rules: Rules, pass: Pass, cursor: nat, k: nat, second: Option<Inventory>)
    requires Plain(tree, rules) && TrueTo(pass.inventory, tree) && Orderly(tree, pass, cursor) && cursor < |pass.queue|
    requires var d := pass.queue[cursor].path; NotYet(pass.inventory, d, tree.names(d), k) && k < |tree.names(d)|
    requires second.Some? ==> second.value == tree.stats
    ensures var d := pass.queue[cursor].path; Acceptable(tree, rules, pass, d + [tree.names(d)[k]], second)
  {
    var d := pass.queue[cursor].path;
    var name := tree.names(d)[k];
    var path := d + [name];
    assert Climbable(pass.inventory, tree, d);
    assert Hangs(tree, d, name);
    assert Fits(tree, rules, path);
    assert !Below(pass.inventory, d, name);
    var s := tree.stats[path];
    if s.ftype.Directory? && InodeOf(s) in pass.directories {
      assert Met(pass, tree, InodeOf(s));
      var q :| q in pass.inventory && pass.inventory[q].ftype.Directory? && InodeOf(pass.inventory[q]) == InodeOf(s);
      assert OneDirectory(tree.stats, path, q);
    }
    if second.Some? {
      assert path in second.value.Keys;
    }
  }

  lemma MetGrows(pass: Pass, after: Pass, tree: Tree, inode: Inode)
    requires Met(pass, tree, inode)
    requires forall p :: p in pass.inventory ==> p in after.inventory && after.inventory[p] == pass.inventory[p]
    ensures Met(after, tree, inode)
  {
    if inode != RootOf(tree) {
      var p :| p in pass.inventory && pass.inventory[p].ftype.Directory? && InodeOf(pass.inventory[p]) == inode;
      assert after.inventory[p] == pass.inventory[p];
    }
  }

  /** Recording the name keeps the order, one name further. */
  lemma OrderlyNext(tree: Tree, rules: Rules, pass: Pass, tally: Tally, cursor: nat, k: nat)
    requires Plain(tree, rules) && TrueTo(pass.inventory, tree) && Orderly(tree, pass, cursor) && cursor < |pass.queue|
    requires var d := pass.queue[cursor].path; NotYet(pass.inventory, d, tree.names(d), k) && k < |tree.names(d)|
    requires Acceptable(tree, rules, pass, pass.queue[cursor].path + [tree.names(pass.queue[cursor].path)[k]], None)
    ensures var d := pass.queue[cursor].path;
      var path := d + [tree.names(d)[k]];
      var after := Recorded(pass, path, tree.stats[path], |path|, tally);
      Orderly(tree, after, cursor) && NotYet(after.inventory, d, tree.names(d), k + 1)
  {
    var d := pass.queue[cursor].path;
    var names := tree.names(d);
    var path := d + [names[k]];
    var stat := tree.stats[path];
    var after := Recorded(pass, path, stat, |path|, tally);
    assert path[..|path| - 1] == d && Climbable(pass.inventory, tree, d);
    forall p
      ensures Grounded(after.inventory, p)
    {
      assert Grounded(pass.inventory, p);
    }
    forall i, name | cursor < i < |after.queue|
      ensures !Below(after.inventory, after.queue[i].path, name)
    {
      var q := after.queue[i].path + [name];
      assert q[..|q| - 1] == after.queue[i].path;
      if i < |pass.queue| {
        assert Apart(pass.queue, cursor, i) && !Below(pass.inventory, pass.queue[i].path, name);
      } else {
        assert Grounded(pass.inventory, q);
      }
    }
    forall i: nat, j: nat
      ensures Apart(after.queue, i, j)
    {
      assert Apart(pass.queue, i, j);
      if i < j == |pass.queue| {
        assert Climbable(pass.inventory, tree, pass.queue[i].path);
      }
    }
    forall i | 0 <= i < |after.queue|
      ensures Climbable(after.inventory, tree, after.queue[i].path)
    {
      if i < |pass.queue| {
        ClimbableGrows(pass.inventory, path, stat, tree, pass.queue[i].path);
      } else {
        ClimbableGrows(pass.inventory, path, stat, tree, d);
      }
    }
    forall inode | inode in after.directories
      ensures Met(after, tree, inode)
    {
      if inode in pass.directories {
        MetGrows(pass, after, tree, inode);
      } else {
        assert after.inventory[path] == stat;
      }
    }
    forall j | k + 1 <= j < |names|
      ensures !Below(after.inventory, d, names[j])
    {
      assert !Below(pass.inventory, d, names[j]) && !Repeats(tree, d);
      assert (d + [names[j]])[|d|] == names[j];
    }
  }

  // ---- what a walk spends and charges, on a plain tree

  /** A tally went up by no more than this weight. */
  predicate Loaded(before: Tally, after: Tally, w: Weights) {
    && after.files <= before.files + w.files && after.fileBytes <= before.fileBytes + w.fileBytes
    && after.pathBytes <= before.pathBytes + w.pathBytes
  }

  /** What a file may be refused for. */
  predicate Objects(why: Code, stat: Stat, tally: Tally, selected: Option<Selected>) {
    || (why == FileLimit && tally.files == FILES_PER_WALK)
    || (why == TotalBytes && selected.None? && tally.fileBytes + stat.stamp.size > INVENTORY_FILE_BYTES)
    || (why == FileSize && stat.stamp.size > FILE_BYTES) || (why == Changed && stat.stamp.nlink == 0)
    || (why == Changed && Counts(stat, selected) == 1 && stat.stamp != selected.value.stat.stamp)
  }

  /** A file of a plain tree is refused only where it adds up to too much. */
  lemma FileOverflows(tree: Tree, rules: Rules, pass: Pass, tally: Tally, path: Path, selected: Option<Selected>,
                      why: Code, linkBytes: nat, first: bool)
    requires Plain(tree, rules) && Acceptable(tree, rules, pass, path, None) && TrueSelection(tree, selected)
    requires tree.stats[path].ftype.File? && Objects(why, tree.stats[path], tally, selected)
    requires tally.files == pass.tally.files && tally.fileBytes == pass.tally.fileBytes
    ensures Overflows(why, pass.tally, linkBytes, Weight(tree, rules, path), first)
  {
    if Counts(tree.stats[path], selected) == 1 {
      assert SharedFile(tree, path, selected.value.path);
    }
  }

  /** This weight on top of the tally is over a limit. */
  predicate Overflows(limit: Code, tally: Tally, linkBytes: nat, w: Weights, first: bool) {
    match limit
    case FileLimit => tally.files + w.files > FILES_PER_WALK
    case PathBudget => tally.pathBytes + w.pathBytes > INVENTORY_PATH_BYTES
    case TotalBytes =>
      tally.fileBytes + w.fileBytes > INVENTORY_FILE_BYTES || (first && linkBytes + w.linkBytes > TOTAL_LINK_BYTES)
    case _ => false
  }

  /** There is no room for another entry. */
  predicate Crowded(limit: Code, inventory: Inventory, second: Option<Inventory>) {
    limit == EntryLimit && (|inventory| >= ENTRIES_PER_WALK || Base(second) + |inventory| >= ENTRY_VISITS)
  }

  /** Nothing was charged that was not found. */
  ghost predicate Charged(tree: Tree, rules: Rules, pass: Pass, linkBytes: nat) {
    var w := Total(tree, rules, pass.inventory.Keys);
    && pass.tally.files <= w.files && pass.tally.fileBytes <= w.fileBytes && pass.tally.pathBytes <= w.pathBytes
    && linkBytes <= w.linkBytes
  }

  lemma TotalOfRecorded(tree: Tree, rules: Rules, inventory: Inventory, path: Path)
    requires TrueTo(inventory, tree) && path !in inventory && path in tree.stats
    ensures var w := Plus(Weight(tree, rules, path), Total(tree, rules, inventory.Keys));
      Total(tree, rules, inventory[path := tree.stats[path]].Keys) == w && AtMost(w, Whole(tree, rules))
  {
    var keys := inventory.Keys + {path};
    TotalWith(tree, rules, inventory.Keys, path);
    assert inventory[path := tree.stats[path]].Keys == keys;
    forall p | p in keys
      ensures p in tree.stats.Keys
    {
      assert p == path || inventory[p] == tree.stats[p];
    }
    TotalOfPart(tree, rules, keys, tree.stats.Keys);
  }

  lemma OverflowExceeds(tree: Tree, rules: Rules, pass: Pass, linkBytes: nat, path: Path, limit: Code, first: bool)
    requires TrueTo(pass.inventory, tree) && path !in pass.inventory && path in tree.stats
    requires Charged(tree, rules, pass, if first then linkBytes else 0)
    requires Overflows(limit, pass.tally, linkBytes, Weight(tree, rules, path), first)
    ensures Exceeds(tree, rules, limit)
  {
    TotalOfRecorded(tree, rules, pass.inventory, path);
  }

  lemma CrowdedExceeds(tree: Tree, rules: Rules, inventory: Inventory, path: Path, second: Option<Inventory>)
    requires TrueTo(inventory, tree) && path !in inventory && path in tree.stats
    requires second.Some? ==> second.value == tree.stats
    requires Crowded(EntryLimit, inventory, second)
    ensures Exceeds(tree, rules, EntryLimit)
  {
    var keys := inventory.Keys + {path};
    assert |keys| == |inventory| + 1;
    forall p | p in keys
      ensures p in tree.stats.Keys
    {
      assert p == path || inventory[p] == tree.stats[p];
    }
    SubsetCount(keys, tree.stats.Keys);
    assert |tree.stats.Keys| == |tree.stats|;
  }

  lemma DeepExceeds(tree: Tree, rules: Rules, inventory: Inventory, path: Path)
    requires Climbable(inventory, tree, path) && |path| > DEPTH
    ensures Exceeds(tree, rules, DepthLimit)
  {
  }

  lemma ChargedNext(tree: Tree, rules: Rules, pass: Pass, tally: Tally, path: Path, before: nat, after: nat)
    requires TrueTo(pass.inventory, tree) && path !in pass.inventory && path in tree.stats
    requires Charged(tree, rules, pass, before) && Loaded(pass.tally, tally, Weight(tree, rules, path))
    requires after <= before + Weight(tree, rules, path).linkBytes
    ensures Charged(tree, rules, Recorded(pass, path, tree.stats[path], |path|, tally), after)
  {
    TotalOfRecorded(tree, rules, pass.inventory, path);
  }

  /** Calls for the directories still to be visited. */
  function Pending(queue: seq<Item>, cursor: nat): nat
    decreases |queue| - cursor
  {
    if cursor >= |queue| then 0 else VisitCalls(|queue[cursor].path|) + Pending(queue, cursor + 1)
  }

  lemma {:induction false} PendingGrows(queue: seq<Item>, item: Item, cursor: nat)
    requires cursor <= |queue|
    ensures Pending(queue + [item], cursor) == Pending(queue, cursor) + VisitCalls(|item.path|)
    decreases |queue| - cursor
  {
    if cursor < |queue| {
      PendingGrows(queue, item, cursor + 1);
    }
  }

  /** Calls before a walk. */
  ghost function CallsBefore(tree: Tree, rules: Rules, second: Option<Inventory>): nat {
    3 * FIXED + if second.Some? then VisitCalls(0) + Whole(tree, rules).calls + 1 else 0
  }

  /** The root is to be visited, and nothing has been found. */
  lemma StartWeighs(tree: Tree, rules: Rules, root: Stat, second: Option<Inventory>, spent: nat)
    requires spent <= CallsBefore(tree, rules, second)
    ensures Charged(tree, rules, Start(root), 0) && Budgeted(tree, rules, Start(root), 0, second, spent)
  {
  }

  /** Calls up to here and for the directories still to be visited are for what has been found. */
  ghost predicate Budgeted(tree: Tree, rules: Rules, pass: Pass, cursor: nat, second: Option<Inventory>, spent: nat) {
    spent + Pending(pass.queue, cursor) <=
      CallsBefore(tree, rules, second) + VisitCalls(0) + Total(tree, rules, pass.inventory.Keys).calls
  }

  lemma BudgetedNext(tree: Tree, rules: Rules, pass: Pass, tally: Tally, path: Path, cursor: nat,
                     second: Option<Inventory>, spent: nat)
    requires TrueTo(pass.inventory, tree) && path !in pass.inventory && path in tree.stats && cursor <= |pass.queue|
    requires Budgeted(tree, rules, pass, cursor, second, spent)
    ensures Budgeted(tree, rules, Recorded(pass, path, tree.stats[path], |path|, tally), cursor, second,
                     spent + 1 + LookCalls(tree.stats[path].ftype))
  {
    TotalOfRecorded(tree, rules, pass.inventory, path);
    PendingGrows(pass.queue, Item(path, |path|), cursor);
  }

  lemma BudgetedVisit(tree: Tree, rules: Rules, pass: Pass, cursor: nat, second: Option<Inventory>, spent: nat,
                      more: nat)
    requires Budgeted(tree, rules, pass, cursor, second, spent) && cursor < |pass.queue|
    requires more <= VisitCalls(|pass.queue[cursor].path|)
    ensures Budgeted(tree, rules, pass, cursor + 1, second, spent + more)
  {
  }

  lemma BudgetExceeds(tree: Tree, rules: Rules, pass: Pass, cursor: nat, second: Option<Inventory>, spent: nat)
    requires TrueTo(pass.inventory, tree) && Budgeted(tree, rules, pass, cursor, second, spent)
    ensures spent <= CallsBefore(tree, rules, second) + VisitCalls(0) + Whole(tree, rules).calls
    ensures spent + 1 >= METADATA_CALLS - RESERVE ==> Exceeds(tree, rules, MetadataLimit)
  {
    forall p | p in pass.inventory
      ensures p in tree.stats.Keys
    {
      assert pass.inventory[p] == tree.stats[p];
    }
    TotalOfPart(tree, rules, pass.inventory.Keys, tree.stats.Keys);
  }

  lemma BudgetExceedsAt(tree: Tree, rules: Rules, pass: Pass, path: Path, cursor: nat, second: Option<Inventory>,
                        spent: nat)
    requires TrueTo(pass.inventory, tree) && path !in pass.inventory && path in tree.stats && cursor <= |pass.queue|
    requires Budgeted(tree, rules, pass, cursor, second, spent)
    requires spent + 1 + LookCalls(tree.stats[path].ftype) >= METADATA_CALLS - RESERVE
    ensures Exceeds(tree, rules, MetadataLimit)
  {
    BudgetedNext(tree, rules, pass, pass.tally, path, cursor, second, spent);
    RecordedTrue(pass, pass.tally, path, tree.stats[path], tree);
    BudgetExceeds(tree, rules, Recorded(pass, path, tree.stats[path], |path|, pass.tally), cursor, second,
                  spent + 1 + LookCalls(tree.stats[path].ftype));
  }

  class Reader {
    const io: Io
    const rules: Rules
    /** The tree every answer is true of, if `truthful`. */
    ghost const tree: Tree
    ghost const truthful: bool
    /** The tree is plain and the file system serves it. */
    ghost const fine: bool
    var turn: nat
    var calls: Calls
    var links: Links
    var entryVisits: nat
    var walksCompleted: nat
    var open: set<nat>
    var issued: nat
    var closed: seq<nat>
    var listing: bool
    var starved: bool
    var device: Option<int>
    var selected: Option<Selected>
    var rejection: Option<Rejection>
    var observed: Option<int>
    var accounting: Accounting
    var outcome: Outcome
    var stable: bool
    var matchingNames: Option<nat>

    constructor (io: Io, rules: Rules, ghost tree: Tree)
      ensures Valid() && open == {} && issued == 0 && closed == [] && !listing && Totals() == ZERO
      ensures truthful == Truthful(io, tree) && this.tree == tree && this.io == io && this.rules == rules
      ensures fine == (truthful && Serves(io, tree) && Plain(tree, rules))
      ensures selected.None? && rejection.None? && observed.None? && accounting.NotApplicable?
      ensures outcome.Inconclusive? && !stable && matchingNames.None? && device.None?
    {
      this.io, this.rules, this.tree, truthful := io, rules, tree, Truthful(io, tree);
      fine := Truthful(io, tree) && Serves(io, tree) && Plain(tree, rules);
      turn, calls, links, entryVisits, walksCompleted := 0, Calls(0, 0), Links(0, 0), 0, 0;
      open, issued, closed, listing, starved := {}, 0, [], false, false;
      device, selected, rejection, observed, accounting := None, None, None, None, NotApplicable;
      outcome, stable, matchingNames := Inconclusive, false, None;
    }

    function Totals(): Counters
      reads this
    {
      Counters(entryVisits, walksCompleted, calls.directoriesOpened, calls.metadataCalls, links.linkTexts,
        links.linkBytes)
    }

    /** What the ghost flags stand for. */
    ghost predicate Meant() {
      (truthful ==> Truthful(io, tree)) && (fine ==> truthful && Serves(io, tree) && Plain(tree, rules))
    }

    ghost predicate Valid()
      reads this
    {
      && Meant()
      && Within(calls, links, entryVisits) && Affordable(calls.metadataCalls, open) && Ledger(open, closed, issued)
      && !starved
    }

    /** The deadline, then the ordinary share of the metadata budget. */
    method Tick(operation: bool) returns (error: Option<Code>)
      modifies `turn, `calls
      ensures error == if io.late(old(turn)) then Some(Deadline)
                       else if operation && old(calls).metadataCalls >= METADATA_CALLS - RESERVE
                         then Some(MetadataLimit)
                       else None
      ensures Meant() && fine ==> error.None? || (operation && error == Some(MetadataLimit))
      ensures calls == if error.None? && operation
                          then old(calls).(metadataCalls := old(calls).metadataCalls + 1) else old(calls)
    {
      var late := io.late(turn);
      turn := turn + 1;
      if late { return Some(Deadline); }
      if operation && calls.metadataCalls >= METADATA_CALLS - RESERVE { return Some(MetadataLimit); }
      if operation { calls := calls.(metadataCalls := calls.metadataCalls + 1); }
      return None;
    }

    /** The ordinary share of the metadata budget is used up. */
    predicate Spent()
      reads `calls
    {
      calls.metadataCalls >= METADATA_CALLS - RESERVE
    }

    method Lstat(anchor: Anchor) returns (r: Result<Stat>)
      requires Valid() && Usable(anchor, open)
      modifies `turn, `calls
      ensures Valid() && Called(old(calls), calls)
      ensures r == Err(MetadataLimit) ==> Spent()
      ensures r.Ok? && truthful && anchor.Inside? ==> anchor.path in tree.stats && tree.stats[anchor.path] == r.value
      ensures fine && Located(tree, anchor) ==> r in {Ok(StatAt(tree, anchor)), Err(MetadataLimit)}
    {
      var error := Tick(true);
      if error.Some? { return Err(error.value); }
      var answer := io.lstat(turn, anchor);
      turn := turn + 1;
      r := if answer.Some? then Ok(answer.value) else Err(Unreadable);
    }

    method Fstat(fd: nat, anchor: Anchor) returns (r: Result<Stat>)
      requires Valid() && fd in open
      modifies `turn, `calls
      ensures Valid() && Called(old(calls), calls)
      ensures r == Err(MetadataLimit) ==> Spent()
      ensures fine && Located(tree, anchor) ==> r in {Ok(StatAt(tree, anchor)), Err(MetadataLimit)}
    {
      var error := Tick(true);
      if error.Some? { return Err(error.value); }
      var answer := io.fstat(turn, fd, anchor);
      turn := turn + 1;
      r := if answer.Some? then Ok(answer.value) else Err(Unreadable);
    }

    /** Release a descriptor; one that was not open could not be passed here. */
    method CloseSync(fd: nat) returns (ok: bool)
      requires Ledger(open, closed, issued) && fd in open && Meant()
      modifies `turn, `open, `closed
      ensures Ledger(open, closed, issued) && open == old(open) - {fd} && closed == old(closed) + [fd]
      ensures |open| == |old(open)| - 1 && (fine ==> ok)
    {
      LedgerClose(open, closed, issued, fd);
      ok := io.close(turn);
      turn, open, closed := turn + 1, open - {fd}, closed + [fd];
    }

    /** Reserved capacity: refused only at the full cap. */
    method CleanupCall() returns (ok: bool)
      modifies `calls, `starved
      ensures ok == (old(calls).metadataCalls < METADATA_CALLS)
      ensures ok ==> starved == old(starved) && calls == old(calls).(metadataCalls := old(calls).metadataCalls + 1)
      ensures !ok ==> starved && calls == old(calls)
    {
      ok := calls.metadataCalls < METADATA_CALLS;
      if ok {
        calls := calls.(metadataCalls := calls.metadataCalls + 1);
      } else {
        starved := true;
      }
    }

    method OpenDirectory(anchor: Anchor, path: Path, stat: Stat) returns (r: Result<Node>)
      requires Valid() && Usable(anchor, open) && |open| < MAX_OPEN
      modifies `turn, `calls, `open, `issued, `closed
      ensures Valid() && Spends(old(calls), calls, 2)
      ensures r == Err(MetadataLimit) ==> Spent()
      ensures r.Err? ==> open == old(open)
      ensures r.Ok? ==> stat.ftype.Directory? && r.value.fd !in old(open) && open == old(open) + {r.value.fd}
      ensures r.Ok? ==> r.value == Node(anchor, path, stat, r.value.fd)
      ensures fine && Located(tree, anchor) && stat == StatAt(tree, anchor) && stat.ftype.Directory? ==>
        r.Ok? || r.error == MetadataLimit
    {
      hide Truthful, Serves, Plain, Ledger, Within, Affordable;
      if !stat.ftype.Directory? { return Err(Changed); }
      var error := Open(anchor);
      if error.Some? { return Err(error.value); }
      r := Verify(Node(anchor, path, stat, issued - 1));
    }

    /** A descriptor more, or a failure. */
    method Open(anchor: Anchor) returns (error: Option<Code>)
      requires Valid() && Usable(anchor, open) && |open| < MAX_OPEN
      modifies `turn, `calls, `open, `issued
      ensures Valid() && Spends(old(calls), calls, 1)
      ensures error == Some(MetadataLimit) ==> Spent()
      ensures if error.Some? then open == old(open) && issued == old(issued)
              else issued == old(issued) + 1 && old(issued) !in old(open) && open == old(open) + {old(issued)}
                   && open - {old(issued)} == old(open) && calls.directoriesOpened < calls.metadataCalls
      ensures fine ==> error in {None, Some(MetadataLimit)}
    {
      hide Truthful, Plain, Ledger;
      error := Tick(true);
      if error.None? && !io.open(turn, anchor) {
        error := Some(Unreadable);
      }
      turn := turn + 1;
      if error.None? {
        LedgerIssue(open, closed, issued);
        issued, open := issued + 1, open + {issued};
      }
    }

    /** What was opened is what was looked at, or it is released again. */
    method Verify(node: Node) returns (r: Result<Node>)
      requires Valid() && node.fd in open && calls.directoriesOpened < calls.metadataCalls
      modifies `turn, `calls, `open, `closed
      ensures Valid() && Spends(old(calls), calls, 1)
      ensures r == Err(MetadataLimit) ==> Spent()
      ensures if r.Ok? then r.value == node && open == old(open) else open == old(open) - {node.fd}
      ensures fine && Genuine(tree, node) ==> r.Ok? || r.error == MetadataLimit
    {
      hide Truthful, Plain, Serves;
      var check := Fstat(node.fd, node.anchor);
      if check.Err? || node.stat.stamp != check.value.stamp {
        var released := CloseSync(node.fd);
        return Err(if !released then Unreadable else if check.Err? then check.error else Changed);
      }
      calls := calls.(directoriesOpened := calls.directoriesOpened + 1);
      r := Ok(node);
    }

    /** Check a directory once more by descriptor and by name, and release it in every case. */
    method CloseDirectory(node: Node) returns (ok: bool)
      requires Valid() && node.fd in open && Usable(node.anchor, open)
      modifies `turn, `calls, `open, `closed, `starved
      ensures Valid() && Spends(old(calls), calls, 2)
      ensures open == old(open) - {node.fd} && closed == old(closed) + [node.fd]
      ensures fine && Genuine(tree, node) ==> ok
    {
      ok := CleanupCall();
      if ok {
        var byFd := io.fstat(turn, node.fd, node.anchor);
        turn := turn + 1;
        ok := byFd.Some? && node.stat.stamp == byFd.value.stamp;
        if ok {
          ok := CleanupCall();
          if ok {
            var byName := io.lstat(turn, node.anchor);
            turn := turn + 1;
            ok := byName.Some? && node.stat.stamp == byName.value.stamp;
          }
        }
      }
      var released := CloseSync(node.fd);
      ok := ok && released;
    }

    /** Release a chain from its end; what it held is closed, whatever fails. */
    method CloseChain(owned: seq<Node>, ghost others: set<nat>, ghost above: Option<nat>) returns (ok: bool)
      requires Valid() && Holds(open, owned, others) && Linked(owned, above) && (above.Some? ==> above.value in others)
      modifies `turn, `calls, `open, `closed, `starved
      ensures Valid() && Spends(old(calls), calls, 2 * |owned|) && open == others
      ensures fine && AllGenuine(tree, owned) ==> ok
    {
      var chain := owned;
      ok := true;
      while chain != []
        invariant Valid() && |chain| <= |owned| && Spends(old(calls), calls, 2 * (|owned| - |chain|))
        invariant Holds(open, chain, others) && Linked(chain, above)
        invariant fine && AllGenuine(tree, owned) ==> ok && AllGenuine(tree, chain)
        decreases |chain|
      {
        var last := chain[|chain| - 1];
        HoldsPop(open, chain, others);
        LastUsable(open, chain, others, above);
        var released := CloseDirectory(last);
        chain := chain[..|chain| - 1];
        ok := ok && released;
      }
    }

    /** Open one inventoried directory that has not changed since. */
    method Component(anchor: Anchor, path: Path, inventory: Inventory) returns (r: Result<Node>)
      requires Valid() && Usable(anchor, open) && |open| < MAX_OPEN
      modifies `turn, `calls, `open, `issued, `closed
      ensures Valid() && Spends(old(calls), calls, 3)
      ensures r == Err(MetadataLimit) ==> Spent()
      ensures r.Err? ==> open == old(open)
      ensures r.Ok? ==> r.value.fd !in old(open) && open == old(open) + {r.value.fd}
      ensures r.Ok? ==> path in inventory && inventory[path] == r.value.stat && r.value.stat.ftype.Directory?
      ensures r.Ok? ==> r.value == Node(anchor, path, r.value.stat, r.value.fd)
      ensures r.Ok? && truthful && anchor.Inside? ==> Genuine(tree, r.value)
      ensures fine && anchor.Inside? && anchor.path == path && Known(inventory, tree, path) ==>
        r.Ok? || r.error == MetadataLimit
    {
      var found := Lstat(anchor);
      if found.Err? { return Err(found.error); }
      if !Sane(found.value) { return Err(Metadata); }
      if path !in inventory || !inventory[path].ftype.Directory? || inventory[path].stamp != found.value.stamp {
        return Err(Changed);
      }
      r := OpenDirectory(anchor, path, found.value);
    }

    /** One directory more under the end of a chain, or none at all. */
    method Descend(owned: seq<Node>, node: Node, path: Path, inventory: Inventory, ghost others: set<nat>,
                   ghost base: nat)
      returns (r: Result<Node>)
      requires Valid() && Holds(open, owned, others) && Linked(owned, Some(base)) && base in others
      requires node.fd in open && node.fd == (if owned == [] then base else owned[|owned| - 1].fd) && |open| < MAX_OPEN
      modifies `turn, `calls, `open, `issued, `closed, `starved
      ensures Valid() && Spends(old(calls), calls, if r.Ok? then 3 else 3 + 2 * |owned|)
      ensures r == Err(MetadataLimit) ==> Spent()
      ensures r.Err? ==> open == others
      ensures r.Ok? ==>
                && Holds(open, owned + [r.value], others) && Linked(owned + [r.value], Some(base))
                && r.value.fd in open && |open| == |old(open)| + 1
                && (truthful && AllGenuine(tree, owned) ==> AllGenuine(tree, owned + [r.value]))
      ensures fine && Known(inventory, tree, path) && AllGenuine(tree, owned) ==> r.Ok? || r.error == MetadataLimit
    {
      r := Component(Inside(node.fd, path), path, inventory);
      if r.Err? {
        var released := CloseChain(owned, others, Some(base));
        if !released { r := Err(Cleanup); }
      } else {
        ChainGrows(old(open), owned, others, Some(base), r.value, open);
        GenuineGrows(tree, owned, r.value);
      }
    }

    /** Reopen the directories of a path one below the other, each as it was inventoried. */
    method Acquire(root: Node, path: Path, inventory: Inventory) returns (r: Result<(Node, seq<Node>)>)
      requires Valid() && root.fd in open && |open| + |path| <= MAX_OPEN
      modifies `turn, `calls, `open, `issued, `closed, `starved
      ensures Valid() && Spends(old(calls), calls, if r.Ok? then 3 * |path| else 5 * |path|)
      ensures r == Err(MetadataLimit) ==> Spent()
      ensures r.Ok? ==> |r.value.1| == |path|
      ensures r.Err? ==> open == old(open)
      ensures r.Ok? ==> r.value.0.fd in open && Holds(open, r.value.1, old(open)) && Linked(r.value.1, Some(root.fd))
      ensures r.Ok? && truthful ==> AllGenuine(tree, r.value.1)
      ensures fine && Climbable(inventory, tree, path) ==> r.Ok? || r.error == MetadataLimit
    {
      hide Truthful, Serves, Plain, Within, Ledger, Holds, Linked, AllGenuine, Climbable;
      HoldsNothing(open, Some(root.fd), tree);
      var owned: seq<Node> := [];
      var node := root;
      ghost var others := open;
      for i := 0 to |path|
        invariant Valid() && |owned| == i && Spends(old(calls), calls, 3 * i)
        invariant Holds(open, owned, others) && Linked(owned, Some(root.fd)) && |open| == |others| + i
        invariant node.fd in open && node.fd == if owned == [] then root.fd else owned[|owned| - 1].fd
        invariant truthful ==> AllGenuine(tree, owned)
      {
        if fine && Climbable(inventory, tree, path) {
          ClimbableUpTo(inventory, tree, path, i + 1);
        }
        var child := Descend(owned, node, path[..i + 1], inventory, others, root.fd);
        if child.Err? { return Err(child.error); }
        node := child.value;
        owned := owned + [node];
      }
      return Ok((node, owned));
    }

    /** The link-text checks; the text itself is never kept. */
    method InspectLink(anchor: Anchor, stat: Stat) returns (error: Option<Code>)
      requires Valid() && Usable(anchor, open)
      requires links.linkTexts < entryVisits <= ENTRIES_PER_WALK
      modifies `turn, `calls, `links
      ensures Valid() && Spends(old(calls), calls, 2)
      ensures error == Some(MetadataLimit) ==> Spent()
      ensures error.None? ==> links.linkTexts == old(links).linkTexts + 1
      ensures
        (fine && anchor.Inside? && anchor.path in tree.stats && stat == tree.stats[anchor.path]
         && stat.stamp.size <= LINK_BYTES && tree.links(anchor.path) <= LINK_BYTES) ==>
          error in {None, Some(TotalBytes), Some(MetadataLimit)}
      ensures fine && anchor.Inside? && anchor.path in tree.stats ==>
        && links.linkBytes <= old(links).linkBytes + tree.links(anchor.path)
        && (error == Some(TotalBytes) ==> old(links).linkBytes + tree.links(anchor.path) > TOTAL_LINK_BYTES)
    {
      hide Truthful, Plain, Ledger;
      if stat.stamp.size > LINK_BYTES { return Some(FileSize); }
      error := Tick(true);
      if error.Some? { return; }
      var bytes := io.readlink(turn, anchor);
      turn := turn + 1;
      if bytes.None? { return Some(Unreadable); }
      var text := bytes.value;
      if text.length > LINK_BYTES { return Some(FileSize); }
      if links.linkBytes + text.length > TOTAL_LINK_BYTES { return Some(TotalBytes); }
      links := Links(links.linkTexts + 1, links.linkBytes + text.length);
      if !text.readable { return Some(Encoding); }
      var again := Lstat(anchor);
      if again.Err? { return Some(again.error); }
      return if stat.stamp != again.value.stamp then Some(Changed) else None;
    }

    /** Select the first file whose link count is not one, and count the names of the selected inode. */
    method AdmitFile(path: Path, stat: Stat, tally: Tally, first: bool) returns (r: Result<Tally>)
      requires Sane(stat) && stat.ftype.File? && tally.files <= FILES_PER_WALK
      requires Declared(selected, rejection, observed, accounting, entryVisits)
      requires entryVisits > 0 && (!first ==> selected.Some?)
      modifies `selected, `rejection, `observed, `accounting
      ensures Declared(selected, rejection, observed, accounting, entryVisits)
      ensures selected == if old(selected).None? && stat.stamp.nlink != 1 then Some(Selected(path, stat))
        else old(selected)
      ensures r.Ok? ==>
                && r.value == tally.(files := tally.files + 1, fileBytes := r.value.fileBytes,
                  matches := r.value.matches)
                && r.value.files <= FILES_PER_WALK && r.value.matches == tally.matches + Counts(stat, selected)
                && (Counts(stat, selected) == 1 ==> stat.stamp == selected.value.stat.stamp)
                && r.value.fileBytes == tally.fileBytes + (if selected.None? then stat.stamp.size else 0)
                && (selected.None? ==> stat.stamp.size <= FILE_BYTES && r.value.fileBytes <= INVENTORY_FILE_BYTES)
      ensures r.Err? ==> Objects(r.error, stat, tally, selected)
    {
      if first && selected.None? && stat.stamp.nlink != 1 {
        selected := Some(Selected(path, stat));
        rejection, observed, accounting := Some(FileLinkCount), Some(stat.stamp.nlink), Unaccounted;
        if stat.stamp.nlink == 0 { return Err(Changed); }
      }
      var counted := tally.(files := tally.files + 1);
      if counted.files > FILES_PER_WALK { return Err(FileLimit); }
      if selected.None? {
        if stat.stamp.size > FILE_BYTES { return Err(FileSize); }
        counted := counted.(fileBytes := counted.fileBytes + stat.stamp.size);
        if counted.fileBytes > INVENTORY_FILE_BYTES { return Err(TotalBytes); }
      } else if InodeOf(stat) == InodeOf(selected.value.stat) {
        if stat.stamp != selected.value.stat.stamp { return Err(Changed); }
        counted := counted.(matches := counted.matches + 1);
      }
      return Ok(counted);
    }

    /** Name and place of one entry: a new path short enough for what is left of the budget. */
    method Place(item: Item, entry: Listing, pass: Pass, ghost second: Option<Inventory>)
      returns (r: Result<(Path, Tally)>)
      requires entry.Named? || entry.BadName?
      ensures r.Ok? ==>
                && entry.Named? && !rules.forbidden(entry.name) && !rules.malformed(entry.name)
                && r.value.0 == item.path + [entry.name] && r.value.0 !in pass.inventory
                && OUTPUT_BYTES + rules.pathBytes(r.value.0) <= PATH_BYTES
                && r.value.1 == pass.tally.(pathBytes := pass.tally.pathBytes + rules.pathBytes(r.value.0))
                && r.value.1.pathBytes <= INVENTORY_PATH_BYTES
      ensures r.Err? && entry.Named? ==>
        var path := item.path + [entry.name];
        || (r.error == ForbiddenFile && rules.forbidden(entry.name))
        || (r.error == BadPath && rules.malformed(entry.name))
        || (r.error == PathLimit && OUTPUT_BYTES + rules.pathBytes(path) > PATH_BYTES)
        || (r.error == PathBudget && pass.tally.pathBytes + rules.pathBytes(path) > INVENTORY_PATH_BYTES)
        || (r.error == Metadata && path in pass.inventory)
      ensures r.Err? && entry.Named? && Acceptable(tree, rules, pass, item.path + [entry.name], second) ==>
        && r.error == PathBudget
        && pass.tally.pathBytes + Weight(tree, rules, item.path + [entry.name]).pathBytes > INVENTORY_PATH_BYTES
    {
      if entry.BadName? { return Err(entry.why); }
      if rules.forbidden(entry.name) { return Err(ForbiddenFile); }
      if rules.malformed(entry.name) { return Err(BadPath); }
      var path := item.path + [entry.name];
      if OUTPUT_BYTES + rules.pathBytes(path) > PATH_BYTES { return Err(PathLimit); }
      var longer := pass.tally.(pathBytes := pass.tally.pathBytes + rules.pathBytes(path));
      if longer.pathBytes > INVENTORY_PATH_BYTES { return Err(PathBudget); }
      if path in pass.inventory { return Err(Metadata); }
      return Ok((path, longer));
    }

    /** What kind of thing was found, and its part of the accounting. */
    method Sort(anchor: Anchor, path: Path, stat: Stat, pass: Pass, tally: Tally, first: bool)
      returns (r: Result<Tally>)
      requires Valid() && Usable(anchor, open) && anchor.Inside? && anchor.path == path
      requires Sane(stat) && pass.tally.files <= FILES_PER_WALK
      requires tally == pass.tally.(pathBytes := pass.tally.pathBytes + rules.pathBytes(path))
      requires Declared(selected, rejection, observed, accounting, entryVisits)
      requires entryVisits > 0 && (!first ==> selected.Some?)
      requires first ==> links.linkTexts < entryVisits <= ENTRIES_PER_WALK
      modifies `turn, `calls, `links, `selected, `rejection, `observed, `accounting
      ensures Valid() && Spends(old(calls), calls, LookCalls(stat.ftype) - 1)
      ensures r == Err(MetadataLimit) ==> Spent()
      ensures Declared(selected, rejection, observed, accounting, entryVisits)
      ensures old(selected).Some? ==> selected == old(selected)
      ensures r.Ok? ==> !stat.ftype.OtherType? && Admitted(pass, r.value, path, stat, None, selected)
      ensures TrueSelection(tree, old(selected)) && path in tree.stats && tree.stats[path] == stat ==>
        TrueSelection(tree, selected)
      ensures
        (fine && TrueSelection(tree, old(selected)) && Acceptable(tree, rules, pass, path, None)
         && tree.stats[path] == stat) ==>
          || r.Ok? || Overflows(r.error, pass.tally, old(links).linkBytes, Weight(tree, rules, path), first)
          || r.error == MetadataLimit
      ensures path in tree.stats && tree.stats[path] == stat ==>
        && (r.Ok? ==> Loaded(pass.tally, r.value, Weight(tree, rules, path)))
        && (fine ==> links.linkBytes <= old(links).linkBytes + Weight(tree, rules, path).linkBytes)
    {
      hide Truthful, Serves, Plain, Within, Ledger, Weight, Objects;
      WeightOf(tree, rules, path);
      match stat.ftype
      case Symlink =>
        if first && selected.None? {
          var error := InspectLink(anchor, stat);
          if error.Some? { return Err(error.value); }
        }
        r := Ok(tally);
      case File =>
        r := AdmitFile(path, stat, tally, first);
        if fine && r.Err? && Acceptable(tree, rules, pass, path, None) && tree.stats[path] == stat
           && TrueSelection(tree, selected) {
          FileOverflows(tree, rules, pass, tally, path, selected, r.error, links.linkBytes, first);
        }
      case Directory =>
        r := if InodeOf(stat) in pass.directories then Err(DirectoryIdentity) else Ok(tally);
      case OtherType =>
        r := Err(BadFileType);
    }

    /** Look at a new name: what it is, whether it is admitted, and whether it is what the first walk saw. */
    method Meet(anchor: Anchor, path: Path, pass: Pass, tally: Tally, second: Option<Inventory>)
      returns (r: Result<(Stat, Tally)>)
      requires Valid() && Usable(anchor, open) && anchor.Inside? && anchor.path == path
      requires pass.tally.files <= FILES_PER_WALK
      requires tally == pass.tally.(pathBytes := pass.tally.pathBytes + rules.pathBytes(path))
      requires Declared(selected, rejection, observed, accounting, entryVisits)
      requires entryVisits > 0 && (second.Some? ==> selected.Some?)
      requires second.None? ==> links.linkTexts < entryVisits <= ENTRIES_PER_WALK
      modifies `turn, `calls, `links, `selected, `rejection, `observed, `accounting
      ensures Valid() && old(calls).metadataCalls <= calls.metadataCalls
      ensures r == Err(MetadataLimit) ==> Spent()
      ensures fine && path in tree.stats ==>
        && Spends(old(calls), calls, LookCalls(tree.stats[path].ftype))
        && links.linkBytes <= old(links).linkBytes + Weight(tree, rules, path).linkBytes
        && (r.Ok? ==> Loaded(pass.tally, r.value.1, Weight(tree, rules, path)))
      ensures Declared(selected, rejection, observed, accounting, entryVisits)
      ensures old(selected).Some? ==> selected == old(selected)
      ensures r.Ok? ==>
                Admitted(pass, r.value.1, path, r.value.0, second, selected) && Some(r.value.0.stamp.dev) == device
      ensures r.Ok? && truthful ==> path in tree.stats && tree.stats[path] == r.value.0
      ensures truthful && TrueSelection(tree, old(selected)) ==> TrueSelection(tree, selected)
      ensures
        (fine && TrueSelection(tree, old(selected)) && Acceptable(tree, rules, pass, path, second)
         && device == Some(HomeOf(tree))) ==>
          || r.Ok? || Overflows(r.error, pass.tally, old(links).linkBytes, Weight(tree, rules, path), second.None?)
          || r.error == MetadataLimit
    {
      hide Truthful, Serves, Plain, Within, Ledger, Declared, TrueSelection;
      var found := Lstat(anchor);
      if found.Err? { return Err(found.error); }
      var stat := found.value;
      if !Sane(stat) { return Err(Metadata); }
      if Some(stat.stamp.dev) != device { return Err(Device); }
      var sorted := Sort(anchor, path, stat, pass, tally, second.None?);
      if sorted.Err? { return Err(sorted.error); }
      if second.Some? && (path !in second.value || second.value[path] != stat) { return Err(Changed); }
      return Ok((stat, sorted.value));
    }

    /** Count an entry of the directory held by `fd`, place its name and look at it. */
    method Enter(fd: nat, item: Item, entry: Listing, pass: Pass, second: Option<Inventory>)
      returns (r: Result<(Path, Stat, Tally)>)
      requires Valid() && fd in open && (entry.Named? || entry.BadName?) && pass.tally.files <= FILES_PER_WALK
      requires Declared(selected, rejection, observed, accounting, entryVisits)
      requires second.Some? ==> selected.Some?
      requires entryVisits == Base(second) + |pass.inventory|
      modifies `turn, `calls, `links, `entryVisits, `selected, `rejection, `observed, `accounting
      ensures Valid() && old(calls).metadataCalls <= calls.metadataCalls
      ensures entry.Named? && r == Err(MetadataLimit) ==> Spent()
      ensures fine && entry.Named? && item.path + [entry.name] in tree.stats ==>
        var path := item.path + [entry.name];
        && Spends(old(calls), calls, LookCalls(tree.stats[path].ftype))
        && links.linkBytes <= old(links).linkBytes + Weight(tree, rules, path).linkBytes
        && (r.Ok? ==> Loaded(pass.tally, r.value.2, Weight(tree, rules, path)))
      ensures Declared(selected, rejection, observed, accounting, entryVisits)
      ensures old(selected).Some? ==> selected == old(selected)
      ensures r.Ok? ==>
                && entry.Named? && r.value.0 == item.path + [entry.name] && r.value.0 !in pass.inventory
                && |pass.inventory| < ENTRIES_PER_WALK && entryVisits == old(entryVisits) + 1
                && Admitted(pass, r.value.2, r.value.0, r.value.1, second, selected)
                && (truthful ==> r.value.0 in tree.stats && tree.stats[r.value.0] == r.value.1)
      ensures truthful && TrueSelection(tree, old(selected)) ==> TrueSelection(tree, selected)
      ensures
        (fine && TrueSelection(tree, old(selected)) && entry.Named? && device == Some(HomeOf(tree))
         && Acceptable(tree, rules, pass, item.path + [entry.name], second)) ==>
          || r.Ok? || Crowded(r.error, pass.inventory, second) || r.error == MetadataLimit
          || Overflows(r.error, pass.tally, old(links).linkBytes, Weight(tree, rules, item.path + [entry.name]),
                       second.None?)
    {
      hide Truthful, Serves, Plain, Ledger, Admitted, Acceptable, Weight, Loaded, TrueSelection;
      if |pass.inventory| >= ENTRIES_PER_WALK || entryVisits >= ENTRY_VISITS { return Err(EntryLimit); }
      entryVisits := entryVisits + 1;
      var place := Place(item, entry, pass, second);
      if place.Err? { return Err(place.error); }
      var path := place.value.0;
      var met := Meet(Inside(fd, path), path, pass, place.value.1, second);
      if met.Err? { return Err(met.error); }
      return Ok((path, met.value.0, met.value.1));
    }

    ghost predicate Declaring()
      reads `selected, `rejection, `observed, `accounting, `entryVisits
    {
      Declared(selected, rejection, observed, accounting, entryVisits)
    }

    /** What is left over goes to the walk at hand; a second one reads no link. */
    ghost predicate Weighed(pass: Pass, second: Option<Inventory>)
      reads `links
    {
      fine ==> Charged(tree, rules, pass, if second.None? then links.linkBytes else 0)
    }

    /** There are calls left for the directories from the cursor on, and for so many more. */
    ghost predicate Paid(pass: Pass, cursor: nat, second: Option<Inventory>, left: nat)
      reads `calls
    {
      fine ==> Budgeted(tree, rules, pass, cursor, second, calls.metadataCalls + left)
    }

    /** Between two entries of a walk. */
    ghost predicate Walking(pass: Pass, second: Option<Inventory>)
      reads `selected, `entryVisits, `links
    {
      && Weighed(pass, second)
      && Sound(pass, second, selected)
      && entryVisits == Base(second) + |pass.inventory|
      && (truthful ==> TrueTo(pass.inventory, tree) && TrueSelection(tree, selected))
    }

    /** Entries are compared with the device of the tree. */
    ghost predicate AtHome()
      reads this`device
    {
      fine ==> device == Some(HomeOf(tree))
    }

    /** An acceptable entry is refused only for a limit that the tree exceeds. */
    lemma Refused(path: Path, pass: Pass, second: Option<Inventory>, linkBytes: nat, why: Code)
      requires TrueTo(pass.inventory, tree) && Acceptable(tree, rules, pass, path, second)
      requires Charged(tree, rules, pass, if second.None? then linkBytes else 0)
      requires || Overflows(why, pass.tally, linkBytes, Weight(tree, rules, path), second.None?)
               || Crowded(why, pass.inventory, second) || why == MetadataLimit
      ensures (second.Some? ==> second.value == tree.stats) ==> Exceeds(tree, rules, why) || why == MetadataLimit
    {
      if Overflows(why, pass.tally, linkBytes, Weight(tree, rules, path), second.None?) {
        OverflowExceeds(tree, rules, pass, linkBytes, path, why, second.None?);
      } else if Crowded(why, pass.inventory, second) && (second.Some? ==> second.value == tree.stats) {
        CrowdedExceeds(tree, rules, pass.inventory, path, second);
      }
    }

    /** One entry, recorded. */
    method Admit(fd: nat, item: Item, entry: Listing, pass: Pass, second: Option<Inventory>) returns (r: Result<Pass>)
      requires AtHome()
      requires Valid() && Declaring()
      requires Walking(pass, second) && fd in open && (entry.Named? || entry.BadName?) && item.depth == |item.path|
      modifies `turn, `calls, `links, `entryVisits, `selected, `rejection, `observed, `accounting
      ensures Valid() && Declaring()
      ensures old(calls).metadataCalls <= calls.metadataCalls
      ensures entry.Named? && r == Err(MetadataLimit) ==> Spent()
      ensures fine && entry.Named? && item.path + [entry.name] in tree.stats ==>
        Spends(old(calls), calls, LookCalls(tree.stats[item.path + [entry.name]].ftype))
      ensures old(selected).Some? ==> selected == old(selected)
      ensures r.Ok? ==>
                && Walking(r.value, second) && Extends(pass, r.value)
                && entry.Named? && item.path + [entry.name] in r.value.inventory
      ensures r.Ok? && truthful ==>
        var path := item.path + [entry.name];
        path in tree.stats && r.value == Recorded(pass, path, tree.stats[path], |path|, r.value.tally)
      ensures
        (fine && entry.Named? && Acceptable(tree, rules, pass, item.path + [entry.name], second)
         && (second.Some? ==> second.value == tree.stats)) ==>
          r.Ok? || Exceeds(tree, rules, r.error) || r.error == MetadataLimit
    {
      hide Truthful, Serves, Plain, Within, Ledger, Acceptable, Exceeds, Sound, TrueTo, TrueSelection, Admitted,
        Extends, Overflows, Crowded, Charged, Loaded, Weight, Total;
      SoundFor(pass, second, selected);
      var entered := Enter(fd, item, entry, pass, second);
      if entered.Err? {
        if fine && entry.Named? && Acceptable(tree, rules, pass, item.path + [entry.name], second) {
          Refused(item.path + [entry.name], pass, second, old(links).linkBytes, entered.error);
        }
        return Err(entered.error);
      }
      var (path, stat, tally) := entered.value;
      RecordedSound(pass, tally, path, stat, second, old(selected), selected);
      RecordedGrows(pass, tally, path, stat);
      if truthful {
        RecordedTrue(pass, tally, path, stat, tree);
      }
      if fine {
        ChargedNext(tree, rules, pass, tally, path, if second.None? then old(links).linkBytes else 0,
                    if second.None? then links.linkBytes else 0);
      }
      return Ok(Recorded(pass, path, stat, item.depth + 1, tally));
    }

    /** The next answer of the directory being listed. */
    method Next(item: Item, k: nat) returns (r: Result<Listing>)
      requires Valid()
      modifies `turn, `calls
      ensures Valid()
      ensures r.Ok? ==> !r.value.ReadFails? && calls == old(calls).(metadataCalls := old(calls).metadataCalls + 1)
      ensures r.Err? ==> Called(old(calls), calls) && (r.error == MetadataLimit ==> Spent())
      ensures r.Ok? && truthful && r.value.Named? ==>
                k < |tree.names(item.path)| && tree.names(item.path)[k] == r.value.name
      ensures r.Ok? && truthful && r.value.End? ==> |tree.names(item.path)| <= k
      ensures fine ==> if r.Ok? then r.value.Named? || r.value.End? else r.error == MetadataLimit
    {
      var error := Tick(true);
      if error.Some? { return Err(error.value); }
      var answer := io.read(turn, item.path, k);
      turn := turn + 1;
      r := if answer.ReadFails? then Err(Unreadable) else Ok(answer);
    }

    /** After the first `k` names of the directory at the cursor. */
    ghost predicate Reading(pass: Pass, item: Item, cursor: nat, k: nat, second: Option<Inventory>)
      reads `selected, `entryVisits, `links
    {
      && Walking(pass, second) && item.depth == |item.path| && cursor < |pass.queue| && pass.queue[cursor] == item
      && (truthful ==> k <= |tree.names(item.path)| && Listed(pass.inventory, item.path, tree.names(item.path), k))
      && (fine ==> Orderly(tree, pass, cursor) && NotYet(pass.inventory, item.path, tree.names(item.path), k))
    }

    lemma ReadingTrue(pass: Pass, item: Item, cursor: nat, k: nat, second: Option<Inventory>)
      requires Reading(pass, item, cursor, k, second) && Meant() && fine
      ensures TrueTo(pass.inventory, tree)
    {
    }

    /** One more name, or the end. */
    method Step(fd: nat, item: Item, pass: Pass, ghost cursor: nat, k: nat, second: Option<Inventory>)
      returns (r: Result<Option<Pass>>)
      requires AtHome()
      requires Valid() && Declaring()
      requires Reading(pass, item, cursor, k, second) && fd in open
        && Paid(pass, cursor + 1, second, 2 * |item.path| + 1)
      requires fine && second.Some? ==> second.value == tree.stats
      modifies `turn, `calls, `links, `entryVisits, `selected, `rejection, `observed, `accounting
      ensures Valid() && Declaring()
      ensures old(calls).metadataCalls <= calls.metadataCalls
      ensures old(selected).Some? ==> selected == old(selected)
      ensures r.Ok? && r.value.Some? ==>
                && Reading(r.value.value, item, cursor, k + 1, second) && Extends(pass, r.value.value)
                && Paid(r.value.value, cursor + 1, second, 2 * |item.path| + 1)
                && old(calls).metadataCalls < calls.metadataCalls
      ensures r.Ok? && r.value.None? ==>
                Walking(pass, second) && Paid(pass, cursor + 1, second, 2 * |item.path|)
                  && (truthful ==> Full(pass.inventory, item.path, tree.names))
      ensures fine ==> r.Ok? || Exceeds(tree, rules, r.error)
    {
      hide Truthful, Serves, Plain, Within, Ledger, Declaring, Orderly, NotYet, Acceptable, Exceeds, Weighed, Total,
           Pending, Sound, TrueSelection, Fits, Hangs, CallsBefore, Whole, LookCalls, TrueTo, Rooted;
      var entry := Next(item, k);
      if entry.Err? {
        if fine {
          BudgetExceeds(tree, rules, pass, cursor + 1, second, old(calls).metadataCalls);
        }
        return Err(entry.error);
      }
      if entry.value.End? { return Ok(None); }
      if fine {
        NextAcceptable(tree, rules, pass, cursor, k, second);
      }
      var admitted := Admit(fd, item, entry.value, pass, second);
      if admitted.Err? {
        if fine && admitted.error == MetadataLimit {
          BudgetExceedsAt(tree, rules, pass, item.path + [entry.value.name], cursor + 1, second,
            old(calls).metadataCalls);
        }
        return Err(admitted.error);
      }
      if truthful {
        ListedGrows(pass.inventory, admitted.value.inventory, item.path, tree.names(item.path), k);
      }
      if fine {
        BudgetedNext(tree, rules, pass, admitted.value.tally, item.path + [entry.value.name], cursor + 1, second,
                     old(calls).metadataCalls + 2 * |item.path| + 1);
        OrderlyNext(tree, rules, pass, admitted.value.tally, cursor, k);
      }
      return Ok(Some(admitted.value));
    }

    /** Read a directory to its end. */
    method Read(fd: nat, item: Item, before: Pass, ghost cursor: nat, second: Option<Inventory>)
      returns (r: Result<Pass>)
      requires AtHome()
      requires Valid() && Declaring()
      requires Reading(before, item, cursor, 0, second) && fd in open
        && Paid(before, cursor + 1, second, 2 * |item.path| + 1)
      requires fine && second.Some? ==> second.value == tree.stats
      modifies `turn, `calls, `links, `entryVisits, `selected, `rejection, `observed, `accounting
      ensures Valid() && Declaring()
      ensures old(calls).metadataCalls <= calls.metadataCalls
      ensures old(selected).Some? ==> selected == old(selected)
      ensures r.Ok? ==>
                && Walking(r.value, second) && Extends(before, r.value)
                && Paid(r.value, cursor + 1, second, 2 * |item.path|)
                && (truthful ==> Full(r.value.inventory, item.path, tree.names))
                && (fine ==> Orderly(tree, r.value, cursor))
      ensures fine ==> r.Ok? || Exceeds(tree, rules, r.error)
    {
      hide Truthful, Serves, Plain, Walking, Within, Ledger, Declaring, Listed, Orderly, NotYet, Full, Exceeds;
      var pass := before;
      var k := 0;
      while true
        invariant Valid() && Declaring() && Reading(pass, item, cursor, k, second) && Extends(before, pass)
        invariant Paid(pass, cursor + 1, second, 2 * |item.path| + 1)
        invariant old(calls).metadataCalls <= calls.metadataCalls
        invariant old(selected).Some? ==> selected == old(selected)
        decreases METADATA_CALLS - calls.metadataCalls
      {
        var step := Step(fd, item, pass, cursor, k, second);
        if step.Err? { return Err(step.error); }
        if step.value.None? { return Ok(pass); }
        pass, k := step.value.value, k + 1;
      }
    }

    /** List the directory held by `fd`; the listing is closed again whatever happens. */
    method List(fd: nat, item: Item, pass: Pass, ghost cursor: nat, second: Option<Inventory>) returns (r: Result<Pass>)
      requires AtHome()
      requires Valid() && Declaring()
      requires Reading(pass, item, cursor, 0, second) && fd in open && !listing
      requires Paid(pass, cursor + 1, second, 2 * |item.path| + 2)
      requires fine && second.Some? ==> second.value == tree.stats
      modifies `turn, `calls, `links, `entryVisits, `selected, `rejection, `observed, `accounting, `listing
      ensures Valid() && Declaring()
      ensures old(calls).metadataCalls <= calls.metadataCalls && !listing
      ensures old(selected).Some? ==> selected == old(selected)
      ensures r.Ok? ==>
                && calls.metadataCalls > old(calls).metadataCalls
                && Walking(r.value, second) && Extends(pass, r.value)
                  && Paid(r.value, cursor + 1, second, 2 * |item.path|)
                && (truthful ==> Full(r.value.inventory, item.path, tree.names))
                && (fine ==> Orderly(tree, r.value, cursor))
      ensures fine ==> r.Ok? || Exceeds(tree, rules, r.error)
    {
      hide Walking, Ledger, Declaring, Listed, Orderly, NotYet, Full, Extends, Reading, Plain;
      var error := Tick(true);
      if error.Some? {
        if fine {
          ReadingTrue(pass, item, cursor, 0, second);
          BudgetExceeds(tree, rules, pass, cursor + 1, second, calls.metadataCalls);
        }
        return Err(error.value);
      }
      var acquired := io.opendir(turn, fd);
      turn := turn + 1;
      if !acquired { return Err(Unreadable); }
      listing := true;
      r := Read(fd, item, pass, cursor, second);
      var released := io.closeIterator(turn);
      turn, listing := turn + 1, false;
      if !released { r := Err(Unreadable); }
    }

    /** List a directory held through `owned`, and let those go. */
    method Visit(node: Node, owned: seq<Node>, item: Item, pass: Pass, ghost cursor: nat, second: Option<Inventory>,
                 ghost others: set<nat>, ghost above: nat)
      returns (r: Result<Pass>)
      requires AtHome()
      requires Valid() && Declaring()
      requires Reading(pass, item, cursor, 0, second) && !listing && Paid(pass, cursor + 1, second, 2 * |item.path| + 2)
      requires fine ==> AllGenuine(tree, owned) && (second.Some? ==> second.value == tree.stats)
      requires node.fd in open && Holds(open, owned, others) && Linked(owned, Some(above)) && above in others
      requires |owned| == |item.path|
      modifies `turn, `calls, `links, `entryVisits, `selected, `rejection, `observed, `accounting, `listing,
               `open, `closed, `starved
      ensures Valid() && Declaring()
      ensures !listing && open == others
      ensures old(calls).metadataCalls <= calls.metadataCalls
      ensures old(selected).Some? ==> selected == old(selected)
      ensures r.Ok? ==>
                && calls.metadataCalls > old(calls).metadataCalls
                && Walking(r.value, second) && Extends(pass, r.value) && Paid(r.value, cursor + 1, second, 0)
                && (truthful ==> Full(r.value.inventory, item.path, tree.names))
                && (fine ==> Orderly(tree, r.value, cursor))
      ensures fine ==> r.Ok? || Exceeds(tree, rules, r.error)
    {
      hide Truthful, Serves, Plain, Walking, Within, Declaring, Listed, Orderly, NotYet, Full, Extends, Reading,
           AllGenuine, Linked;
      r := List(node.fd, item, pass, cursor, second);
      var released := CloseChain(owned, others, Some(above));
      if !released { r := Err(Cleanup); }
    }

    /** Hold one queued directory, unless it lies too deep. */
    method Reach(root: Node, item: Item, pass: Pass, ghost cursor: nat, second: Option<Inventory>)
      returns (r: Result<(Node, seq<Node>)>)
      requires Valid() && Reading(pass, item, cursor, 0, second) && Paid(pass, cursor, second, 0)
      requires root.fd in open && |open| == FIXED
      modifies `turn, `calls, `open, `issued, `closed, `starved
      ensures Valid() && old(calls).metadataCalls <= calls.metadataCalls
      ensures r.Err? ==> open == old(open)
      ensures r.Ok? ==>
                && r.value.0.fd in open && Holds(open, r.value.1, old(open)) && Linked(r.value.1, Some(root.fd))
                && |r.value.1| == |item.path| && Paid(pass, cursor + 1, second, 2 * |item.path| + 2)
                && (truthful ==> AllGenuine(tree, r.value.1))
      ensures fine ==> r.Ok? || Exceeds(tree, rules, r.error)
    {
      hide Truthful, Serves, Plain, Within, Ledger, Listed, Orderly, NotYet, Climbable, Linked, Exceeds, Pending, Whole,
           Total, AllGenuine, Affordable, Holds;
      if fine {
        WayOpen(tree, pass, cursor);
        ReadingTrue(pass, item, cursor, 0, second);
        BudgetedVisit(tree, rules, pass, cursor, second, calls.metadataCalls, 5 * |item.path| + 2);
        BudgetExceeds(tree, rules, pass, cursor + 1, second, calls.metadataCalls + 5 * |item.path| + 2);
      }
      if item.depth > DEPTH {
        if fine {
          DeepExceeds(tree, rules, pass.inventory, item.path);
        }
        return Err(DepthLimit);
      }
      r := Acquire(root, item.path, pass.inventory);
    }

    /** Reach one queued directory, list it, let it go. */
    method Expand(root: Node, item: Item, pass: Pass, ghost cursor: nat, second: Option<Inventory>)
      returns (r: Result<Pass>)
      requires AtHome()
      requires Valid() && Declaring()
      requires Reading(pass, item, cursor, 0, second) && !listing && Paid(pass, cursor, second, 0)
      requires fine && second.Some? ==> second.value == tree.stats
      requires root.fd in open && |open| == FIXED
      modifies `turn, `calls, `links, `entryVisits, `selected, `rejection, `observed, `accounting, `listing,
               `open, `issued, `closed, `starved
      ensures Valid() && Declaring()
      ensures !listing && open == old(open)
      ensures old(selected).Some? ==> selected == old(selected)
      ensures r.Ok? ==>
                && calls.metadataCalls > old(calls).metadataCalls
                && Walking(r.value, second) && Extends(pass, r.value) && Paid(r.value, cursor + 1, second, 0)
                && (truthful ==> Full(r.value.inventory, item.path, tree.names))
                && (fine ==> Orderly(tree, r.value, cursor))
      ensures fine ==> r.Ok? || Exceeds(tree, rules, r.error)
    {
      hide Truthful, Serves, Plain, Walking, Within, Ledger, Declaring, Orderly, Full, Extends, Linked, Exceeds,
           AllGenuine, Affordable, Holds, Reading, Paid;
      ghost var others := open;
      var acquired := Reach(root, item, pass, cursor, second);
      if acquired.Err? { return Err(acquired.error); }
      r := Visit(acquired.value.0, acquired.value.1, item, pass, cursor, second, others, root.fd);
    }

    /** Before the visit of the directory at the cursor. */
    ghost predicate Midway(pass: Pass, cursor: nat, second: Option<Inventory>)
      reads `selected, `entryVisits, `links, `calls
    {
      && Walking(pass, second) && cursor <= |pass.queue| && Paid(pass, cursor, second, 0)
      && (truthful ==> ListedBefore(pass.inventory, pass.queue, cursor, tree.names))
      && (fine && cursor < |pass.queue| ==>
            var d := pass.queue[cursor].path;
            Orderly(tree, pass, cursor) && NotYet(pass.inventory, d, tree.names(d), 0))
    }

    /** The directory at the cursor, if the deadline has not passed. */
    method Advance(root: Node, pass: Pass, cursor: nat, second: Option<Inventory>) returns (r: Result<Pass>)
      requires AtHome()
      requires Valid() && Declaring()
      requires Midway(pass, cursor, second) && cursor < |pass.queue| && !listing && root.fd in open && |open| == FIXED
      requires fine && second.Some? ==> second.value == tree.stats
      modifies `turn, `calls, `links, `entryVisits, `selected, `rejection, `observed, `accounting, `listing,
               `open, `issued, `closed, `starved
      ensures Valid() && Declaring()
      ensures !listing && open == old(open)
      ensures old(selected).Some? ==> selected == old(selected)
      ensures r.Ok? ==> calls.metadataCalls > old(calls).metadataCalls
      ensures r.Ok? ==> Midway(r.value, cursor + 1, second)
      ensures fine ==> r.Ok? || Exceeds(tree, rules, r.error)
    {
      hide Truthful, Serves, Plain, Within, Ledger, Declaring, Orderly, NotYet, Full;
      var late := Tick(false);
      if late.Some? { return Err(late.value); }
      r := Expand(root, pass.queue[cursor], pass, cursor, second);
      if r.Ok? {
        if truthful {
          ListedStays(pass, r.value, cursor, tree.names);
        }
        if fine && cursor + 1 < |r.value.queue| {
          OrderlyAdvance(tree, r.value, cursor);
        }
      }
    }

    /** Visit the queue to its end. */
    method Drain(root: Node, start: Pass, second: Option<Inventory>) returns (r: Result<Pass>)
      requires AtHome()
      requires Valid() && Declaring()
      requires Midway(start, 0, second) && !listing && root.fd in open && |open| == FIXED
      requires fine && second.Some? ==> second.value == tree.stats
      modifies `turn, `calls, `links, `entryVisits, `selected, `rejection, `observed, `accounting, `listing,
               `open, `issued, `closed, `starved
      ensures Valid() && Declaring()
      ensures !listing && open == old(open)
      ensures old(selected).Some? ==> selected == old(selected)
      ensures r.Ok? ==> Midway(r.value, |r.value.queue|, second)
      ensures fine ==> r.Ok? || Exceeds(tree, rules, r.error)
    {
      hide Truthful, Serves, Plain, Walking, Within, Ledger, Declaring, ListedBefore, Orderly, NotYet, Exceeds;
      var pass := start;
      var cursor := 0;
      while cursor < |pass.queue|
        invariant Valid() && Declaring() && Midway(pass, cursor, second)
        invariant !listing && open == old(open)
        invariant old(selected).Some? ==> selected == old(selected)
        decreases METADATA_CALLS - calls.metadataCalls
      {
        var next := Advance(root, pass, cursor, second);
        if next.Err? { return next; }
        pass, cursor := next.value, cursor + 1;
      }
      r := Ok(pass);
    }

    /** The walk may start here: the root is the tree's, and a second walk has the whole tree to compare with. */
    ghost predicate Prepared(root: Node, second: Option<Inventory>)
      reads this
    {
      && Meant() && (truthful ==> TrueSelection(tree, selected))
      && (fine ==> device == Some(HomeOf(tree)) && Genuine(tree, root) && root.stat == tree.above[FIXED - 1])
      && (fine && second.Some? ==> second.value == tree.stats)
      && (fine ==> calls.metadataCalls <= CallsBefore(tree, rules, second))
      && (fine && second.None? ==> links.linkBytes == 0)
    }

    /** One breadth-first walk, checked against the first where there was one. */
    method Walk(root: Node, second: Option<Inventory>) returns (r: Result<Pass>)
      requires Valid() && Declaring() && !listing && root.fd in open && |open| == FIXED && Prepared(root, second)
      requires entryVisits == Base(second) && (second.Some? ==> selected.Some?)
      modifies `turn, `calls, `links, `entryVisits, `walksCompleted, `selected, `rejection, `observed, `accounting,
               `listing, `open, `issued, `closed, `starved
      ensures Valid() && Declaring() && !listing && open == old(open)
      ensures old(selected).Some? ==> selected == old(selected)
      ensures walksCompleted == old(walksCompleted) + (if r.Ok? then 1 else 0)
      ensures r.Ok? ==> entryVisits == Base(second) + |r.value.inventory|
      ensures r.Ok? ==>
                Walked(r.value, second, selected, truthful, tree) && (truthful ==> TrueSelection(tree, selected))
      ensures fine ==> r.Ok? || Exceeds(tree, rules, r.error)
      ensures r.Ok? && fine ==>
        calls.metadataCalls <= CallsBefore(tree, rules, second) + VisitCalls(0) + Whole(tree, rules).calls + 1
    {
      hide Truthful, Serves, Within, Ledger, Declaring, Walked, Sound, Exceeds, Charged, Budgeted, Total, Whole,
           CallsBefore, Pending, AliasFree, SingleLinks, Rooted, Orderly, NotYet, TrueSelection, Located, StatAt;
      var start := Start(root.stat);
      StartSound(root.stat, second, selected);
      if fine {
        StartOrderly(tree, root.stat);
        StartWeighs(tree, rules, root.stat, second, calls.metadataCalls);
      }
      r := Drain(root, start, second);
      if r.Err? { return; }
      if fine && second.Some? {
        SameCount(r.value, second, selected, tree);
      }
      r := Conclude(root, r.value, second);
    }

    /** The checks behind the queue: as many names as before, and the root unchanged. */
    method Conclude(root: Node, pass: Pass, second: Option<Inventory>) returns (r: Result<Pass>)
      requires Valid() && Declaring()
      requires Midway(pass, |pass.queue|, second) && root.fd in open
      requires fine ==> Genuine(tree, root) && (second.Some? ==> |second.value| == |pass.inventory|)
      modifies `turn, `calls, `walksCompleted
      ensures Valid() && Declaring() && walksCompleted == old(walksCompleted) + (if r.Ok? then 1 else 0)
      ensures r.Ok? ==> r.value == pass && entryVisits == Base(second) + |pass.inventory|
      ensures r.Ok? ==> Walked(pass, second, selected, truthful, tree)
      ensures fine ==> r.Ok? || Exceeds(tree, rules, r.error)
      ensures r.Ok? && fine ==>
        calls.metadataCalls <= CallsBefore(tree, rules, second) + VisitCalls(0) + Whole(tree, rules).calls + 1
    {
      if second.Some? && |second.value| != |pass.inventory| { return Err(Changed); }
      SoundWalked(pass, second, selected, truthful, tree);
      if fine {
        BudgetExceeds(tree, rules, pass, |pass.queue|, second, calls.metadataCalls);
      }
      var again := Fstat(root.fd, root.anchor);
      if again.Err? { return Err(again.error); }
      if root.stat.stamp != again.value.stamp { return Err(Changed); }
      walksCompleted := walksCompleted + 1;
      return Ok(pass);
    }

    /** The device is the tree's, once it is known. */
    ghost predicate Homed()
      reads this
    {
      fine ==> device in {None, Some(HomeOf(tree))}
    }

    /** So many ancestors are held, each where it belongs. */
    ghost predicate Climbing(chain: seq<Node>)
      reads this
    {
      && Holds(open, chain, {}) && Linked(chain, None) && |chain| == |open| <= FIXED
      && (if rejection.None? then outcome.Inconclusive? else rejection == Some(AncestorSymlink) && outcome.Diagnosed?)
      && Homed() && (fine ==> AllGenuine(tree, chain) && rejection.None?)
      && (rejection.None? && chain != [] ==>
            chain[|chain| - 1].anchor.Above? && chain[|chain| - 1].anchor.level == |chain| - 1 && device.Some?)
    }

    /** One more of them, unless it is a link. */
    method Climb(chain: seq<Node>) returns (error: Option<Code>, longer: seq<Node>)
      requires Valid() && Climbing(chain) && |chain| < FIXED && rejection.None?
      modifies `turn, `calls, `open, `issued, `closed, `device, `rejection, `outcome
      ensures Valid() && Climbing(longer) && Spends(old(calls), calls, 3)
      ensures error == Some(MetadataLimit) ==> Spent()
      ensures |chain| <= |longer| && (error.None? && rejection.None? ==> |longer| == |chain| + 1)
      ensures error.Some? ==> rejection.None?
      ensures fine ==> error in {None, Some(MetadataLimit)}
    {
      longer := chain;
      var anchor := Above(if chain == [] then None else Some(chain[|chain| - 1].fd), |chain|);
      assert Usable(anchor, open) by {
        if chain != [] {
          EndHeld(open, chain);
        }
      }
      var next := Ancestor(anchor);
      if next.Err? { return Some(next.error), chain; }
      if next.value.Some? {
        ChainGrows(old(open), chain, {}, None, next.value.value, open);
        GenuineGrows(tree, chain, next.value.value);
        longer := chain + [next.value.value];
      }
      error := None;
    }

    /** Hold the fixed ancestors of the output one below the other, unless one of them is a link. */
    method Ancestors() returns (error: Option<Code>, chain: seq<Node>)
      requires Valid() && open == {} && selected.None? && rejection.None? && outcome.Inconclusive? && device.None?
      modifies `turn, `calls, `open, `issued, `closed, `device, `rejection, `outcome
      ensures Valid() && Climbing(chain) && Spends(old(calls), calls, 3 * FIXED)
      ensures error == Some(MetadataLimit) ==> Spent()
      ensures error.None? && rejection.None? ==> |chain| == FIXED
      ensures error.Some? ==> rejection.None?
      ensures fine ==> error in {None, Some(MetadataLimit)}
    {
      error, chain := None, [];
      ghost var rounds := 0;
      while |chain| < FIXED && rejection.None? && error.None?
        invariant Valid() && Climbing(chain) && Spends(old(calls), calls, 3 * rounds)
        invariant error.None? && rejection.None? ==> rounds == |chain|
        invariant rounds <= FIXED && (error == Some(MetadataLimit) ==> Spent())
        invariant error.Some? ==> rejection.None?
        invariant fine ==> error in {None, Some(MetadataLimit)}
        decreases FIXED - |chain|, rejection.None?, error.None?
      {
        error, chain := Climb(chain);
        rounds := rounds + 1;
      }
    }

    /** One fixed ancestor: a directory to hold, or a link that settles the outcome. */
    method Ancestor(anchor: Anchor) returns (r: Result<Option<Node>>)
      requires Valid() && Usable(anchor, open) && |open| < FIXED && rejection.None? && outcome.Inconclusive?
      requires Homed() && anchor.Above? && anchor.level < FIXED
      modifies `turn, `calls, `open, `issued, `closed, `device, `rejection, `outcome
      ensures Valid() && Spends(old(calls), calls, 3)
      ensures r == Err(MetadataLimit) ==> Spent()
      ensures Homed() && (old(device).Some? ==> device == old(device))
      ensures r.Ok? && r.value.Some? ==>
                && r.value.value.fd !in old(open) && open == old(open) + {r.value.value.fd}
                && r.value.value.anchor == anchor && rejection.None? && outcome.Inconclusive? && device.Some?
                && (fine ==> Genuine(tree, r.value.value))
      ensures r.Ok? && r.value.None? ==>
                open == old(open) && rejection == Some(AncestorSymlink) && outcome.Diagnosed?
      ensures r.Err? ==> open == old(open) && rejection.None? && outcome.Inconclusive?
      ensures fine ==> if r.Ok? then r.value.Some? else r.error == MetadataLimit
    {
      hide Truthful, Ledger, Within;
      assert fine ==> Ancestral(tree, anchor.level);
      var found := Lstat(anchor);
      if found.Err? { return Err(found.error); }
      var stat := found.value;
      if !Sane(stat) { return Err(Metadata); }
      if stat.ftype.Symlink? {
        var again := Lstat(anchor);
        if again.Err? { return Err(again.error); }
        if stat.stamp != again.value.stamp { return Err(Changed); }
        rejection, outcome := Some(AncestorSymlink), Diagnosed;
        return Ok(None);
      }
      if !stat.ftype.Directory? { return Err(BadPath); }
      if device.None? { device := Some(stat.stamp.dev); }
      if Some(stat.stamp.dev) != device { return Err(Device); }
      var held := OpenDirectory(anchor, [], stat);
      r := if held.Err? then Err(held.error) else Ok(Some(held.value));
    }

    /** A link count has been diagnosed. */
    ghost predicate Concluded(first: Inventory, second: Inventory)
      reads `selected, `rejection, `observed, `accounting, `entryVisits, `outcome, `stable, `matchingNames,
        `walksCompleted
    {
      && selected.Some? && outcome.Diagnosed? && stable && matchingNames.Some? && walksCompleted == 2
      && rejection == Some(FileLinkCount) && observed == Some(selected.value.stat.stamp.nlink)
      && Bounded(selected.value.stat.stamp.nlink, LINK_COUNT) && selected.value.stat.stamp.nlink != 1
      && accounting == (if matchingNames.value == selected.value.stat.stamp.nlink then AllNames else NotAllNames)
      && entryVisits >= 2 * matchingNames.value
      && Accounted(selected.value, first, second, matchingNames.value)
    }

    /** Nothing has been decided about the output. */
    ghost predicate Undecided()
      reads `selected, `rejection, `observed, `accounting, `entryVisits, `outcome, `stable, `matchingNames
    {
      Declaring() && outcome.Inconclusive? && !stable && matchingNames.None?
    }

    /** No file of the output has a link count other than one. */
    ghost predicate NothingRejected(first: Inventory)
      reads `selected, `rejection, `observed, `accounting, `entryVisits, `outcome, `stable, `matchingNames,
        `walksCompleted
    {
      && selected.None? && Declaring() && outcome.NotReproduced? && !stable && matchingNames.None?
      && walksCompleted == 1 && SingleLinks(first)
    }

    /** The second walk: every name of the selected inode is found again, and nothing else has changed. */
    method Recount(root: Node, first: Inventory) returns (error: Option<Code>, second: Inventory)
      requires Valid() && Undecided() && !listing && root.fd in open && |open| == FIXED
      requires selected.Some? && entryVisits == |first| && walksCompleted == 1
      requires Prepared(root, Some(first))
      modifies this
      ensures Valid() && !listing && open == old(open) && walksCompleted <= 2 && selected == old(selected)
      ensures if error.None? then Concluded(first, second) else Undecided()
      ensures fine ==> error.None? || Exceeds(tree, rules, error.value)
    {
      hide Truthful, Serves, Plain, Ledger, Within, Surveyed, Agrees, SingleLinks;
      second := map[];
      if fine {
        NamesAgree(tree, rules, selected.value);
      }
      var chosen := selected.value.stat;
      var names := Matching(first, InodeOf(chosen));
      if (exists p :: p in names && first[p].stamp != chosen.stamp) || |names| > chosen.stamp.nlink {
        return Some(Changed), second;
      }
      var again := Walk(root, Some(first));
      if again.Err? { return Some(again.error), second; }
      second := again.value.inventory;
      if again.value.tally.matches != |names| || names == {} { return Some(Changed), second; }
      Settle(first, |names|);
      error := None;
    }

    /** The link count is diagnosed: so many names were found, twice. */
    method Settle(first: Inventory, names: nat)
      requires Undecided() && selected.Some? && walksCompleted == 2 && entryVisits == 2 * |first|
      requires Accounted(selected.value, first, first, names)
      modifies `stable, `matchingNames, `outcome, `accounting
      ensures Concluded(first, first)
    {
      hide Agrees, SingleLinks;
      MatchingBounded(first, InodeOf(selected.value.stat));
      stable, matchingNames, outcome := true, Some(names), Diagnosed;
      accounting := if names == selected.value.stat.stamp.nlink then AllNames else NotAllNames;
    }

    /** Walk the output, and walk it again where a link count was rejected. */
    method Compare(root: Node) returns (error: Option<Code>, first: Inventory, second: Inventory)
      requires Valid() && Undecided() && !listing && root.fd in open && |open| == FIXED
      requires selected.None? && entryVisits == 0 && walksCompleted == 0 && Prepared(root, None)
      modifies this
      ensures Valid() && !listing && open == old(open) && walksCompleted <= 2
      ensures error.Some? ==> Undecided()
      ensures fine ==> error.None? || Exceeds(tree, rules, error.value)
      ensures error.None? && truthful ==> TrueSelection(tree, selected)
      ensures error.None? ==> Concluded(first, second) || NothingRejected(first)
      ensures rejection != Some(AncestorSymlink) && (error.None? ==> !outcome.Inconclusive?)
      ensures error.None? ==> Surveyed(first, truthful, tree)
    {
      hide Truthful, Serves, Ledger, Within;
      error, first, second := None, map[], map[];
      var walk := Walk(root, None);
      if walk.Err? { return Some(walk.error), first, second; }
      first := walk.value.inventory;
      if fine {
        SurveyedWhole(first, tree);
      }
      if selected.None? {
        outcome := NotReproduced;
      } else {
        error, second := Recount(root, first);
      }
    }

    /** One of the ancestors is a link, and nothing has been walked. */
    ghost predicate AtLink()
      reads `rejection, `observed, `accounting, `entryVisits, `outcome, `stable, `matchingNames, `walksCompleted
    {
      && entryVisits == 0 && walksCompleted == 0 && rejection == Some(AncestorSymlink)
      && outcome.Diagnosed? && observed.None? && accounting.NotApplicable? && !stable && matchingNames.None?
    }

    /** What is known when the diagnosis stops. */
    ghost predicate Stopped(first: Inventory, second: Inventory)
      reads `selected, `rejection, `observed, `accounting, `entryVisits, `outcome, `stable, `matchingNames,
        `walksCompleted
    {
      || Undecided() || AtLink()
      || (Surveyed(first, truthful, tree) && (truthful ==> TrueSelection(tree, selected))
          && (Concluded(first, second) || NothingRejected(first)))
    }

    /** The diagnosis under the deadline; what is still held is handed back to be closed. */
    method Diagnose(approval: string)
      returns (error: Option<Code>, chain: seq<Node>, first: Inventory, second: Inventory)
      requires Valid() && Undecided() && !listing && open == {} && selected.None?
      requires entryVisits == 0 && walksCompleted == 0 && device.None? && calls.metadataCalls == 0
        && links.linkBytes == 0
      modifies this
      ensures fine ==> AllGenuine(tree, chain) && rejection != Some(AncestorSymlink)
      ensures fine && Approved(approval) ==> error.None? || Exceeds(tree, rules, error.value)
      ensures Valid() && !listing && Holds(open, chain, {}) && Linked(chain, None) && walksCompleted <= 2
      ensures Stopped(first, second) && (error.None? ==> !outcome.Inconclusive?)
    {
      hide Truthful, Serves, Plain, Within, Ledger, Concluded, NothingRejected, Surveyed, Linked;
      error, chain := Begin(approval);
      first, second := map[], map[];
      if error.None? && rejection.None? {
        EndHeld(open, chain);
        error, first, second := Compare(chain[|chain| - 1]);
      }
      if error.None? {
        error := Tick(false);
      }
    }

    /** The input is looked at, and the ancestors are held. */
    method Begin(approval: string) returns (error: Option<Code>, chain: seq<Node>)
      requires Valid() && Undecided() && open == {} && selected.None? && device.None?
      requires entryVisits == 0 && walksCompleted == 0 && calls.metadataCalls == 0
      modifies `turn, `calls, `open, `issued, `closed, `device, `rejection, `outcome
      ensures Valid() && Climbing(chain) && (error.None? && rejection.None? ==> |chain| == FIXED)
      ensures if rejection.None? then Undecided() else error.None? && AtLink()
      ensures calls.metadataCalls <= 3 * FIXED && (fine && Approved(approval) ==> error.None?)
    {
      hide Truthful, Plain, Within, Ledger;
      error, chain := Some(Input), [];
      if Approved(approval) && io.flags {
        error, chain := Ancestors();
      }
    }

    /** Release everything; a failed release or the deadline has the last word. */
    method Release(error: Option<Code>, chain: seq<Node>) returns (reason: Option<Code>)
      requires Valid() && Holds(open, chain, {}) && Linked(chain, None)
      requires error.None? ==> !outcome.Inconclusive?
      modifies `turn, `calls, `open, `closed, `starved, `outcome, `stable, `matchingNames, `accounting
      ensures Valid() && open == {} && old(calls).metadataCalls <= calls.metadataCalls
      ensures reason.Some? <==> outcome.Inconclusive?
      ensures fine && AllGenuine(tree, chain) ==> reason == error
      ensures if outcome.Inconclusive?
              then !stable && matchingNames.None?
                   && accounting == (if rejection == Some(FileLinkCount) then Unaccounted else NotApplicable)
              else outcome == old(outcome) && stable == old(stable) && matchingNames == old(matchingNames)
                   && accounting == old(accounting)
    {
      hide Truthful, Plain, Ledger;
      reason := None;
      if error.Some? {
        outcome, reason := Inconclusive, error;
      }
      var released := CloseChain(chain, {}, None);
      if !released {
        outcome, reason := Inconclusive, Some(Cleanup);
      } else if io.late(turn) {
        outcome, reason := Inconclusive, Some(Deadline);
      }
      if outcome.Inconclusive? {
        stable, matchingNames := false, None;
        accounting := if rejection == Some(FileLinkCount) then Unaccounted else NotApplicable;
      }
    }

    /** Release what is held, and write the report. */
    method Finish(approval: string, error: Option<Code>, chain: seq<Node>, ghost first: Inventory,
                  ghost second: Inventory)
      returns (report: Report)
      requires Valid() && Holds(open, chain, {}) && Linked(chain, None) && walksCompleted <= 2
      requires Stopped(first, second) && (error.None? ==> !outcome.Inconclusive?)
      modifies this
      ensures Valid() && open == {} && selected == old(selected)
      ensures ValidReport(report, approval) && report.counters == Totals()
      ensures fine && AllGenuine(tree, chain) ==> report.reason == error
      ensures report.rejection == rejection == old(rejection)
      ensures report.outcome.Diagnosed? && report.rejection == Some(FileLinkCount) && truthful ==>
                TrueSelection(tree, selected)
      ensures report.outcome.Diagnosed? && report.rejection == Some(FileLinkCount) ==>
                && selected.Some? && report.observedLinkCount == Some(selected.value.stat.stamp.nlink)
                && Accounted(selected.value, first, second, report.matchingNames.value)
      ensures report.outcome.NotReproduced? ==> SingleLinks(first)
      ensures report.outcome.NotReproduced? || (report.outcome.Diagnosed? && report.rejection == Some(FileLinkCount))
              ==> Surveyed(first, truthful, tree)
    {
      hide Truthful, Serves, Plain, Ledger;
      var reason := Release(error, chain);
      report := Report(approval, outcome, reason, rejection, observed, matchingNames, accounting, stable, Totals());
    }
  }

  /** inspect, for every file system and every failure: the report is one the validator accepts for the same approval,
      every descriptor has been closed exactly once and within the reserved budget, and what a conclusive report says
      of the names is so in both walks, and in the whole tree where every answer was true of one. On a plain tree that
      is served in time nothing leaves it inconclusive but a limit that the tree as a whole exceeds, the one it names;
      otherwise what it says is exact. */
  method Inspect(approval: string, io: Io, rules: Rules, ghost tree: Tree)
    returns (report: Report, first: Inventory, second: Inventory, selected: Option<Selected>,
             issued: nat, closed: seq<nat>, starved: bool)
    ensures ValidReport(report, approval) && !starved
    ensures NoRepeat(closed) && |closed| == issued && forall i :: 0 <= i < |closed| ==> closed[i] < issued
    ensures report.outcome.Diagnosed? && report.rejection == Some(FileLinkCount) ==>
              && selected.Some? && report.observedLinkCount == Some(selected.value.stat.stamp.nlink)
              && Accounted(selected.value, first, second, report.matchingNames.value)
    ensures report.outcome.NotReproduced? ==> SingleLinks(first)
    ensures report.outcome.NotReproduced? || (report.outcome.Diagnosed? && report.rejection == Some(FileLinkCount)) ==>
              AliasFree(first) && (Truthful(io, tree) && Rooted(tree) ==> first == tree.stats)
    ensures Truthful(io, tree) && Serves(io, tree) && Plain(tree, rules) && Approved(approval) ==>
              if report.outcome.Inconclusive? then Exceeds(tree, rules, report.reason.value)
              else if SingleLinks(tree.stats) then report.outcome.NotReproduced?
              else report.outcome.Diagnosed? && selected.Some?
                   && selected.value.path in tree.stats && tree.stats[selected.value.path] == selected.value.stat
                   && report.observedLinkCount == Some(selected.value.stat.stamp.nlink)
                   && report.matchingNames == Some(|Matching(tree.stats, InodeOf(selected.value.stat))|)
  {
    var reader := new Reader(io, rules, tree);
    var error, chain;
    error, chain, first, second := reader.Diagnose(approval);
    report := reader.Finish(approval, error, chain, first, second);
    selected, issued, closed, starved := reader.selected, reader.issued, reader.closed, reader.starved;
    if Surveyed(first, true, tree) && Rooted(tree) {
      SurveyedWhole(first, tree);
    }
    if reader.fine && report.outcome.Diagnosed? {
      NamesAgree(tree, rules, selected.value);
    }
  }
}
