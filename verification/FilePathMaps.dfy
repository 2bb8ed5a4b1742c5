/** coverFilePathMap and prepareFilePathMaps of scripts/gate1-build-artifact-privacy.js: function file
    mappings laid over the unfolded inventory, with conflict detection. */
module FilePathMaps {
  import opened AliasCoverage
  import opened AliasResolution
  import opened Finite
  import opened Wrappers

  type Result<T> = Wrappers.Result<T, Failure>

  // ---- what is projected, and when it is acceptable

  /** One projected path: where it appears, which physical entry stands behind it, and what it is. */
  datatype Triple = Triple(destination: Path, identity: Path, directory: bool)

  /** A request to show the logical entry `source`, with all below it, at `destination`. */
  datatype Mapping = Mapping(destination: Path, source: Path)

  function TripleOf(destination: Path, item: Item): Triple {
    match item.node
    case FileNode => Triple(destination, item.path, false)
    case DirectoryNode => Triple(destination, item.path, true)
    case AliasNode(target) => Triple(destination, target, true)
  }

  type Nodes = map<Path, Item>

  function Shifted(m: Mapping, s: Path): Path
    requires m.source <= s
  {
    m.destination + s[|m.source|..]
  }

  ghost predicate Wants(nodes: Nodes, m: Mapping, t: Triple) {
    exists s :: s in nodes && m.source <= s && t == TripleOf(Shifted(m, s), nodes[s])
  }

  /** Everything a set of requests projects. */
  ghost predicate Projects(nodes: Nodes, asks: set<Mapping>, t: Triple) {
    exists m :: m in asks && Wants(nodes, m, t)
  }

  const CONFIG := ".vc-config.json"

  predicate IsConfig(path: Path) { path != [] && Base(path) == CONFIG }

  /** The lower-cased extension of a path, the encoded length of a text, the names refused, and the limits. */
  datatype Rules = Rules(extension: Path -> string, bytes: string -> nat, forbidden: string -> bool,
                         pathBytes: nat, maxDepth: nat, references: nat, entries: nat)

  function Slashed(path: Path): string {
    if path == [] then "" else if |path| == 1 then path[0] else path[0] + "/" + Slashed(path[1..])
  }

  predicate ItemAllowed(rules: Rules, t: Triple) {
    && rules.bytes(Slashed(t.destination)) <= rules.pathBytes
    && (!t.directory ==> rules.extension(t.identity) == rules.extension(t.destination)
                         && !IsConfig(t.destination) && !IsConfig(t.identity))
  }

  ghost predicate AgreesWithTree(nodes: Nodes, t: Triple) {
    t.destination in nodes ==> t == TripleOf(t.destination, nodes[t.destination])
  }

  predicate ProperAncestor(a: Path, path: Path) { a != [] && a < path }

  /** A regular file of the tree. */
  predicate FileAt(nodes: Nodes, a: Path) { a in nodes && nodes[a].node.FileNode? }

  /** The requests can be shown together: sources exist, every path has one meaning, which is the tree's
      wherever the tree has one, and no regular file lies above a projected path. */
  ghost predicate Acceptable(nodes: Nodes, asks: set<Mapping>, rules: Rules) {
    && (forall m :: m in asks ==> m.source in nodes)
    && (forall t :: Projects(nodes, asks, t) ==> ItemAllowed(rules, t) && AgreesWithTree(nodes, t))
    && (forall t, u :: Projects(nodes, asks, t) && Projects(nodes, asks, u) && t.destination == u.destination ==>
      t == u)
    && (forall t, u ::
          Projects(nodes, asks, t) && Projects(nodes, asks, u) && ProperAncestor(u.destination, t.destination)
          ==> u.directory)
    && (forall t, a :: Projects(nodes, asks, t) && ProperAncestor(a, t.destination) ==> !FileAt(nodes, a))
  }

  // ---- the state, and the set of triples it reflects

  datatype Projection = Projection(directory: bool, relative: Path)

  datatype View = View(projected: map<Path, Projection>, knownFiles: set<Path>, locations: map<Path, set<Path>>)

  function Show(t: Triple): Projection { Projection(t.directory, t.identity) }

  /** Recording one projected path. */
  function Record(view: View, t: Triple): View {
    var projected := view.projected[t.destination := Show(t)];
    if t.directory then view.(projected := projected)
    else View(projected, view.knownFiles + {t.destination},
              if t.identity in view.locations
              then view.locations[t.identity := view.locations[t.identity] + {t.destination}] else view.locations)
  }

  /** The view shows exactly these triples on top of the base, and each of them only. */
  ghost predicate Reflects(view: View, base: View, done: set<Triple>) {
    && (forall t :: t in done ==> t.destination in view.projected && view.projected[t.destination] == Show(t))
    && (forall d :: d in view.projected ==> Triple(d, view.projected[d].relative, view.projected[d].directory) in done)
    && (forall d :: d in view.knownFiles <==>
          d in base.knownFiles || (d in view.projected && !view.projected[d].directory))
    && view.locations.Keys == base.locations.Keys
    && (forall e, d :: e in view.locations ==> (d in view.locations[e] <==>
          (e in base.locations && d in base.locations[e]) || Triple(d, e, false) in done))
  }

  lemma RecordReflects(view: View, base: View, done: set<Triple>, t: Triple)
    requires Reflects(view, base, done)
    requires t.destination in view.projected ==> view.projected[t.destination] == Show(t)
    requires !t.directory ==> t.identity in view.locations
    ensures Reflects(Record(view, t), base, done + {t})
  {
  }

  // ---- one request, breadth first

  datatype Visit = Visit(source: Path, destination: Path)

  /** What the unfolding guarantees about the nodes it hands on. */
  ghost predicate Sane(nodes: Nodes, children: map<Path, seq<Path>>) {
    && Rooted(nodes) && ChildrenExact(children, nodes.Keys)
    && (forall p :: p in nodes && p != [] && Parent(p) in nodes ==> !nodes[Parent(p)].node.FileNode?)
  }

  lemma UnfoldingIsSane(table: Table, cov: Coverage)
    requires Unfolds(table, cov)
    ensures Sane(cov.nodes, cov.children)
    ensures forall p :: FileAt(cov.nodes, p) ==> cov.nodes[p].path in cov.locations
  {
    forall p | p in cov.nodes
      ensures p != [] && (Parent(p) != [] ==> Parent(p) in cov.nodes && !cov.nodes[Parent(p)].node.FileNode?)
    {
      assert EntryAt(table, p).Some?;
      if Parent(p) != [] {
        assert DirAt(table, Parent(p)).Some?;
        assert EntryAt(table, Parent(p)).Some?;
      }
    }
  }

  ghost predicate InWork(queue: seq<Visit>, s: Path) {
    exists i :: 0 <= i < |queue| && queue[i].source == s
  }

  /** Each queued visit is the source, or a listed descendant, shown at its place below the destination. */
  ghost predicate OnCourse(nodes: Nodes, m: Mapping, queue: seq<Visit>) {
    forall i :: 0 <= i < |queue| ==>
      && m.source <= queue[i].source && queue[i].destination == Shifted(m, queue[i].source)
      && (i > 0 ==> queue[i].source in nodes && m.source < queue[i].source)
  }

  ghost predicate NoTwice(queue: seq<Visit>) {
    forall i, j :: 0 <= i < j < |queue| ==> queue[i].source != queue[j].source
  }

  /** Behind each later visit stands a visited parent; visited are the first `head`. */
  ghost predicate Behind(queue: seq<Visit>, head: nat, taken: set<Path>) {
    && (forall i :: 0 < i < |queue| ==> queue[i].source != [] && Parent(queue[i].source) in taken)
    && (forall i :: 0 <= i < |queue| ==> (queue[i].source in taken <==> i < head))
    && (forall s :: s in taken ==> InWork(queue, s))
  }

  /** All children of what was visited are in the queue. */
  ghost predicate Handed(nodes: Nodes, queue: seq<Visit>, taken: set<Path>) {
    forall c {:trigger InWork(queue, c)} :: c in nodes && c != [] && Parent(c) in taken ==> InWork(queue, c)
  }

  ghost predicate Course(nodes: Nodes, m: Mapping, queue: seq<Visit>, head: nat, taken: set<Path>) {
    && |queue| > 0 && queue[0].source == m.source
    && OnCourse(nodes, m, queue) && NoTwice(queue) && Behind(queue, head, taken) && Handed(nodes, queue, taken)
  }

  ghost function Below(nodes: Nodes, m: Mapping): set<Path> {
    set s | s in nodes && m.source <= s
  }

  /** The queue cannot outgrow the part of the tree below the source. */
  lemma CourseBound(nodes: Nodes, m: Mapping, queue: seq<Visit>, head: nat, taken: set<Path>)
    requires Course(nodes, m, queue, head, taken) && m.source in nodes
    ensures |queue| <= |Below(nodes, m)|
  {
    var sources := seq(|queue|, i requires 0 <= i < |queue| => queue[i].source);
    RepeatFree(sources, Below(nodes, m));
  }

  /** The visits for the children of a directory. */
  function Visits(kids: seq<Path>, destination: Path): (visits: seq<Visit>)
    requires forall k :: 0 <= k < |kids| ==> kids[k] != []
    ensures |visits| == |kids|
    ensures forall k :: 0 <= k < |kids| ==> visits[k] == Visit(kids[k], destination + [Base(kids[k])])
  {
    seq(|kids|, k requires 0 <= k < |kids| && kids[k] != [] => Visit(kids[k], destination + [Base(kids[k])]))
  }

  ghost predicate ChildList(nodes: Nodes, s: Path, kids: seq<Path>) {
    && NoRepeat(kids)
    && (forall k :: 0 <= k < |kids| ==> kids[k] in nodes && kids[k] != [] && Parent(kids[k]) == s)
    && (forall c :: c in nodes && c != [] && Parent(c) == s ==> c in kids)
  }

  lemma ShiftedChild(m: Mapping, s: Path, c: Path)
    requires m.source <= s && c != [] && Parent(c) == s
    ensures m.source < c && Shifted(m, c) == Shifted(m, s) + [Base(c)]
  {
    assert c[|m.source|..] == s[|m.source|..] + [Base(c)];
  }

  /** Visiting the head of the queue and queueing its children keeps the course. */
  lemma CourseStep(nodes: Nodes, m: Mapping, queue: seq<Visit>, head: nat, taken: set<Path>, kids: seq<Path>)
    requires Course(nodes, m, queue, head, taken) && head < |queue|
    requires ChildList(nodes, queue[head].source, kids)
    ensures Course(nodes, m, queue + Visits(kids, queue[head].destination), head + 1, taken + {queue[head].source})
  {
    var s := queue[head].source;
    var longer, more := queue + Visits(kids, queue[head].destination), taken + {s};
    CourseQueue(nodes, m, queue, head, taken, kids);
    HandedStep(nodes, queue, taken, s, kids, longer);
    forall i | 0 <= i < |longer|
      ensures longer[i].source in more <==> i < head + 1
    {
      if i >= |queue| {
        assert longer[i].source == kids[i - |queue|];
      }
    }
    forall t | t in more
      ensures InWork(longer, t)
    {
      if t == s {
        assert longer[head].source == s;
      } else {
        WorkGrows(queue, longer, t);
      }
    }
  }

  lemma NewChild(nodes: Nodes, m: Mapping, queue: seq<Visit>, head: nat, taken: set<Path>, c: Path)
    requires OnCourse(nodes, m, queue) && Behind(queue, head, taken) && head < |queue| && queue[0].source == m.source
    requires c != [] && Parent(c) == queue[head].source
    ensures !InWork(queue, c) && c !in taken
  {
  }

  lemma WorkGrows(queue: seq<Visit>, longer: seq<Visit>, s: Path)
    requires queue <= longer && InWork(queue, s)
    ensures InWork(longer, s)
  {
    var i :| 0 <= i < |queue| && queue[i].source == s;
    assert longer[i].source == s;
  }

  lemma CourseQueue(nodes: Nodes, m: Mapping, queue: seq<Visit>, head: nat, taken: set<Path>, kids: seq<Path>)
    requires Course(nodes, m, queue, head, taken) && head < |queue|
    requires ChildList(nodes, queue[head].source, kids)
    ensures var longer := queue + Visits(kids, queue[head].destination);
      && OnCourse(nodes, m, longer) && NoTwice(longer)
      && (forall k :: 0 <= k < |kids| ==> kids[k] !in taken + {queue[head].source})
  {
    var s := queue[head].source;
    var longer := queue + Visits(kids, queue[head].destination);
    forall k | 0 <= k < |kids|
      ensures m.source < kids[k] && Shifted(m, kids[k]) == queue[head].destination + [Base(kids[k])]
      ensures !InWork(queue, kids[k]) && kids[k] !in taken + {s}
    {
      ShiftedChild(m, s, kids[k]);
      NewChild(nodes, m, queue, head, taken, kids[k]);
    }
    forall i | |queue| <= i < |longer|
      ensures longer[i].source == kids[i - |queue|] && !InWork(queue, longer[i].source)
    {
    }
  }

  lemma HandedStep(nodes: Nodes, queue: seq<Visit>, taken: set<Path>, s: Path, kids: seq<Path>, longer: seq<Visit>)
    requires Handed(nodes, queue, taken) && ChildList(nodes, s, kids) && queue <= longer
    requires |longer| == |queue| + |kids| && forall k :: 0 <= k < |kids| ==> longer[|queue| + k].source == kids[k]
    ensures Handed(nodes, longer, taken + {s})
  {
    forall c | c in nodes && c != [] && Parent(c) in taken + {s}
      ensures InWork(longer, c)
    {
      if Parent(c) == s {
        var k :| 0 <= k < |kids| && kids[k] == c;
        assert longer[|queue| + k].source == c;
      } else {
        assert InWork(queue, c);
        WorkGrows(queue, longer, c);
      }
    }
  }

  /** With the queue worked off, everything below the source has been visited. */
  lemma {:induction false} AllBelow(nodes: Nodes, m: Mapping, queue: seq<Visit>, taken: set<Path>, s: Path)
    requires Course(nodes, m, queue, |queue|, taken) && Rooted(nodes) && s in nodes && m.source <= s
    requires m.source != []
    ensures s in taken
    decreases |s|
  {
    if s != m.source {
      assert m.source <= Parent(s);
      AllBelow(nodes, m, queue, taken, Parent(s));
      assert InWork(queue, s);
    }
  }

  // ---- the configurations

  datatype Target = Text(text: string) | NotText

  /** A function configuration: without a file map, with something that is no object there, or with its pairs. */
  datatype Config = NoMap | NotAnObject | Pairs(pairs: seq<(string, Target)>)

  /** A configuration at one of its logical locations. */
  datatype Site = Site(location: Path, config: Config)

  const OUTPUT := ".vercel/output/"

  predicate Ends(s: string, suffix: string) {
    |suffix| <= |s| && s[|s| - |suffix|..] == suffix
  }

  predicate PartAllowed(part: string) {
    part !in ["", ".", ".."] && part[|part| - 1] !in {'.', ' '}
  }

  /** mappingPath: canonical relative names only. */
  function MappingPath(rules: Rules, text: string): (r: Result<Path>)
    ensures r.Ok? ==> r.value != []
  {
    var parts := Split(text);
    if text == "" || rules.bytes(text) > rules.pathBytes
       || (exists i :: 0 <= i < |text| && (text[i] in {'\\', ':', '%', '?', '#'} || Control(text[i])))
         then Err(ExternalMap)
    else if |parts| > rules.maxDepth then Err(DepthLimit)
    else if exists k :: 0 <= k < |parts| && !PartAllowed(parts[k]) then Err(ExternalMap)
    else if exists k :: 0 <= k < |parts| && rules.forbidden(parts[k]) then Err(ForbiddenFile)
    else Ok(parts)
  }

  function Request(rules: Rules, parent: Path, key: string, target: Target): (r: Result<Mapping>)
    ensures r.Ok? ==> r.value.source != []
  {
    match MappingPath(rules, key)
    case Err(why) => Err(why)
    case Ok(local) =>
      if target.NotText? || !(OUTPUT <= target.text) then Err(ExternalMap)
      else match MappingPath(rules, target.text)
        case Err(why) => Err(why)
        case Ok(_) =>
          match MappingPath(rules, target.text[|OUTPUT|..])
          case Err(why) => Err(why)
          case Ok(source) => Ok(Mapping(parent + local, source))
  }

  /** Inside functions/, directly in a directory whose name ends in .func. */
  predicate InFunction(location: Path) {
    |location| >= 2 && location[0] == "functions" && Ends(Base(Parent(location)), ".func")
  }

  /** A way to read one pair: what it asks for, or why it is refused. */
  type Reader = (Path, string, Target) -> Result<Mapping>

  /** mappingPath on both sides, under the fixed rules. */
  function RequestReader(rules: Rules): Reader {
    (parent, key, target) => Request(rules, parent, key, target)
  }

  ghost predicate Reads(read: Reader) {
    forall parent, key, target {:trigger read(parent, key, target)} ::
      match read(parent, key, target)
      case Ok(m) => m.source != []
      case Err(why) => why != EntryLimit
  }

  function Requests(read: Reader, parent: Path, pairs: seq<(string, Target)>): (parsed: seq<Result<Mapping>>)
    ensures |parsed| == |pairs|
    ensures forall j :: 0 <= j < |pairs| ==> parsed[j] == read(parent, pairs[j].0, pairs[j].1)
  {
    seq(|pairs|, j requires 0 <= j < |pairs| => read(parent, pairs[j].0, pairs[j].1))
  }

  function Parsed(read: Reader, site: Site): seq<Result<Mapping>>
    requires site.location != []
  {
    if site.config.Pairs? then Requests(read, Parent(site.location), site.config.pairs) else []
  }

  /** The first j pairs can be read. */
  ghost predicate ParsedTo(parsed: seq<Result<Mapping>>, j: nat)
    requires j <= |parsed|
  {
    j == 0 || (ParsedTo(parsed, j - 1) && parsed[j - 1].Ok?)
  }

  ghost predicate Parses(read: Reader, site: Site)
    requires site.location != []
  {
    match site.config
    case NoMap => true
    case NotAnObject => false
    case Pairs(pairs) => (pairs == [] || InFunction(site.location)) && ParsedTo(Parsed(read, site), |pairs|)
  }

  /** The requests among the first j pairs. */
  ghost function Asked(parsed: seq<Result<Mapping>>, j: nat): set<Mapping>
    requires j <= |parsed|
  {
    if j == 0 then {} else Asked(parsed, j - 1) + (if parsed[j - 1].Ok? then {parsed[j - 1].value} else {})
  }

  /** The visits the first j pairs cost, duplicates counted again. */
  ghost function LoadOf(nodes: Nodes, parsed: seq<Result<Mapping>>, j: nat): nat
    requires j <= |parsed|
  {
    if j == 0 then 0
    else LoadOf(nodes, parsed, j - 1) + (if parsed[j - 1].Ok? then Cost(nodes, parsed[j - 1].value) else 0)
  }

  /** The parsed pairs of each site, in order. */
  ghost function Batches(read: Reader, sites: seq<Site>): (batches: seq<seq<Result<Mapping>>>)
    requires Located(sites)
    ensures |batches| == |sites|
  {
    if sites == [] then [] else [Parsed(read, sites[0])] + Batches(read, sites[1..])
  }

  lemma {:induction false} BatchAt(read: Reader, sites: seq<Site>, i: nat)
    requires Located(sites) && i < |sites|
    ensures Batches(read, sites)[i] == Parsed(read, sites[i])
  {
    if i > 0 {
      BatchAt(read, sites[1..], i - 1);
    }
  }

  ghost predicate Located(sites: seq<Site>) {
    forall i :: 0 <= i < |sites| ==> sites[i].location != []
  }

  /** The first i configurations parse. */
  ghost predicate AllParse(read: Reader, sites: seq<Site>, i: nat)
    requires Located(sites) && i <= |sites|
  {
    i == 0 || (AllParse(read, sites, i - 1) && Parses(read, sites[i - 1]))
  }

  lemma {:induction false} ParseBefore(read: Reader, sites: seq<Site>, i: nat, k: nat)
    requires Located(sites) && i < k <= |sites| && AllParse(read, sites, k)
    ensures Parses(read, sites[i])
  {
    if i + 1 < k {
      ParseBefore(read, sites, i, k - 1);
    }
  }

  lemma EachParses(read: Reader, sites: seq<Site>, i: nat)
    requires Located(sites) && i < |sites|
    ensures AllParse(read, sites, |sites|) ==> Parses(read, sites[i])
  {
    if AllParse(read, sites, |sites|) {
      ParseBefore(read, sites, i, |sites|);
    }
  }

  /** The requests of the first i batches. */
  ghost function AskedBy(batches: seq<seq<Result<Mapping>>>, i: nat): set<Mapping>
    requires i <= |batches|
  {
    if i == 0 then {} else AskedBy(batches, i - 1) + Asked(batches[i - 1], |batches[i - 1]|)
  }

  ghost function Load(nodes: Nodes, batches: seq<seq<Result<Mapping>>>, i: nat): nat
    requires i <= |batches|
  {
    if i == 0 then 0 else Load(nodes, batches, i - 1) + LoadOf(nodes, batches[i - 1], |batches[i - 1]|)
  }

  ghost function References(batches: seq<seq<Result<Mapping>>>, i: nat): nat
    requires i <= |batches|
  {
    if i == 0 then 0 else References(batches, i - 1) + |batches[i - 1]|
  }

  /** All requests of all configurations. */
  ghost function Asks(read: Reader, sites: seq<Site>): set<Mapping>
    requires Located(sites)
  {
    AskedBy(Batches(read, sites), |sites|)
  }

  /** The two counters have room for everything that is asked. */
  ghost predicate Roomy(rules: Rules, nodes: Nodes, read: Reader, sites: seq<Site>)
    requires Located(sites)
  {
    var batches := Batches(read, sites);
    References(batches, |sites|) <= rules.references && Load(nodes, batches, |sites|) <= rules.entries
  }

  lemma {:induction false} AskedGrows(nodes: Nodes, parsed: seq<Result<Mapping>>, j: nat)
    requires j <= |parsed|
    ensures Asked(parsed, j) <= Asked(parsed, |parsed|)
    ensures LoadOf(nodes, parsed, j) <= LoadOf(nodes, parsed, |parsed|)
    decreases |parsed| - j
  {
    if j < |parsed| {
      AskedGrows(nodes, parsed, j + 1);
    }
  }

  lemma {:induction false} ParsedThrough(parsed: seq<Result<Mapping>>, j: nat)
    requires j < |parsed|
    ensures ParsedTo(parsed, |parsed|) ==> parsed[j].Ok?
  {
    if ParsedTo(parsed, |parsed|) {
      ParsedBefore(parsed, j + 1, |parsed|);
    }
  }

  lemma {:induction false} ParsedBefore(parsed: seq<Result<Mapping>>, j: nat, k: nat)
    requires j <= k <= |parsed| && ParsedTo(parsed, k)
    ensures ParsedTo(parsed, j)
  {
    if j < k {
      ParsedBefore(parsed, j, k - 1);
    }
  }

  lemma AskedWithin(nodes: Nodes, parsed: seq<Result<Mapping>>, j: nat, asks: set<Mapping>)
    requires j <= |parsed| && Asked(parsed, |parsed|) <= asks
    ensures Asked(parsed, j) <= asks && LoadOf(nodes, parsed, j) <= LoadOf(nodes, parsed, |parsed|)
  {
    AskedGrows(nodes, parsed, j);
  }

  lemma BatchWithin(nodes: Nodes, batches: seq<seq<Result<Mapping>>>, i: nat)
    requires i < |batches|
    ensures Asked(batches[i], |batches[i]|) <= AskedBy(batches, |batches|)
    ensures Load(nodes, batches, i) + LoadOf(nodes, batches[i], |batches[i]|) <= Load(nodes, batches, |batches|)
    ensures References(batches, i) + |batches[i]| <= References(batches, |batches|)
  {
    AsksGrow(nodes, batches, i + 1);
  }

  lemma AskedNext(earlier: set<Mapping>, parsed: seq<Result<Mapping>>, j: nat)
    requires j < |parsed| && parsed[j].Ok?
    ensures earlier + Asked(parsed, j) + {parsed[j].value} == earlier + Asked(parsed, j + 1)
  {
  }

  lemma NothingYet(earlier: set<Mapping>)
    ensures earlier + {} == earlier
  {
  }

  lemma {:induction false} AsksGrow(nodes: Nodes, batches: seq<seq<Result<Mapping>>>, i: nat)
    requires i <= |batches|
    ensures AskedBy(batches, i) <= AskedBy(batches, |batches|)
    ensures Load(nodes, batches, i) <= Load(nodes, batches, |batches|)
    ensures References(batches, i) <= References(batches, |batches|)
    decreases |batches| - i
  {
    if i < |batches| {
      AsksGrow(nodes, batches, i + 1);
    }
  }

  // ---- refusals are justified, and what is kept stays consistent

  function Prior(projected: map<Path, Projection>, nodes: Nodes, a: Path): Option<Projection> {
    if a in projected then Some(projected[a])
    else if a in nodes then Some(Show(TripleOf(a, nodes[a]))) else None
  }

  predicate FileThere(projected: map<Path, Projection>, nodes: Nodes, a: Path) {
    Prior(projected, nodes, a).Some? && !Prior(projected, nodes, a).value.directory
  }

  predicate SameKind(rules: Rules, t: Triple) {
    !t.directory ==> rules.extension(t.identity) == rules.extension(t.destination)
                     && !IsConfig(t.destination) && !IsConfig(t.identity)
  }

  /** Everything kept so far is asked for, allowed, and in agreement with the tree. */
  ghost predicate Progress(nodes: Nodes, rules: Rules, asks: set<Mapping>, done: set<Triple>) {
    forall u :: u in done ==> Projects(nodes, asks, u) && ItemAllowed(rules, u) && AgreesWithTree(nodes, u)
  }

  /** Something else is already known at the destination. */
  lemma ClashRefuses(nodes: Nodes, rules: Rules, asks: set<Mapping>, view: View, base: View, done: set<Triple>,
                     t: Triple)
    requires Reflects(view, base, done) && Progress(nodes, rules, asks, done) && Projects(nodes, asks, t)
    requires Prior(view.projected, nodes, t.destination).Some?
    requires Prior(view.projected, nodes, t.destination) != Some(Show(t))
    ensures !Acceptable(nodes, asks, rules)
  {
    var d := t.destination;
    if d in view.projected {
      var u := Triple(d, view.projected[d].relative, view.projected[d].directory);
      assert u in done;
    } else {
      assert !AgreesWithTree(nodes, t);
    }
  }

  lemma AncestorRefuses(nodes: Nodes, rules: Rules, asks: set<Mapping>, view: View, base: View, done: set<Triple>,
                        t: Triple, a: Path)
    requires Reflects(view, base, done) && Progress(nodes, rules, asks, done) && Projects(nodes, asks, t)
    requires ProperAncestor(a, t.destination) && FileThere(view.projected, nodes, a)
    ensures !Acceptable(nodes, asks, rules)
  {
    if a in view.projected {
      var u := Triple(a, view.projected[a].relative, view.projected[a].directory);
      assert u in done && Projects(nodes, asks, u) && !u.directory;
      assert ProperAncestor(u.destination, t.destination);
    } else {
      assert FileAt(nodes, a);
    }
  }

  lemma AgreesToo(nodes: Nodes, rules: Rules, asks: set<Mapping>, view: View, base: View, done: set<Triple>, t: Triple)
    requires Reflects(view, base, done) && Progress(nodes, rules, asks, done)
    requires Prior(view.projected, nodes, t.destination) in {None, Some(Show(t))}
    ensures AgreesWithTree(nodes, t)
  {
    var d := t.destination;
    if d in view.projected {
      var u := Triple(d, view.projected[d].relative, view.projected[d].directory);
      assert u in done && u == t;
    }
  }

  /** A triple that met nothing different extends what is kept. */
  lemma KeepOne(nodes: Nodes, rules: Rules, asks: set<Mapping>, view: View, base: View, done: set<Triple>, t: Triple)
    requires Reflects(view, base, done) && Progress(nodes, rules, asks, done) && Projects(nodes, asks, t)
    requires Prior(view.projected, nodes, t.destination) in {None, Some(Show(t))} && ItemAllowed(rules, t)
    requires !t.directory ==> t.identity in view.locations
    ensures Reflects(Record(view, t), base, done + {t}) && Progress(nodes, rules, asks, done + {t})
  {
    RecordReflects(view, base, done, t);
    AgreesToo(nodes, rules, asks, view, base, done, t);
  }

  /** Once every request is worked off and no file lies above a projected path, all of it is acceptable. */
  lemma AllKept(nodes: Nodes, rules: Rules, asks: set<Mapping>, view: View, base: View, done: set<Triple>)
    requires Reflects(view, base, done) && Progress(nodes, rules, asks, done)
    requires forall m :: m in asks ==> m.source in nodes
    requires forall t :: Projects(nodes, asks, t) ==> t in done
    requires forall d, a :: d in view.projected && ProperAncestor(a, d) ==> !FileThere(view.projected, nodes, a)
    ensures Acceptable(nodes, asks, rules)
  {
    forall t, u | Projects(nodes, asks, t) && Projects(nodes, asks, u)
      ensures t.destination == u.destination ==> t == u
      ensures ProperAncestor(u.destination, t.destination) ==> u.directory
    {
      assert t in done && u in done;
    }
    forall t, a | Projects(nodes, asks, t) && ProperAncestor(a, t.destination)
      ensures !FileAt(nodes, a)
    {
      assert t in done && !FileThere(view.projected, nodes, a);
      if a in view.projected && a in nodes {
        assert AgreesWithTree(nodes, Triple(a, view.projected[a].relative, view.projected[a].directory));
      }
    }
  }

  /** The work loop of one request. */
  ghost predicate Underway(nodes: Nodes, rules: Rules, m: Mapping, queue: seq<Visit>, head: nat, taken: set<Path>,
                           before: set<Triple>, done: set<Triple>) {
    && Course(nodes, m, queue, head, taken) && Kept(nodes, m, taken, before, done) && AllFit(rules, queue)
    && (head > 0 ==> m.source in nodes)
  }

  lemma UnderwayStart(nodes: Nodes, rules: Rules, m: Mapping, before: set<Triple>)
    requires rules.bytes(Slashed(m.destination)) <= rules.pathBytes
    ensures Underway(nodes, rules, m, [Visit(m.source, m.destination)], 0, {}, before, before)
  {
    CourseStart(nodes, m);
  }

  lemma UnderwayStep(nodes: Nodes, rules: Rules, m: Mapping, queue: seq<Visit>, head: nat, taken: set<Path>,
                     before: set<Triple>, done: set<Triple>, kids: seq<Path>)
    requires Underway(nodes, rules, m, queue, head, taken, before, done) && head < |queue|
    requires queue[head].source in nodes && ChildList(nodes, queue[head].source, kids)
    requires forall k :: 0 <= k < |kids| ==>
      rules.bytes(Slashed(queue[head].destination + [Base(kids[k])])) <= rules.pathBytes
    ensures Underway(nodes, rules, m, queue + Visits(kids, queue[head].destination), head + 1,
                     taken + {queue[head].source}, before,
                     done + {TripleOf(queue[head].destination, nodes[queue[head].source])})
  {
    var item := queue[head];
    assert head == 0 ==> item.source == m.source;
    CourseStep(nodes, m, queue, head, taken, kids);
    KeptStep(nodes, m, taken, before, done, item.source);
    AllFitGrows(rules, queue, kids, item.destination);
  }

  /** The visit at the head is what Turn needs it to be. */
  lemma UnderwayHead(nodes: Nodes, rules: Rules, m: Mapping, queue: seq<Visit>, head: nat, taken: set<Path>,
                     before: set<Triple>, done: set<Triple>)
    requires Underway(nodes, rules, m, queue, head, taken, before, done) && head < |queue|
    ensures m.source <= queue[head].source && queue[head].destination == Shifted(m, queue[head].source)
    ensures queue[head].source == m.source || queue[head].source in nodes
    ensures rules.bytes(Slashed(queue[head].destination)) <= rules.pathBytes
    ensures head <= |Below(nodes, m)|
  {
    if head > 0 {
      CourseBound(nodes, m, queue, head, taken);
    }
  }

  lemma UnderwayEnd(nodes: Nodes, rules: Rules, m: Mapping, queue: seq<Visit>, taken: set<Path>,
                    before: set<Triple>, done: set<Triple>)
    requires Underway(nodes, rules, m, queue, |queue|, taken, before, done) && Rooted(nodes) && m.source != []
    ensures m.source in nodes && before <= done && |queue| <= Cost(nodes, m)
    ensures forall t :: Wants(nodes, m, t) ==> t in done
    ensures forall t :: t in done ==> t in before || Wants(nodes, m, t)
  {
    KeptAll(nodes, m, queue, taken, before, done);
    CourseBound(nodes, m, queue, |queue|, taken);
  }

  /** The inventory the overlay starts from. */
  ghost predicate Grounded(nodes: Nodes, children: map<Path, seq<Path>>, base: View) {
    Sane(nodes, children) && forall p :: FileAt(nodes, p) ==> nodes[p].path in base.locations
  }

  lemma ListedChildren(nodes: Nodes, children: map<Path, seq<Path>>, s: Path)
    requires ChildrenExact(children, nodes.Keys) && s in children
    ensures ChildList(nodes, s, children[s])
  {
    var kids := children[s];
    forall k | 0 <= k < |kids|
      ensures kids[k] in nodes && kids[k] != [] && Parent(kids[k]) == s
    {
      assert kids[k] in kids;
    }
  }

  lemma NoChildren(nodes: Nodes, children: map<Path, seq<Path>>, s: Path)
    requires ChildrenExact(children, nodes.Keys) && s !in children
    ensures ChildList(nodes, s, [])
  {
  }

  lemma FilesHaveNone(nodes: Nodes, children: map<Path, seq<Path>>, s: Path)
    requires Sane(nodes, children) && s in nodes && nodes[s].node.FileNode?
    ensures ChildList(nodes, s, [])
  {
  }

  lemma ChildListOf(nodes: Nodes, children: map<Path, seq<Path>>, s: Path)
    requires Sane(nodes, children) && s in nodes
    ensures ChildList(nodes, s, if s in children then children[s] else [])
    ensures nodes[s].node.FileNode? ==> ChildList(nodes, s, [])
  {
    if s in children {
      ListedChildren(nodes, children, s);
    } else {
      NoChildren(nodes, children, s);
    }
    if nodes[s].node.FileNode? {
      FilesHaveNone(nodes, children, s);
    }
  }

  lemma WantedHere(nodes: Nodes, asks: set<Mapping>, m: Mapping, s: Path)
    requires m in asks && s in nodes && m.source <= s
    ensures Projects(nodes, asks, TripleOf(Shifted(m, s), nodes[s]))
  {
    assert Wants(nodes, m, TripleOf(Shifted(m, s), nodes[s]));
  }

  /** A projected path that is too long refuses the whole. */
  lemma TooLong(nodes: Nodes, rules: Rules, asks: set<Mapping>, m: Mapping, s: Path)
    requires m in asks && m.source <= s && (s == m.source || s in nodes)
    requires rules.bytes(Slashed(Shifted(m, s))) > rules.pathBytes
    ensures !Acceptable(nodes, asks, rules)
  {
    if s in nodes {
      WantedHere(nodes, asks, m, s);
    }
  }

  /** What has been kept of one request, on top of what was kept before. */
  ghost predicate Kept(nodes: Nodes, m: Mapping, taken: set<Path>, before: set<Triple>, done: set<Triple>) {
    && before <= done
    && (forall s :: s in taken ==> s in nodes && m.source <= s && TripleOf(Shifted(m, s), nodes[s]) in done)
    && (forall t :: t in done ==> t in before || Wants(nodes, m, t))
  }

  lemma KeptStep(nodes: Nodes, m: Mapping, taken: set<Path>, before: set<Triple>, done: set<Triple>, s: Path)
    requires Kept(nodes, m, taken, before, done) && s in nodes && m.source <= s
    ensures Kept(nodes, m, taken + {s}, before, done + {TripleOf(Shifted(m, s), nodes[s])})
  {
    assert Wants(nodes, m, TripleOf(Shifted(m, s), nodes[s]));
  }

  lemma KeptAll(nodes: Nodes, m: Mapping, queue: seq<Visit>, taken: set<Path>, before: set<Triple>, done: set<Triple>)
    requires Kept(nodes, m, taken, before, done) && Course(nodes, m, queue, |queue|, taken) && Rooted(nodes)
    requires m.source != []
    ensures forall t :: Wants(nodes, m, t) ==> t in done
  {
    forall t | Wants(nodes, m, t)
      ensures t in done
    {
      var s :| s in nodes && m.source <= s && t == TripleOf(Shifted(m, s), nodes[s]);
      AllBelow(nodes, m, queue, taken, s);
    }
  }

  /** The visits one request costs. */
  ghost function Cost(nodes: Nodes, m: Mapping): nat {
    if m.source in nodes then |Below(nodes, m)| else 1
  }

  lemma GroundedRooted(nodes: Nodes, children: map<Path, seq<Path>>, base: View)
    requires Grounded(nodes, children, base)
    ensures Rooted(nodes)
  {
  }

  lemma CourseStart(nodes: Nodes, m: Mapping)
    ensures Course(nodes, m, [Visit(m.source, m.destination)], 0, {})
  {
    assert Shifted(m, m.source) == m.destination + [];
    assert m.destination + [] == m.destination;
  }

  /** What it means when the first visit cannot be queued. */
  lemma SourceTooLong(nodes: Nodes, rules: Rules, asks: set<Mapping>, m: Mapping)
    requires m in asks
    ensures rules.bytes(Slashed(m.destination)) > rules.pathBytes ==> !Acceptable(nodes, asks, rules)
    ensures Cost(nodes, m) >= 1
  {
    CostsOne(nodes, m);
    assert Shifted(m, m.source) == m.destination + [] == m.destination;
    if rules.bytes(Slashed(m.destination)) > rules.pathBytes {
      TooLong(nodes, rules, asks, m, m.source);
    }
  }

  lemma CostsOne(nodes: Nodes, m: Mapping)
    ensures Cost(nodes, m) >= 1
  {
    if m.source in nodes {
      assert m.source in Below(nodes, m);
    }
  }

  /** A queue that would overflow is still no longer than the request's cost. */
  lemma NoRoom(nodes: Nodes, m: Mapping, queue: seq<Visit>, head: nat, taken: set<Path>, kids: seq<Path>)
    requires Course(nodes, m, queue, head, taken) && head < |queue| && queue[head].source in nodes
    requires ChildList(nodes, queue[head].source, kids) && (head > 0 ==> m.source in nodes)
    ensures |queue| + |kids| <= Cost(nodes, m)
  {
    assert head == 0 ==> queue[head].source == m.source;
    CourseStep(nodes, m, queue, head, taken, kids);
    CourseBound(nodes, m, queue + Visits(kids, queue[head].destination), head + 1, taken + {queue[head].source});
  }

  ghost predicate AllFit(rules: Rules, queue: seq<Visit>) {
    forall i :: 0 <= i < |queue| ==> rules.bytes(Slashed(queue[i].destination)) <= rules.pathBytes
  }

  lemma AllFitGrows(rules: Rules, queue: seq<Visit>, kids: seq<Path>, destination: Path)
    requires AllFit(rules, queue) && forall k :: 0 <= k < |kids| ==> kids[k] != []
    requires forall k :: 0 <= k < |kids| ==> rules.bytes(Slashed(destination + [Base(kids[k])])) <= rules.pathBytes
    ensures AllFit(rules, queue + Visits(kids, destination))
  {
  }

  /** Exactly what these requests project has been kept. */
  ghost predicate Exact(nodes: Nodes, asks: set<Mapping>, done: set<Triple>) {
    && (forall t {:trigger Projects(nodes, asks, t)} :: Projects(nodes, asks, t) <==> t in done)
    && (forall m :: m in asks ==> m.source in nodes)
  }

  lemma Beforehand(nodes: Nodes, rules: Rules, asks: set<Mapping>, base: View)
    requires base.projected == map[]
    ensures Reflects(base, base, {}) && Progress(nodes, rules, asks, {}) && Exact(nodes, {}, {})
  {
  }

  lemma ExactStep(nodes: Nodes, asks: set<Mapping>, before: set<Triple>, m: Mapping, done: set<Triple>)
    requires Exact(nodes, asks, before) && m.source in nodes && before <= done
    requires forall t :: Wants(nodes, m, t) ==> t in done
    requires forall t :: t in done ==> t in before || Wants(nodes, m, t)
    ensures Exact(nodes, asks + {m}, done)
  {
    forall t
      ensures Projects(nodes, asks + {m}, t) <==> Projects(nodes, asks, t) || Wants(nodes, m, t)
    {
      AskedOnceMore(nodes, asks, m, t);
    }
  }

  lemma AskedOnceMore(nodes: Nodes, asks: set<Mapping>, m: Mapping, t: Triple)
    ensures Projects(nodes, asks + {m}, t) <==> Projects(nodes, asks, t) || Wants(nodes, m, t)
  {
    if Wants(nodes, m, t) {
      assert m in asks + {m};
    }
    if Projects(nodes, asks, t) {
      var n :| n in asks && Wants(nodes, n, t);
      assert n in asks + {m};
    }
  }

  /** What the overlay shows once all requests are accepted. */
  ghost predicate Shows(view: View, base: View, nodes: Nodes, asks: set<Mapping>) {
    && (forall t :: Projects(nodes, asks, t) ==>
      t.destination in view.projected && view.projected[t.destination] == Show(t))
    && (forall d :: d in view.projected ==>
          Projects(nodes, asks, Triple(d, view.projected[d].relative, view.projected[d].directory)))
    && (forall d :: d in view.knownFiles <==>
          d in base.knownFiles || (d in view.projected && !view.projected[d].directory))
    && view.locations.Keys == base.locations.Keys
    && (forall e, d :: e in view.locations ==> (d in view.locations[e] <==>
          (e in base.locations && d in base.locations[e]) || Projects(nodes, asks, Triple(d, e, false))))
  }

  lemma ExactShows(view: View, base: View, nodes: Nodes, asks: set<Mapping>, done: set<Triple>)
    requires Reflects(view, base, done) && Exact(nodes, asks, done)
    ensures Shows(view, base, nodes, asks)
  {
  }

  // ---- the overlay

  class Overlay {
    const nodes: Nodes
    const children: map<Path, seq<Path>>
    var projected: map<Path, Projection>
    var knownFiles: set<Path>
    var locations: map<Path, set<Path>>
    var references: nat
    var entries: nat

    constructor (cov: Coverage)
      ensures nodes == cov.nodes && children == cov.children
      ensures State() == View(map[], cov.knownFiles, cov.locations) && references == 0 && entries == 0
    {
      nodes, children := cov.nodes, cov.children;
      projected, knownFiles, locations := map[], cov.knownFiles, cov.locations;
      references, entries := 0, 0;
    }

    function State(): View
      reads this
    {
      View(projected, knownFiles, locations)
    }

    /** A regular file strictly between a path and `stop`, nearest first; with `stop` empty, anywhere above. */
    method FileAbove(path: Path, stop: Path) returns (found: bool)
      ensures found ==> exists a :: ProperAncestor(a, path) && FileThere(projected, nodes, a)
      ensures !found && stop == [] ==> forall a :: ProperAncestor(a, path) ==> !FileThere(projected, nodes, a)
    {
      var ancestor := if path == [] then [] else Parent(path);
      while ancestor != [] && ancestor != stop
        invariant ancestor <= path && (path != [] ==> |ancestor| < |path|)
        invariant forall n :: |ancestor| < n < |path| ==> !FileThere(projected, nodes, path[..n])
        decreases |ancestor|
      {
        if FileThere(projected, nodes, ancestor) {
          assert ProperAncestor(ancestor, path);
          return true;
        }
        assert ancestor == path[..|ancestor|];
        ancestor := Parent(ancestor);
      }
      forall a | ProperAncestor(a, path) && stop == []
        ensures !FileThere(projected, nodes, a)
      {
        assert a == path[..|a|];
      }
      return false;
    }

    /** The checks on one projected path, and recording it. */
    method Project(rules: Rules, t: Triple, parent: Path) returns (ok: bool)
      requires !t.directory ==> t.identity in locations
      modifies this`projected, this`knownFiles, this`locations
      ensures ok ==> State() == Record(old(State()), t) && SameKind(rules, t)
                     && Prior(old(projected), nodes, t.destination) in {None, Some(Show(t))}
      ensures !ok ==>
        || (Prior(old(projected), nodes, t.destination).Some?
          && Prior(old(projected), nodes, t.destination) != Some(Show(t)))
        || (exists a :: ProperAncestor(a, t.destination) && FileThere(old(projected), nodes, a))
        || !SameKind(rules, t)
    {
      var existing := Prior(projected, nodes, t.destination);
      if existing.Some? && existing.value != Show(t) {
        return false;
      }
      var blocked := FileAbove(t.destination, parent);
      if blocked {
        return false;
      }
      projected := projected[t.destination := Show(t)];
      if !t.directory {
        if !SameKind(rules, t) {
          return false;
        }
        knownFiles := knownFiles + {t.destination};
        locations := locations[t.identity := locations[t.identity] + {t.destination}];
      }
      return true;
    }

    /** enqueue: room first, then the length of the destination. */
    method Enqueue(rules: Rules, queue: seq<Visit>, head: nat, visit: Visit)
      returns (stop: Option<Failure>, longer: seq<Visit>)
      requires head <= |queue|
      ensures stop.None? ==> longer == queue + [visit] && rules.bytes(Slashed(visit.destination)) <= rules.pathBytes
      ensures stop.Some? ==> stop.value in {EntryLimit, ExternalMap}
      ensures stop == Some(EntryLimit) ==> entries + |queue| - head >= rules.entries
      ensures stop == Some(ExternalMap) ==> rules.bytes(Slashed(visit.destination)) > rules.pathBytes
    {
      if entries + |queue| - head >= rules.entries {
        return Some(EntryLimit), queue;
      }
      if rules.bytes(Slashed(visit.destination)) > rules.pathBytes {
        return Some(ExternalMap), queue;
      }
      return None, queue + [visit];
    }

    method EnqueueAll(rules: Rules, queue: seq<Visit>, head: nat, kids: seq<Path>, destination: Path)
      returns (stop: Option<Failure>, longer: seq<Visit>)
      requires head <= |queue| && forall k :: 0 <= k < |kids| ==> kids[k] != []
      ensures stop.None? ==> longer == queue + Visits(kids, destination)
                             && forall k :: 0 <= k < |kids| ==>
                                  rules.bytes(Slashed(destination + [Base(kids[k])])) <= rules.pathBytes
      ensures stop.Some? ==> stop.value in {EntryLimit, ExternalMap}
      ensures stop == Some(ExternalMap) ==>
        exists k :: 0 <= k < |kids| && rules.bytes(Slashed(destination + [Base(kids[k])])) > rules.pathBytes
      ensures stop == Some(EntryLimit) ==> entries + |queue| + |kids| - head > rules.entries
    {
      longer := queue;
      for k := 0 to |kids|
        invariant longer == queue + Visits(kids, destination)[..k]
        invariant forall j :: 0 <= j < k ==> rules.bytes(Slashed(destination + [Base(kids[j])])) <= rules.pathBytes
      {
        stop, longer := Enqueue(rules, longer, head, Visit(kids[k], destination + [Base(kids[k])]));
        if stop.Some? {
          return;
        }
        assert Visits(kids, destination)[..k + 1] == Visits(kids, destination)[..k] + [Visits(kids, destination)[k]];
      }
      assert Visits(kids, destination)[..|kids|] == Visits(kids, destination);
      stop := None;
    }

    /** What refusing one projected path means for the whole. */
    lemma ProjectRefuses(rules: Rules, asks: set<Mapping>, view: View, base: View, done: set<Triple>, t: Triple)
      requires Reflects(view, base, done) && Progress(nodes, rules, asks, done) && Projects(nodes, asks, t)
      requires
        || (Prior(view.projected, nodes, t.destination).Some?
          && Prior(view.projected, nodes, t.destination) != Some(Show(t)))
        || (exists a :: ProperAncestor(a, t.destination) && FileThere(view.projected, nodes, a))
        || !SameKind(rules, t)
      ensures !Acceptable(nodes, asks, rules)
    {
      if Prior(view.projected, nodes, t.destination).Some?
        && Prior(view.projected, nodes, t.destination) != Some(Show(t)) {
        ClashRefuses(nodes, rules, asks, view, base, done, t);
      } else if exists a :: ProperAncestor(a, t.destination) && FileThere(view.projected, nodes, a) {
        var a :| ProperAncestor(a, t.destination) && FileThere(view.projected, nodes, a);
        AncestorRefuses(nodes, rules, asks, view, base, done, t, a);
      }
    }

    /** Showing one visited entry at its destination. */
    method ShowOne(rules: Rules, m: Mapping, visit: Visit, parent: Path, ghost asks: set<Mapping>, ghost base: View,
                   ghost done: set<Triple>) returns (ok: bool)
      requires Reflects(State(), base, done) && Progress(nodes, rules, asks, done) && Grounded(nodes, children, base)
      requires m in asks && m.source <= visit.source && visit.source in nodes
      requires visit.destination == Shifted(m, visit.source)
      requires rules.bytes(Slashed(visit.destination)) <= rules.pathBytes
      modifies this`projected, this`knownFiles, this`locations
      ensures ok ==>
        var kept := done + {TripleOf(visit.destination, nodes[visit.source])};
        Reflects(State(), base, kept) && Progress(nodes, rules, asks, kept)
      ensures !ok ==> !Acceptable(nodes, asks, rules)
    {
      var t := TripleOf(visit.destination, nodes[visit.source]);
      WantedHere(nodes, asks, m, visit.source);
      assert !t.directory ==> FileAt(nodes, visit.source);
      ghost var before := State();
      ok := Project(rules, t, parent);
      if ok {
        KeepOne(nodes, rules, asks, before, base, done, t);
      } else {
        ProjectRefuses(rules, asks, before, base, done, t);
      }
    }

    /** One turn of the work loop: the visit at the head, then its children behind the queue. */
    method Turn(rules: Rules, m: Mapping, queue: seq<Visit>, head: nat, parent: Path, ghost asks: set<Mapping>,
                ghost base: View, ghost done: set<Triple>)
      returns (stop: Option<Failure>, longer: seq<Visit>, ghost kids: seq<Path>)
      requires Reflects(State(), base, done) && Progress(nodes, rules, asks, done) && Grounded(nodes, children, base)
      requires head < |queue| && m in asks && m.source <= queue[head].source
      requires queue[head].destination == Shifted(m, queue[head].source)
      requires queue[head].source == m.source || queue[head].source in nodes
      requires rules.bytes(Slashed(queue[head].destination)) <= rules.pathBytes
      modifies this`projected, this`knownFiles, this`locations, this`entries
      ensures stop.None? ==>
        && queue[head].source in nodes && ChildList(nodes, queue[head].source, kids)
        && longer == queue + Visits(kids, queue[head].destination)
        && (forall k :: 0 <= k < |kids| ==>
              rules.bytes(Slashed(queue[head].destination + [Base(kids[k])])) <= rules.pathBytes)
      ensures stop.None? ==>
        var kept := done + {TripleOf(queue[head].destination, nodes[queue[head].source])};
        Reflects(State(), base, kept) && Progress(nodes, rules, asks, kept)
      ensures stop.Some? && stop.value != EntryLimit ==> !Acceptable(nodes, asks, rules)
      ensures entries == old(entries) + 1
      ensures stop == Some(EntryLimit) ==>
        && queue[head].source in nodes && ChildList(nodes, queue[head].source, kids)
        && entries + |queue| + |kids| - (head + 1) > rules.entries
    {
      hide Progress;
      var item := queue[head];
      entries := entries + 1;
      longer, kids := queue, [];
      if item.source !in nodes {
        return Some(ExternalMap), queue, [];
      }
      ChildListOf(nodes, children, item.source);
      var ok := ShowOne(rules, m, item, parent, asks, base, done);
      if !ok {
        return Some(ExternalMap), queue, [];
      }
      if nodes[item.source].node.FileNode? {
        assert queue + Visits([], item.destination) == queue;
        return None, queue, [];
      }
      var list := if item.source in children then children[item.source] else [];
      kids := list;
      stop, longer := EnqueueAll(rules, queue, head + 1, list, item.destination);
      if stop == Some(ExternalMap) {
        var k :| 0 <= k < |list| && rules.bytes(Slashed(item.destination + [Base(list[k])])) > rules.pathBytes;
        ShiftedChild(m, item.source, list[k]);
        TooLong(nodes, rules, asks, m, list[k]);
      }
    }

    /** The expansion of one request: everything below the source, shown below the destination. */
    method Expand(rules: Rules, m: Mapping, parent: Path, ghost asks: set<Mapping>, ghost base: View,
                  ghost before: set<Triple>) returns (stop: Option<Failure>, ghost done: set<Triple>)
      requires Reflects(State(), base, before) && Progress(nodes, rules, asks, before)
        && Grounded(nodes, children, base)
      requires m in asks && m.source != []
      modifies this`projected, this`knownFiles, this`locations, this`entries
      ensures stop.None? ==> Reflects(State(), base, done) && Progress(nodes, rules, asks, done)
      ensures stop.None? ==>
        && m.source in nodes && before <= done
        && (forall t :: Wants(nodes, m, t) ==> t in done)
          && (forall t :: t in done ==> t in before || Wants(nodes, m, t))
      ensures stop.Some? && stop.value != EntryLimit ==> !Acceptable(nodes, asks, rules)
      ensures stop.None? ==> entries <= old(entries) + Cost(nodes, m)
      ensures stop == Some(EntryLimit) ==> old(entries) + Cost(nodes, m) > rules.entries
    {
      hide Reflects, Progress, Acceptable, Course, Kept, AllFit, ChildList, Wants, Grounded, Cost, Below, Rooted;
      done := before;
      var queue: seq<Visit>;
      stop, queue := Enqueue(rules, [], 0, Visit(m.source, m.destination));
      CostsOne(nodes, m);
      GroundedRooted(nodes, children, base);
      if stop.Some? {
        SourceTooLong(nodes, rules, asks, m);
        return;
      }
      var head := 0;
      ghost var taken: set<Path> := {};
      assert queue == [Visit(m.source, m.destination)];
      UnderwayStart(nodes, rules, m, before);
      while head < |queue|
        invariant head <= |queue| && Underway(nodes, rules, m, queue, head, taken, before, done)
        invariant Reflects(State(), base, done) && Progress(nodes, rules, asks, done)
        invariant entries == old(entries) + head
        decreases |Below(nodes, m)| + 1 - head
      {
        UnderwayHead(nodes, rules, m, queue, head, taken, before, done);
        ghost var item, kids := queue[head], [];
        var next := queue;
        stop, next, kids := Turn(rules, m, queue, head, parent, asks, base, done);
        if stop.Some? {
          if stop.value == EntryLimit {
            NoRoom(nodes, m, queue, head, taken, kids);
          }
          return;
        }
        UnderwayStep(nodes, rules, m, queue, head, taken, before, done, kids);
        done := done + {TripleOf(item.destination, nodes[item.source])};
        taken := taken + {item.source};
        queue := next;
        head := head + 1;
      }
      UnderwayEnd(nodes, rules, m, queue, taken, before, done);
      stop := None;
    }

    /** One pair: counted, read and expanded. */
    method CoverPair(rules: Rules, request: Result<Mapping>, parent: Path, ghost earlier: set<Mapping>,
                     ghost asks: set<Mapping>, ghost base: View, ghost before: set<Triple>)
      returns (stop: Option<Failure>, ghost done: set<Triple>)
      requires request.Ok? ==> request.value in asks && request.value.source != []
      requires request.Err? ==> request.error != EntryLimit
      requires Reflects(State(), base, before) && Progress(nodes, rules, asks, before)
        && Grounded(nodes, children, base)
      requires Exact(nodes, earlier, before)
      modifies this
      ensures stop.None? ==>
        && request.Ok? && Reflects(State(), base, done) && Progress(nodes, rules, asks, done)
        && Exact(nodes, earlier + {request.value}, done)
        && references == old(references) + 1 && entries <= old(entries) + Cost(nodes, request.value)
      ensures stop.Some? && stop.value != EntryLimit ==> request.Err? || !Acceptable(nodes, asks, rules)
      ensures stop == Some(EntryLimit) ==>
        || old(references) + 1 > rules.references
        || (request.Ok? && old(entries) + Cost(nodes, request.value) > rules.entries)
    {
      done := before;
      if references >= rules.references {
        return Some(EntryLimit), before;
      }
      references := references + 1;
      if request.Err? {
        return Some(request.error), before;
      }
      stop, done := Expand(rules, request.value, parent, asks, base, before);
      if stop.None? {
        ExactStep(nodes, earlier, before, request.value, done);
      }
    }

    /** coverFilePathMap: the requests of one configuration at one location. */
    method CoverSite(rules: Rules, read: Reader, site: Site, ghost parsed: seq<Result<Mapping>>,
                     ghost earlier: set<Mapping>, ghost asks: set<Mapping>, ghost base: View, ghost before: set<Triple>)
      returns (stop: Option<Failure>, ghost done: set<Triple>)
      requires site.location != [] && Reads(read) && parsed == Parsed(read, site) && Asked(parsed, |parsed|) <= asks
      requires Reflects(State(), base, before) && Progress(nodes, rules, asks, before)
        && Grounded(nodes, children, base)
      requires Exact(nodes, earlier, before)
      modifies this
      ensures stop.None? ==>
        && Parses(read, site) && Reflects(State(), base, done) && Progress(nodes, rules, asks, done)
        && Exact(nodes, earlier + Asked(parsed, |parsed|), done)
        && references == old(references) + |parsed| && entries <= old(entries) + LoadOf(nodes, parsed, |parsed|)
      ensures stop.Some? && stop.value != EntryLimit ==> !Parses(read, site) || !Acceptable(nodes, asks, rules)
      ensures stop == Some(EntryLimit) ==>
        || old(references) + |parsed| > rules.references
        || old(entries) + LoadOf(nodes, parsed, |parsed|) > rules.entries
    {
      done := before;
      NothingYet(earlier);
      match site.config {
        case NoMap =>
          return None, before;
        case NotAnObject =>
          return Some(MapContract), before;
        case Pairs(pairs) =>
          if pairs != [] && !InFunction(site.location) {
            return Some(ExternalMap), before;
          }
          stop, done := CoverPairs(rules, read, Parent(site.location), pairs, parsed, earlier, asks, base, before);
      }
    }

    method CoverPairs(rules: Rules, read: Reader, parent: Path, pairs: seq<(string, Target)>,
                      ghost parsed: seq<Result<Mapping>>, ghost earlier: set<Mapping>, ghost asks: set<Mapping>,
                      ghost base: View, ghost before: set<Triple>)
      returns (stop: Option<Failure>, ghost done: set<Triple>)
      requires Reads(read) && |parsed| == |pairs| && Asked(parsed, |parsed|) <= asks
      requires forall j :: 0 <= j < |pairs| ==> parsed[j] == read(parent, pairs[j].0, pairs[j].1)
      requires Reflects(State(), base, before) && Progress(nodes, rules, asks, before)
        && Grounded(nodes, children, base)
      requires Exact(nodes, earlier, before)
      modifies this
      ensures stop.None? ==>
        && ParsedTo(parsed, |parsed|) && Reflects(State(), base, done) && Progress(nodes, rules, asks, done)
        && Exact(nodes, earlier + Asked(parsed, |parsed|), done)
        && references == old(references) + |parsed| && entries <= old(entries) + LoadOf(nodes, parsed, |parsed|)
      ensures stop.Some? && stop.value != EntryLimit ==> !ParsedTo(parsed, |parsed|) || !Acceptable(nodes, asks, rules)
      ensures stop == Some(EntryLimit) ==>
        || old(references) + |parsed| > rules.references
        || old(entries) + LoadOf(nodes, parsed, |parsed|) > rules.entries
    {
      done := before;
      NothingYet(earlier);
      for j := 0 to |pairs|
        invariant ParsedTo(parsed, j)
        invariant Reflects(State(), base, done) && Progress(nodes, rules, asks, done)
        invariant Exact(nodes, earlier + Asked(parsed, j), done)
        invariant references == old(references) + j && entries <= old(entries) + LoadOf(nodes, parsed, j)
      {
        AskedWithin(nodes, parsed, j + 1, asks);
        var request := read(parent, pairs[j].0, pairs[j].1);
        stop, done := CoverNext(rules, request, parent, j, parsed, earlier, asks, base, done);
        if stop.Some? {
          ParsedThrough(parsed, j);
          return;
        }
      }
      stop := None;
    }

    method CoverNext(rules: Rules, request: Result<Mapping>, parent: Path, ghost j: nat,
                     ghost parsed: seq<Result<Mapping>>, ghost earlier: set<Mapping>, ghost asks: set<Mapping>,
                     ghost base: View, ghost before: set<Triple>)
      returns (stop: Option<Failure>, ghost done: set<Triple>)
      requires j < |parsed| && request == parsed[j] && Asked(parsed, j + 1) <= asks
      requires match request case Ok(m) => m.source != [] case Err(why) => why != EntryLimit
      requires Reflects(State(), base, before) && Progress(nodes, rules, asks, before)
        && Grounded(nodes, children, base)
      requires Exact(nodes, earlier + Asked(parsed, j), before)
      modifies this
      ensures stop.None? ==>
        && parsed[j].Ok? && Reflects(State(), base, done) && Progress(nodes, rules, asks, done)
        && Exact(nodes, earlier + Asked(parsed, j + 1), done)
        && references == old(references) + 1
        && entries <= old(entries) + LoadOf(nodes, parsed, j + 1) - LoadOf(nodes, parsed, j)
      ensures stop.Some? && stop.value != EntryLimit ==> parsed[j].Err? || !Acceptable(nodes, asks, rules)
      ensures stop == Some(EntryLimit) ==>
        || old(references) + 1 > rules.references
        || old(entries) + LoadOf(nodes, parsed, j + 1) - LoadOf(nodes, parsed, j) > rules.entries
    {
      stop, done := CoverPair(rules, request, parent, earlier + Asked(parsed, j), asks, base, before);
      if stop.None? {
        AskedNext(earlier, parsed, j);
      }
    }

    /** The closing pass: a file recorded later may lie above a path recorded earlier. */
    method NoFileAbove() returns (clear: bool)
      ensures clear <==> forall d, a :: d in projected && ProperAncestor(a, d) ==> !FileThere(projected, nodes, a)
    {
      var rest := projected.Keys;
      while rest != {}
        invariant rest <= projected.Keys
        invariant forall d, a :: d in projected && d !in rest && ProperAncestor(a, d) ==>
          !FileThere(projected, nodes, a)
        decreases |rest|
      {
        var d :| d in rest;
        var above := FileAbove(d, []);
        if above {
          return false;
        }
        rest := rest - {d};
      }
      return true;
    }

    method CoverAt(rules: Rules, read: Reader, sites: seq<Site>, i: nat, ghost batches: seq<seq<Result<Mapping>>>,
                   ghost asks: set<Mapping>, ghost base: View, ghost before: set<Triple>)
      returns (stop: Option<Failure>, ghost done: set<Triple>)
      requires Located(sites) && Reads(read) && Grounded(nodes, children, base) && i < |sites| == |batches|
      requires batches == Batches(read, sites) && asks == AskedBy(batches, |sites|)
      requires AllParse(read, sites, i) && Exact(nodes, AskedBy(batches, i), before)
      requires Reflects(State(), base, before) && Progress(nodes, rules, asks, before)
      requires references == References(batches, i) && entries <= Load(nodes, batches, i)
      modifies this
      ensures stop.None? ==>
        && AllParse(read, sites, i + 1) && Exact(nodes, AskedBy(batches, i + 1), done)
        && Reflects(State(), base, done) && Progress(nodes, rules, asks, done)
        && references == References(batches, i + 1) && entries <= Load(nodes, batches, i + 1)
      ensures stop.Some? && stop.value != EntryLimit ==>
        !AllParse(read, sites, |sites|) || !Acceptable(nodes, asks, rules)
      ensures stop == Some(EntryLimit) ==>
        References(batches, |sites|) > rules.references || Load(nodes, batches, |sites|) > rules.entries
    {
      BatchWithin(nodes, batches, i);
      EachParses(read, sites, i);
      BatchAt(read, sites, i);
      stop, done := CoverSite(rules, read, sites[i], batches[i], AskedBy(batches, i), asks, base, before);
    }

    /** The loop over the configurations. */
    method CoverAll(rules: Rules, read: Reader, sites: seq<Site>, ghost batches: seq<seq<Result<Mapping>>>,
                    ghost asks: set<Mapping>, ghost base: View) returns (stop: Option<Failure>, ghost done: set<Triple>)
      requires Located(sites) && Reads(read) && Grounded(nodes, children, base)
      requires batches == Batches(read, sites) && asks == AskedBy(batches, |sites|)
      requires base == State() && projected == map[] && references == entries == 0
      modifies this
      ensures stop.None? ==>
        && AllParse(read, sites, |sites|)
        && Reflects(State(), base, done) && Progress(nodes, rules, asks, done) && Exact(nodes, asks, done)
      ensures stop.Some? && stop.value != EntryLimit ==>
        !AllParse(read, sites, |sites|) || !Acceptable(nodes, asks, rules)
      ensures stop == Some(EntryLimit) ==>
        References(batches, |sites|) > rules.references || Load(nodes, batches, |sites|) > rules.entries
    {
      done := {};
      Beforehand(nodes, rules, asks, base);
      for i := 0 to |sites|
        invariant AllParse(read, sites, i) && Exact(nodes, AskedBy(batches, i), done)
        invariant Reflects(State(), base, done) && Progress(nodes, rules, asks, done)
        invariant references == References(batches, i) && entries <= Load(nodes, batches, i)
      {
        stop, done := CoverAt(rules, read, sites, i, batches, asks, base, done);
        if stop.Some? {
          return;
        }
      }
      stop := None;
    }

    /** prepareFilePathMaps: it accepts iff every configuration parses and all requests together are
        acceptable, room for them given; and then shows exactly what they ask for. */
    method Prepare(rules: Rules, read: Reader, sites: seq<Site>) returns (stop: Option<Failure>)
      requires Located(sites) && Reads(read)
      requires Grounded(nodes, children, State()) && projected == map[] && references == entries == 0
      modifies this
      ensures stop.None? ==>
        && AllParse(read, sites, |sites|)
        && Acceptable(nodes, Asks(read, sites), rules) && Shows(State(), old(State()), nodes, Asks(read, sites))
      ensures stop.Some? && stop.value != EntryLimit ==>
        !AllParse(read, sites, |sites|) || !Acceptable(nodes, Asks(read, sites), rules)
      ensures stop == Some(EntryLimit) ==> !Roomy(rules, nodes, read, sites)
      ensures Roomy(rules, nodes, read, sites) ==>
        (stop.None? <==> AllParse(read, sites, |sites|) && Acceptable(nodes, Asks(read, sites), rules))
    {
      ghost var batches, asks, base := Batches(read, sites), Asks(read, sites), State();
      ghost var done: set<Triple>;
      stop, done := CoverAll(rules, read, sites, batches, asks, base);
      if stop.Some? {
        return;
      }
      var clear := NoFileAbove();
      ExactShows(State(), base, nodes, asks, done);
      if !clear {
        ghost var d, a :| d in projected && ProperAncestor(a, d) && FileThere(projected, nodes, a);
        AncestorRefuses(nodes, rules, asks, State(), base, done,
                        Triple(d, projected[d].relative, projected[d].directory), a);
        return Some(ExternalMap);
      }
      AllKept(nodes, rules, asks, State(), base, done);
      return None;
    }
  }

  lemma SameProjection(nodes: Nodes, asks: set<Mapping>, base: View, a: View, b: View, d: Path)
    requires Shows(a, base, nodes, asks) && Shows(b, base, nodes, asks) && d in a.projected
    ensures d in b.projected && a.projected[d] == b.projected[d]
  {
    assert Projects(nodes, asks, Triple(d, a.projected[d].relative, a.projected[d].directory));
  }

  lemma SameLocations(nodes: Nodes, asks: set<Mapping>, base: View, a: View, b: View, e: Path)
    requires Shows(a, base, nodes, asks) && Shows(b, base, nodes, asks) && e in a.locations
    ensures e in b.locations && a.locations[e] == b.locations[e]
  {
    assert e in base.locations.Keys;
  }

  lemma SameOverlay(nodes: Nodes, asks: set<Mapping>, base: View, a: View, b: View)
    requires Shows(a, base, nodes, asks) && Shows(b, base, nodes, asks)
    ensures a == b
  {
    forall d | d in a.projected
      ensures d in b.projected && a.projected[d] == b.projected[d]
    {
      SameProjection(nodes, asks, base, a, b, d);
    }
    forall d | d in b.projected
      ensures d in a.projected
    {
      SameProjection(nodes, asks, base, b, a, d);
    }
    forall e | e in a.locations
      ensures e in b.locations && a.locations[e] == b.locations[e]
    {
      SameLocations(nodes, asks, base, a, b, e);
    }
    assert a.projected == b.projected;
    assert a.locations == b.locations;
    SameViews(nodes, asks, base, a, b);
  }

  lemma SameViews(nodes: Nodes, asks: set<Mapping>, base: View, a: View, b: View)
    requires Shows(a, base, nodes, asks) && Shows(b, base, nodes, asks)
    requires a.projected == b.projected && a.locations == b.locations
    ensures a == b
  {
    assert a.knownFiles == b.knownFiles;
  }

  ghost predicate AskedAt(batches: seq<seq<Result<Mapping>>>, i: nat, m: Mapping) {
    i < |batches| && m in Asked(batches[i], |batches[i]|)
  }

  lemma {:induction false} AskedByExact(batches: seq<seq<Result<Mapping>>>, n: nat, m: Mapping)
    requires n <= |batches|
    ensures m in AskedBy(batches, n) <==> exists i: nat :: i < n && AskedAt(batches, i, m)
  {
    if n > 0 {
      AskedByExact(batches, n - 1, m);
      if m in Asked(batches[n - 1], |batches[n - 1]|) {
        assert AskedAt(batches, n - 1, m);
      }
    }
  }

  lemma AsksOfSome(read: Reader, first: seq<Site>, second: seq<Site>, m: Mapping)
    requires Located(first) && Located(second) && m in Asks(read, first)
    requires forall site :: site in first ==> site in second
    ensures m in Asks(read, second)
  {
    var batches := Batches(read, first);
    AskedByExact(batches, |first|, m);
    var i: nat :| i < |first| && AskedAt(batches, i, m);
    assert first[i] in first;
    var j :| 0 <= j < |second| && second[j] == first[i];
    BatchAt(read, first, i);
    BatchAt(read, second, j);
    assert AskedAt(Batches(read, second), j, m);
    AskedByExact(Batches(read, second), |second|, m);
  }

  lemma {:induction false} ParsesEverywhere(read: Reader, first: seq<Site>, second: seq<Site>, n: nat)
    requires Located(first) && Located(second) && AllParse(read, second, |second|) && n <= |first|
    requires forall site :: site in first ==> site in second
    ensures AllParse(read, first, n)
  {
    if n > 0 {
      ParsesEverywhere(read, first, second, n - 1);
      assert first[n - 1] in first;
      var j :| 0 <= j < |second| && second[j] == first[n - 1];
      EachParses(read, second, j);
    }
  }

  // ---- room, whatever the order

  ghost function Sum(weight: Site -> nat, sites: seq<Site>): nat {
    if sites == [] then 0 else Sum(weight, sites[..|sites| - 1]) + weight(sites[|sites| - 1])
  }

  lemma {:induction false} SumWithout(weight: Site -> nat, sites: seq<Site>, i: nat)
    requires i < |sites|
    ensures Sum(weight, sites) == Sum(weight, sites[..i] + sites[i + 1..]) + weight(sites[i])
    decreases |sites|
  {
    var front, last := sites[..|sites| - 1], sites[|sites| - 1];
    var rest := sites[..i] + sites[i + 1..];
    if i == |sites| - 1 {
      assert rest == front;
    } else {
      SumWithout(weight, front, i);
      assert rest[..|rest| - 1] == front[..i] + front[i + 1..];
    }
  }

  lemma {:induction false} SumPermuted(weight: Site -> nat, first: seq<Site>, second: seq<Site>)
    requires multiset(first) == multiset(second)
    ensures Sum(weight, first) == Sum(weight, second)
    decreases |first|
  {
    if first == [] {
      assert |multiset(second)| == |second|;
    } else {
      var front, last := first[..|first| - 1], first[|first| - 1];
      assert first == front + [last];
      var i := PermutedAt(front, last, second);
      SumWithout(weight, second, i);
      SumPermuted(weight, front, second[..i] + second[i + 1..]);
    }
  }

  ghost function ParsedAnywhere(read: Reader, site: Site): seq<Result<Mapping>> {
    if site.location == [] then [] else Parsed(read, site)
  }

  /** The two things that one site uses up. */
  ghost function PairsOf(read: Reader): Site -> nat { site => |ParsedAnywhere(read, site)| }

  ghost function VisitsOf(nodes: Nodes, read: Reader): Site -> nat {
    site => LoadOf(nodes, ParsedAnywhere(read, site), |ParsedAnywhere(read, site)|)
  }

  lemma SumNext(weight: Site -> nat, sites: seq<Site>, i: nat)
    requires i < |sites|
    ensures Sum(weight, sites[..i + 1]) == Sum(weight, sites[..i]) + weight(sites[i])
  {
    assert sites[..i + 1][..i] == sites[..i];
  }

  lemma {:induction false} ReferencesAreSum(read: Reader, sites: seq<Site>, i: nat)
    requires Located(sites) && i <= |sites|
    ensures References(Batches(read, sites), i) == Sum(PairsOf(read), sites[..i])
  {
    if i > 0 {
      ReferencesAreSum(read, sites, i - 1);
      BatchAt(read, sites, i - 1);
      SumNext(PairsOf(read), sites, i - 1);
    }
  }

  lemma {:induction false} LoadIsSum(nodes: Nodes, read: Reader, sites: seq<Site>, i: nat)
    requires Located(sites) && i <= |sites|
    ensures Load(nodes, Batches(read, sites), i) == Sum(VisitsOf(nodes, read), sites[..i])
  {
    if i > 0 {
      LoadIsSum(nodes, read, sites, i - 1);
      BatchAt(read, sites, i - 1);
      SumNext(VisitsOf(nodes, read), sites, i - 1);
    }
  }

  lemma RoomPermuted(rules: Rules, nodes: Nodes, read: Reader, first: seq<Site>, second: seq<Site>)
    requires Located(first) && Located(second) && multiset(first) == multiset(second)
    ensures Roomy(rules, nodes, read, first) <==> Roomy(rules, nodes, read, second)
  {
    ReferencesAreSum(read, first, |first|);
    ReferencesAreSum(read, second, |second|);
    LoadIsSum(nodes, read, first, |first|);
    LoadIsSum(nodes, read, second, |second|);
    assert first[..|first|] == first && second[..|second|] == second;
    SumPermuted(PairsOf(read), first, second);
    SumPermuted(VisitsOf(nodes, read), first, second);
  }

  lemma SameSites(first: seq<Site>, second: seq<Site>)
    requires multiset(first) == multiset(second)
    ensures forall site :: site in first <==> site in second
  {
    forall site
      ensures site in first <==> site in second
    {
      assert site in first <==> site in multiset(first);
      assert site in second <==> site in multiset(second);
    }
  }

  /** Acceptance is a matter of which configurations there are, not of the order they come in: two orders need the
      same room and have the same verdict, and where they accept, the same overlay. */
  lemma OrderIndependent(rules: Rules, read: Reader, nodes: Nodes, base: View, first: seq<Site>, second: seq<Site>)
    requires Located(first) && Located(second) && multiset(first) == multiset(second)
    ensures Roomy(rules, nodes, read, first) <==> Roomy(rules, nodes, read, second)
    ensures AllParse(read, first, |first|) <==> AllParse(read, second, |second|)
    ensures Acceptable(nodes, Asks(read, first), rules) <==> Acceptable(nodes, Asks(read, second), rules)
    ensures forall a, b :: Shows(a, base, nodes, Asks(read, first)) && Shows(b, base, nodes, Asks(read, second)) ==>
      a == b
  {
    RoomPermuted(rules, nodes, read, first, second);
    SameSites(first, second);
    SameAsks(read, first, second);
    if AllParse(read, first, |first|) {
      ParsesEverywhere(read, second, first, |second|);
    }
    if AllParse(read, second, |second|) {
      ParsesEverywhere(read, first, second, |first|);
    }
    forall a, b | Shows(a, base, nodes, Asks(read, first)) && Shows(b, base, nodes, Asks(read, second))
      ensures a == b
    {
      SameOverlay(nodes, Asks(read, first), base, a, b);
    }
  }

  lemma SameAsks(read: Reader, first: seq<Site>, second: seq<Site>)
    requires Located(first) && Located(second) && forall site :: site in first <==> site in second
    ensures Asks(read, first) == Asks(read, second)
  {
    forall m
      ensures m in Asks(read, first) <==> m in Asks(read, second)
    {
      if m in Asks(read, first) {
        AsksOfSome(read, first, second, m);
      }
      if m in Asks(read, second) {
        AsksOfSome(read, second, first, m);
      }
    }
  }

  /** Two runs over the same tree, with the same configurations in another order. */
  method PrepareEitherWay(rules: Rules, read: Reader, one: Overlay, other: Overlay, first: seq<Site>, second: seq<Site>)
    returns (stop: Option<Failure>, halt: Option<Failure>)
    requires one != other && one.nodes == other.nodes && one.children == other.children && one.State() == other.State()
    requires Reads(read) && Grounded(one.nodes, one.children, one.State())
    requires one.projected == map[] && one.references == one.entries == other.references == other.entries == 0
    requires Located(first) && Located(second) && multiset(first) == multiset(second)
    modifies one, other
    ensures Roomy(rules, one.nodes, read, first) ==> (stop.None? <==> halt.None?)
    ensures stop.None? && halt.None? ==> one.State() == other.State()
  {
    ghost var base := one.State();
    stop := one.Prepare(rules, read, first);
    halt := other.Prepare(rules, read, second);
    OrderIndependent(rules, read, one.nodes, base, first, second);
  }

  /** The reader the source uses never asks for the root and never fails with a limit. */
  lemma SourceReaderReads(rules: Rules)
    ensures Reads(RequestReader(rules))
  {
  }
}
