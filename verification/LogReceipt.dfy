/** runReceipt of scripts/gate1-log-receipt.js: the firewall trial and its recovery, against a provider that
    may lose replies, drop mutations, or commit them late. */
module LogReceipt {
  import opened FirewallPolicy
  import opened Wrappers

  datatype Phase = ReadBaseline | Insert | VerifyDraft | Activate | VerifyActive | Probe | Events
    | InspectCleanup | Remove | VerifyRemoval | ActivateRemoval | VerifyRestoration | Discard | VerifyDiscard

  predicate CleanupPhase(p: Phase) {
    p.InspectCleanup? || p.Remove? || p.VerifyRemoval? || p.ActivateRemoval? || p.VerifyRestoration?
    || p.Discard? || p.VerifyDiscard?
  }

  /** The order in which a trial comes to its phases. */
  function Order(p: Phase): nat {
    match p
    case ReadBaseline => 0
    case Insert => 1
    case VerifyDraft => 2
    case Activate => 3
    case VerifyActive => 4
    case Probe => 5
    case Events => 6
    case InspectCleanup => 7
    case Remove => 8
    case Discard => 8
    case VerifyRemoval => 9
    case VerifyDiscard => 9
    case ActivateRemoval => 10
    case VerifyRestoration => 11
  }

  predicate IsMutation(p: Phase) { p == Insert || p == Activate || p == Remove || p == ActivateRemoval || p == Discard }

  /** What a mutation does to the provider: stage some draft, publish the draft, or drop it. */
  datatype Op = Stage | Publish | Drop

  function OpOf(p: Phase): Op
    requires IsMutation(p)
  {
    match p
    case Insert => Stage
    case Remove => Stage
    case Discard => Drop
    case _ => Publish
  }

  // ---- the provider

  /** The published and the staged configuration, and a mutation that was accepted but not yet applied. */
  datatype Remote = Remote(active: Config, draft: Option<Config>, flight: Option<Op>)

  datatype Effect = Immediate | Never | Late

  /** What happens to the request of one phase. `sent` is false when the deadline, the evidence file or the
      cancellation stops it before dispatch; `reply` is a usable reply in time, and a mutation so answered has
      been applied; otherwise `effect` says what became of it. Whatever is staged is up to the provider, and
      so is the metadata of what it publishes. `commits` lets a late mutation take effect just before. */
  datatype Fate = Fate(sent: bool, reply: bool, effect: Effect, staged: Config, meta: Meta,
                       commits: bool, lateStaged: Config, lateMeta: Meta)

  type World = Phase -> Fate

  function PublishedPolicy(active: Config, draft: Config): Policy {
    Policy(active.policy.key, draft.policy.rules, draft.policy.others)
  }

  function Commit(r: Remote, op: Op, staged: Config, meta: Meta): Remote {
    match op
    case Stage => Remote(r.active, Some(staged), None)
    case Drop => Remote(r.active, None, None)
    case Publish =>
      if r.draft.None? then r.(flight := None)
      else Remote(Config(meta, PublishedPolicy(r.active, r.draft.value)), None, None)
  }

  function Outcome(r: Remote, op: Op, fate: Fate): Remote {
    if fate.reply || fate.effect == Immediate then Commit(r, op, fate.staged, fate.meta)
    else if fate.effect == Late then r.(flight := Some(op)) else r
  }

  // ---- safety of one provider state

  /** The only two policies the trial may ever have in force. */
  ghost predicate Allowed(policy: Policy, baseline: Config, expected: map<string, Json>) {
    policy == baseline.policy || Owns(policy, baseline, expected)
  }

  /** A notion of safety that admits the baseline, and the baseline with one owned rule. */
  ghost predicate Admits(allowed: Policy -> bool, baseline: Config, expected: map<string, Json>) {
    && allowed(baseline.policy)
    && forall p {:trigger Owns(p, baseline, expected)} :: Owns(p, baseline, expected) ==> allowed(p)
  }

  /** Safe now, and still safe whenever a late mutation takes effect. */
  ghost predicate Fine(r: Remote, allowed: Policy -> bool) {
    && allowed(r.active.policy)
    && match r.flight
       case None => true
       case Some(Stage) => r.draft.None?
       case Some(Drop) => r.draft.Some?
       case Some(Publish) => r.draft.Some? && allowed(PublishedPolicy(r.active, r.draft.value))
  }

  /** A mutation may be sent here: it changes what it is meant to change, and publishing it is allowed. */
  ghost predicate Sendable(r: Remote, op: Op, allowed: Policy -> bool) {
    Fine(r.(flight := Some(op)), allowed)
  }

  lemma CommitIsFine(r: Remote, op: Op, staged: Config, meta: Meta, allowed: Policy -> bool)
    requires Sendable(r, op, allowed)
    ensures Fine(Commit(r, op, staged, meta), allowed)
  {
    if op == Publish {
      assert Commit(r, op, staged, meta).active.policy == PublishedPolicy(r.active, r.draft.value);
    }
  }

  lemma OutcomeIsFine(r: Remote, op: Op, fate: Fate, allowed: Policy -> bool)
    requires Sendable(r, op, allowed) && r.flight.None?
    ensures Fine(Outcome(r, op, fate), allowed)
  {
    CommitIsFine(r, op, fate.staged, fate.meta, allowed);
  }

  /** A draft recognised as the baseline plus our rule may be published over the baseline. */
  lemma DraftPublishes(active: Config, draft: Config, baseline: Config, expected: map<string, Json>,
                       allowed: Policy -> bool)
    requires Admits(allowed, baseline, expected)
    requires active == baseline && AddedRule(draft, baseline, expected, true).Some?
    ensures allowed(PublishedPolicy(active, draft))
  {
    AddedRuleIsInsertion(draft, baseline, expected, true);
  }

  /** A draft recognised as the baseline may be published over a policy with the baseline's key. */
  lemma RemovalPublishes(active: Config, draft: Config, baseline: Config, expected: map<string, Json>,
                         allowed: Policy -> bool)
    requires Admits(allowed, baseline, expected)
    requires PolicyMatches(draft, baseline, true, draft.policy.rules)
      && AddedRule(active, baseline, expected, false).Some?
    ensures allowed(PublishedPolicy(active, draft))
  {
    assert PublishedPolicy(active, draft) == baseline.policy;
  }

  // ---- a provider that answers, for recovery

  predicate Took(fate: Fate) { fate.reply || fate.effect == Immediate }

  /** Every mutation dispatched took effect, acknowledged or not. */
  ghost predicate AllTook(world: World, dispatched: seq<Phase>) {
    forall p :: p in dispatched && IsMutation(p) ==> Took(world(p))
  }

  /** What the provider does to a mutation, it does at once or never. */
  ghost predicate Prompt(world: World) {
    forall p :: IsMutation(p) ==> Took(world(p)) || world(p).effect == Never
  }

  /** Cleanup gets its requests out, and its reads answered, in time. */
  ghost predicate CleanupServed(world: World) {
    forall p :: CleanupPhase(p) ==> world(p).sent && (!IsMutation(p) ==> world(p).reply)
  }

  /** The provider stages what it was asked to stage. */
  ghost predicate StagesFaithfully(world: World, baseline: Config, expected: map<string, Json>, rule: Rule) {
    var added, removed := world(Insert).staged, world(Remove).staged;
    && AddedRule(added, baseline, expected, true) == Some(rule) && UniqueIds(added.policy.rules)
    && RequireChange(added, "rules.insert", rule, expected)
    && PolicyMatches(removed, baseline, true, removed.policy.rules)
    && RequireChange(removed, "rules.remove", rule, expected)
  }

  /** Cleanup is served, and what is staged, if anything is, is what was asked for. */
  ghost predicate Served(world: World, start: Remote, expected: map<string, Json>, clash: string -> bool, rule: Rule) {
    && start.draft.None? && UniqueIds(start.active.policy.rules) && !clash(rule.id)
    && CleanupServed(world) && StagesFaithfully(world, start.active, expected, rule)
  }

  /** The main phase gets its requests out, and answered, in time. */
  ghost predicate MainServed(world: World) {
    forall p {:trigger world(p)} :: !CleanupPhase(p) ==> world(p).sent && world(p).reply
  }

  /** The trial may begin: the baseline is answered in time, has no draft and no rule of our name. */
  predicate MayBegin(world: World, start: Remote, expected: map<string, Json>) {
    && world(ReadBaseline).sent && world(ReadBaseline).reply && Readable(start) && start.draft.None?
    && !NameTaken(start.active.policy.rules, expected)
  }

  /** Where a main phase can leave things, wherever it stops, when every mutation dispatched took effect. */
  ghost predicate Standing(r: Remote, pending: Option<Phase>, verified: Option<Rule>, trial: Option<Config>,
                           baseline: Config, staged: Config, rule: Rule) {
    && r.flight.None? && verified in {None, Some(rule)}
    && ( || (r.active == baseline && r.draft.None? && pending.None? && trial.None?)
         || (r.active == baseline && r.draft == Some(staged) && pending in {None, Some(Insert)} && trial.None?)
         || (r.active.policy == Policy(baseline.policy.key, staged.policy.rules, staged.policy.others) && r.draft.None?
             && pending in {None, Some(Activate)} && trial in {None, Some(r.active)}) )
  }

  /** Where a main phase leaves things when the provider dropped a mutation. */
  ghost predicate Stuck(r: Remote, pending: Option<Phase>, baseline: Config) {
    r.flight.None? && r.active == baseline && (pending == Some(Activate) || (pending == Some(Insert) && r.draft.None?))
  }

  /** Published unchanged, the recognised addition is recognised again. */
  lemma SameAddition(draft: Config, active: Config, baseline: Config, expected: map<string, Json>, rule: Rule)
    requires AddedRule(draft, baseline, expected, true) == Some(rule)
    requires active.policy == Policy(baseline.policy.key, draft.policy.rules, draft.policy.others)
    ensures AddedRule(active, baseline, expected, false) == Some(rule)
    ensures !PolicyMatches(active, baseline, false, active.policy.rules)
  {
    AddedRuleIsInsertion(draft, baseline, expected, true);
    OwningDiffers(active.policy, baseline, expected);
  }

  // ---- the runner

  /** What the main phase sends, in this order. */
  const MAIN_PHASES: seq<Phase> := [ReadBaseline, Insert, VerifyDraft, Activate, VerifyActive, Probe, Events]

  predicate Answered(world: World, p: Phase) { world(p).sent && world(p).reply }

  /** The whole main phase was sent, before anything else. */
  predicate Began(receipts: seq<Phase>) { MAIN_PHASES <= receipts }

  lemma BeganStays(receipts: seq<Phase>, p: Phase)
    requires Began(receipts)
    ensures Began(receipts + [p])
  {
  }

  lemma WholeMain(world: World, receipts: seq<Phase>)
    requires receipts == [ReadBaseline] + [Insert] + [VerifyDraft] + [Activate] + [VerifyActive] + [Probe] + [Events]
    requires Answered(world, ReadBaseline) && Answered(world, Insert) && Answered(world, VerifyDraft)
    requires Answered(world, Activate) && Answered(world, VerifyActive) && Answered(world, Probe)
      && Answered(world, Events)
    ensures Began(receipts) && MainServed(world)
  {
  }

  /** The baseline with the rule added was in force in one of these states. */
  ghost predicate WentLive(states: set<Remote>, baseline: Config, expected: map<string, Json>) {
    exists r :: r in states && Owns(r.active.policy, baseline, expected)
  }

  lemma LiveNow(r: Remote, states: set<Remote>, baseline: Config, expected: map<string, Json>)
    requires r in states && AddedRule(r.active, baseline, expected, false).Some?
    ensures WentLive(states, baseline, expected)
  {
    AddedRuleIsInsertion(r.active, baseline, expected, false);
  }

  lemma LiveBefore(before: set<Remote>, states: set<Remote>, baseline: Config, expected: map<string, Json>)
    requires WentLive(before, baseline, expected) && before <= states
    ensures WentLive(states, baseline, expected)
  {
    var r :| r in before && Owns(r.active.policy, baseline, expected);
    assert r in states;
  }

  const MAX_APP := 1
  const MAX_PROVIDER := 11
  const MAX_MAIN := 6
  const MAX_CLEANUP := 5
  const MAX_EVENTS := 1

  datatype Counts = Counts(app: nat, provider: nat, main: nat, cleanup: nat, events: nat)

  predicate Room(c: Counts, p: Phase, cleaning: bool) {
    if p == Probe then c.app < MAX_APP
    else c.provider < MAX_PROVIDER && (if cleaning then c.cleanup < MAX_CLEANUP else c.main < MAX_MAIN)
         && (p == Events ==> c.events < MAX_EVENTS)
  }

  predicate Capped(c: Counts) {
    c.app <= MAX_APP && c.provider <= MAX_PROVIDER && c.main <= MAX_MAIN && c.cleanup <= MAX_CLEANUP
      && c.events <= MAX_EVENTS
  }

  /** Counts within the budget. */
  type Budget = c: Counts | Capped(c) witness Counts(0, 0, 0, 0, 0)

  function One(b: bool): nat { if b then 1 else 0 }

  function Bump(c: Budget, p: Phase, cleaning: bool): Budget
    requires Room(c, p, cleaning)
  {
    if p == Probe then Counts(c.app + 1, c.provider, c.main, c.cleanup, c.events)
    else if cleaning then Counts(c.app, c.provider + 1, c.main, c.cleanup + 1, c.events + One(p == Events))
    else Counts(c.app, c.provider + 1, c.main + 1, c.cleanup, c.events + One(p == Events))
  }

  /** Failed stands for every failure of transport, time, cancellation or evidence. */
  datatype Code = RequestBudget | Failed | ProviderSchema | ExistingDraft | ConfigurationDrift | RuleIdentity
    | MutationUnresolved

  type Result<T> = Wrappers.Result<T, Code>

  datatype Snapshot = Snapshot(active: Config, draft: Option<Config>)

  predicate UniqueIds(rules: seq<Rule>) {
    forall i, j :: 0 <= i < j < |rules| ==> rules[i].id != rules[j].id
  }

  predicate Readable(r: Remote) {
    UniqueIds(r.active.policy.rules) && (r.draft.Some? ==> UniqueIds(r.draft.value.policy.rules))
  }

  predicate NameTaken(rules: seq<Rule>, expected: map<string, Json>) {
    "name" in expected &&
    exists i :: 0 <= i < |rules| && "name" in rules[i].fields && rules[i].fields["name"] == expected["name"]
  }

  class Trial {
    const world: World
    const expected: map<string, Json>
    /** A rule id that contains the token, or is contained in it. */
    const clash: string -> bool
    /** The provider as it is found. */
    ghost const start: Remote
    ghost const allowed: Policy -> bool
    /** With a provider that applies what it is sent, the rule it makes of ours. */
    ghost const ours: Option<Rule>
    var baseline: Option<Config>
    var remote: Remote
    /** Every state the provider has been in. */
    var states: set<Remote>
    var pending: Option<Phase>
    var used: set<Phase>
    var receipts: seq<Phase>
    var counts: Budget
    var cleaning: bool
    var armed: bool
    var activeTrial: Option<Config>
    var verifiedRule: Option<Rule>
    var restored: bool

    constructor (world: World, expected: map<string, Json>, clash: string -> bool, start: Remote,
                 ghost allowed: Policy -> bool, ghost ours: Option<Rule>)
      ensures this.world == world && this.expected == expected && this.clash == clash && this.start == start
      ensures this.allowed == allowed && this.ours == ours
      ensures remote == start && states == {start} && pending.None? && used == {} && receipts == [] && baseline.None?
      ensures counts == Counts(0, 0, 0, 0, 0) && !cleaning && !armed && activeTrial.None? && verifiedRule.None?
        && !restored
    {
      this.world, this.expected, this.clash := world, expected, clash;
      this.start, this.allowed, this.ours := start, allowed, ours;
      baseline := None;
      remote, states, pending, used, receipts := start, {start}, None, {}, [];
      counts, cleaning, armed, activeTrial, verifiedRule, restored := Counts(0, 0, 0, 0, 0), false, false, None, None,
        false;
    }

    ghost predicate Inv()
      reads `remote, `states, `pending, `armed, `baseline
    {
      && Fine(remote, allowed) && (armed ==> baseline == Some(start.active))
      && remote in states && (forall r {:trigger Fine(r, allowed)} :: r in states ==> Fine(r, allowed))
      && (remote.flight.Some? ==>
        pending.Some? && IsMutation(pending.value) && OpOf(pending.value) == remote.flight.value)
    }

    /** Only earlier phases have been tried. */
    ghost predicate Before(k: nat)
      reads `used
    {
      forall p :: p in used ==> Order(p) < k
    }

    /** It is this phase's turn, and the budget has room for it. */
    ghost predicate MaySend(phase: Phase)
      reads `used, `cleaning, `counts
    {
      Before(Order(phase)) && cleaning == CleanupPhase(phase) && Room(counts, phase, cleaning)
    }

    /** Whatever was dispatched so far took effect. */
    ghost predicate Landed()
      reads `receipts
    {
      AllTook(world, receipts)
    }

    /** The provider's own doing: a late mutation may take effect before the next request reaches it. */
    method Elapse(fate: Fate)
      requires Inv()
      modifies this`remote, this`states
      ensures Inv() && old(states) <= states
      ensures old(remote.flight).None? ==> remote == old(remote) && states == old(states)
    {
      if remote.flight.Some? && fate.commits {
        CommitIsFine(remote, remote.flight.value, fate.lateStaged, fate.lateMeta, allowed);
        remote := Commit(remote, remote.flight.value, fate.lateStaged, fate.lateMeta);
        states := states + {remote};
      }
    }

    /** request, up to the dispatch: the phase order, the deadlines and the budgets are checked. */
    method Admit(phase: Phase) returns (failure: Option<Code>)
      requires Inv()
      modifies this`remote, this`states, this`used
      ensures Inv() && old(states) <= states
      ensures old(remote.flight).None? ==> remote == old(remote) && states == old(states)
      ensures old(MaySend(phase)) ==>
        Before(Order(phase) + 1) && failure != Some(RequestBudget) && (failure.None? <==> world(phase).sent)
      ensures failure.None? ==> world(phase).sent && Room(counts, phase, cleaning)
    {
      if phase in used || cleaning != CleanupPhase(phase) {
        return Some(RequestBudget);
      }
      used := used + {phase};
      Elapse(world(phase));
      if !world(phase).sent {
        return Some(Failed);
      }
      if !Room(counts, phase, cleaning) {
        return Some(RequestBudget);
      }
      return None;
    }

    /** request, up to and including the dispatch. */
    method Send(phase: Phase) returns (failure: Option<Code>)
      requires Inv() && (IsMutation(phase) ==> pending.None?)
      modifies this`remote, this`states, this`pending, this`used, this`receipts, this`counts
      ensures Inv() && old(states) <= states
      ensures old(remote.flight).None? ==> remote == old(remote) && states == old(states)
      ensures old(MaySend(phase)) ==>
        Before(Order(phase) + 1) && failure != Some(RequestBudget) && (failure.None? <==> world(phase).sent)
      ensures failure.None? ==> world(phase).sent
      ensures pending == if failure.None? && IsMutation(phase) then Some(phase) else old(pending)
      ensures if failure.None? then Room(old(counts), phase, cleaning) && counts == Bump(old(counts), phase, cleaning)
              else counts == old(counts)
      ensures receipts == if failure.None? then old(receipts) + [phase] else old(receipts)
      ensures old(Began(receipts)) ==> Began(receipts)
    {
      hide Began;
      failure := Admit(phase);
      if failure.None? {
        counts := Bump(counts, phase, cleaning);
        if Began(receipts) {
          BeganStays(receipts, phase);
        }
        receipts := receipts + [phase];
        if IsMutation(phase) {
          pending := Some(phase);
        }
      }
    }

    /** A configuration read: the provider's state at that moment, refused when rule ids repeat. */
    method Read(phase: Phase) returns (r: Result<Snapshot>)
      requires Inv() && !IsMutation(phase)
      modifies this`remote, this`states, this`pending, this`used, this`receipts, this`counts
      ensures Inv() && old(states) <= states && pending == old(pending)
      ensures old(remote.flight).None? ==> remote == old(remote) && states == old(states)
      ensures Landed() == old(Landed())
      ensures r.Ok? ==> r.value == Snapshot(remote.active, remote.draft) && Readable(remote)
      ensures old(MaySend(phase)) ==>
        && Before(Order(phase) + 1) && r != Err(RequestBudget)
        && (r.Ok? <==> world(phase).sent && world(phase).reply && Readable(remote))
      ensures counts == old(counts)
        || (Room(old(counts), phase, cleaning) && counts == Bump(old(counts), phase, cleaning))
      ensures old(Began(receipts)) ==> Began(receipts)
      ensures r.Ok? ==> receipts == old(receipts) + [phase] && Answered(world, phase)
    {
      var failure := Send(phase);
      r := if failure.Some? then Err(failure.value)
           else if !world(phase).reply then Err(Failed)
           else if !Readable(remote) then Err(ProviderSchema)
           else Ok(Snapshot(remote.active, remote.draft));
    }

    /** One mutation, sent once: without a usable reply its effect stays open. */
    method Mutate(phase: Phase) returns (failure: Option<Code>)
      requires Inv() && IsMutation(phase) && pending.None?
      requires Sendable(remote, OpOf(phase), allowed)
      modifies this`remote, this`states, this`pending, this`used, this`receipts, this`counts
      ensures Inv() && old(states) <= states
      ensures pending in {None, Some(phase)} && (failure.None? ==> pending.None? && world(phase).reply)
      ensures if failure.Some? && pending.None? then remote == old(remote) && Landed() == old(Landed())
              else remote == Outcome(old(remote), OpOf(phase), world(phase))
                   && Landed() == (old(Landed()) && Took(world(phase)))
      ensures old(MaySend(phase)) ==>
        && Before(Order(phase) + 1) && failure != Some(RequestBudget)
        && (pending.None? && failure.Some? ==> !world(phase).sent)
        && (failure.None? <==> world(phase).sent && world(phase).reply)
      ensures counts == old(counts)
        || (Room(old(counts), phase, cleaning) && counts == Bump(old(counts), phase, cleaning))
      ensures old(Began(receipts)) ==> Began(receipts)
      ensures failure.None? ==> receipts == old(receipts) + [phase] && Answered(world, phase)
    {
      hide Began;
      failure := Send(phase);
      if failure.None? {
        OutcomeIsFine(remote, OpOf(phase), world(phase), allowed);
        remote := Outcome(remote, OpOf(phase), world(phase));
        states := states + {remote};
        if world(phase).reply {
          pending := None;
        } else {
          failure := Some(Failed);
        }
      }
    }

    /** Recognising the rule as ours, the same one every time. */
    method OwnRule(rule: Rule) returns (ok: bool)
      modifies this`verifiedRule
      ensures ok <==> MatchesRule(rule, expected) && old(verifiedRule) in {None, Some(rule)} && !clash(rule.id)
      ensures verifiedRule == if ok then Some(rule) else old(verifiedRule)
    {
      if !MatchesRule(rule, expected) || (verifiedRule.Some? && verifiedRule.value != rule) || clash(rule.id) {
        return false;
      }
      verifiedRule := Some(rule);
      return true;
    }

    /** The baseline: no draft, and no rule of our name. */
    method ReadStart() returns (failure: Option<Code>)
      requires Inv() && remote == start && start.flight.None? && pending.None? && !armed && !cleaning && used == {}
      requires counts == Counts(0, 0, 0, 0, 0) && receipts == []
      modifies this`remote, this`states, this`pending, this`used, this`receipts, this`counts, this`armed, this`baseline
      ensures Inv() && Landed() && states == old(states) && remote == start && pending.None? && Before(1)
      ensures failure.None? <==> armed
      ensures armed <==> MayBegin(world, start, expected)
      ensures failure != Some(RequestBudget)
      ensures counts.provider == counts.main <= 1 && counts.cleanup == counts.app == counts.events == 0
      ensures failure.None? ==> receipts == [ReadBaseline] && Answered(world, ReadBaseline)
    {
      var first := Read(ReadBaseline);
      if first.Err? {
        return Some(first.error);
      }
      if first.value.draft.Some? {
        return Some(ExistingDraft);
      }
      if NameTaken(first.value.active.policy.rules, expected) {
        return Some(RuleIdentity);
      }
      baseline, armed := Some(first.value.active), true;
      return None;
    }

    /** Reading back a draft that should be the baseline plus our rule. */
    method VerifyStaged() returns (failure: Option<Code>)
      requires Inv() && remote.flight.None? && pending.None? && armed && !cleaning && verifiedRule.None?
      requires Before(2) && counts.provider == counts.main < 6 && counts.cleanup == counts.app == counts.events == 0
      modifies this`remote, this`states, this`pending, this`used, this`receipts, this`counts, this`verifiedRule
      ensures Landed() == old(Landed())
      ensures Inv() && old(states) <= states && remote == old(remote) && pending.None?
      ensures Before(3) && failure != Some(RequestBudget)
      ensures counts.provider == counts.main <= old(counts.main) + 1
        && counts.cleanup == counts.app == counts.events == 0
      ensures failure.None? ==>
        && remote.active == start.active && remote.draft.Some? && verifiedRule.Some?
        && AddedRule(remote.draft.value, start.active, expected, true) == verifiedRule
      ensures verifiedRule.Some? ==>
        remote.draft.Some? && AddedRule(remote.draft.value, start.active, expected, true) == verifiedRule
      ensures Smooth() && remote.active == start.active && remote.draft == Some(world(Insert).staged) ==> failure.None?
      ensures failure.None? ==> receipts == old(receipts) + [VerifyDraft] && Answered(world, VerifyDraft)
    {
      var staged := Read(VerifyDraft);
      if staged.Err? {
        return Some(staged.error);
      }
      if staged.value.draft.None? || staged.value.active != baseline.value {
        return Some(ConfigurationDrift);
      }
      var rule := AddedRule(staged.value.draft.value, baseline.value, expected, true);
      if rule.None? {
        return Some(ConfigurationDrift);
      }
      var ok := OwnRule(rule.value);
      if !ok {
        return Some(RuleIdentity);
      }
      if !RequireChange(staged.value.draft.value, "rules.insert", rule.value, expected) {
        return Some(ConfigurationDrift);
      }
      return None;
    }

    /** Reading back what was published. */
    method VerifyLive() returns (failure: Option<Code>)
      requires Inv() && remote.flight.None? && pending.None? && armed && !cleaning && activeTrial.None?
      requires Before(4) && counts.provider == counts.main < 6 && counts.cleanup == counts.app == counts.events == 0
      modifies this`remote, this`states, this`pending, this`used, this`receipts, this`counts, this`verifiedRule,
               this`activeTrial
      ensures Landed() == old(Landed())
      ensures Inv() && old(states) <= states && remote == old(remote) && pending.None?
      ensures Before(5) && failure != Some(RequestBudget)
      ensures counts.provider == counts.main <= old(counts.main) + 1
        && counts.cleanup == counts.app == counts.events == 0
      ensures verifiedRule in {old(verifiedRule), AddedRule(remote.active, start.active, expected, false)}
      ensures activeTrial in {None, Some(remote.active)}
      ensures failure.None? ==> activeTrial.Some? && remote.draft.None?
      ensures
        (Smooth() && remote.draft.None? && UniqueIds(remote.active.policy.rules) && old(verifiedRule) in {None, ours}
         && AddedRule(remote.active, start.active, expected, false) == ours) ==> failure.None?
      ensures failure.None? ==> receipts == old(receipts) + [VerifyActive] && Answered(world, VerifyActive)
      ensures failure.None? ==> WentLive(states, start.active, expected)
    {
      hide Began;
      var active := Read(VerifyActive);
      if active.Err? {
        return Some(active.error);
      }
      if active.value.draft.Some? {
        return Some(ConfigurationDrift);
      }
      var rule := AddedRule(active.value.active, baseline.value, expected, false);
      if rule.None? {
        return Some(ConfigurationDrift);
      }
      var ok := OwnRule(rule.value);
      if !ok {
        return Some(RuleIdentity);
      }
      activeTrial := Some(active.value.active);
      LiveNow(remote, states, start.active, expected);
      return None;
    }

    /** The probe, the settling interval and the one event lookup. */
    method Observe() returns (failure: Option<Code>)
      requires Inv() && remote.flight.None? && pending.None? && !cleaning && Before(5)
      requires counts.provider == counts.main < 6 && counts.cleanup == counts.app == counts.events == 0
      modifies this`remote, this`states, this`pending, this`used, this`receipts, this`counts
      ensures Landed() == old(Landed())
      ensures Inv() && old(states) <= states && remote == old(remote) && pending.None?
      ensures Before(7) && failure != Some(RequestBudget)
      ensures counts.provider == counts.main <= old(counts.main) + 1 && counts.cleanup == 0
      ensures counts.app <= 1 && counts.events <= 1
      ensures MainServed(world) ==> failure.None?
      ensures failure.None? ==>
        receipts == old(receipts) + [Probe] + [Events] && Answered(world, Probe) && Answered(world, Events)
    {
      hide Began;
      failure := Send(Probe);
      if failure.None? && !world(Probe).reply {
        failure := Some(Failed);
      }
      if failure.None? {
        failure := Send(Events);
        if failure.None? && !world(Events).reply {
          failure := Some(Failed);
        }
      }
    }

    /** A provider that serves cleanup also answers the main phase. */
    ghost predicate Smooth() {
      ours.Some? && Served(world, start, expected, clash, ours.value) && MainServed(world)
    }

    /** What the main phase needs of such a provider. */
    ghost predicate Helped() {
      ours.Some? ==> AddedRule(world(Insert).staged, start.active, expected, true) == ours
    }

    ghost predicate Stands()
      reads `remote, `pending, `verifiedRule, `activeTrial, `armed, `receipts
    {
      armed ==>
        if Landed() then
          ours.Some? ==>
            Standing(remote, pending, verifiedRule, activeTrial, start.active, world(Insert).staged, ours.value)
        else Prompt(world) ==> Stuck(remote, pending, start.active)
    }

    /** Staging the rule and verifying what was staged. */
    method StageRule() returns (failure: Option<Code>)
      requires Inv() && remote == start && start.flight.None? && start.draft.None? && pending.None? && armed
        && !cleaning
      requires Helped() && Landed() && Before(1) && verifiedRule.None? && activeTrial.None?
      requires counts.provider == counts.main <= 1 && counts.cleanup == counts.app == counts.events == 0
      modifies this`remote, this`states, this`pending, this`used, this`receipts, this`counts, this`verifiedRule
      ensures Inv() && old(states) <= states && Before(3)
      ensures failure != Some(RequestBudget) && Stands()
      ensures counts.provider == counts.main <= 3 && counts.cleanup == counts.app == counts.events == 0
      ensures failure.None? ==>
        && Landed() && pending.None? && remote.flight.None? && remote.active == start.active && remote.draft.Some?
        && AddedRule(remote.draft.value, start.active, expected, true).Some?
        && (ours.Some? ==> remote.draft == Some(world(Insert).staged))
      ensures world(Insert).sent && !Took(world(Insert)) ==>
        failure.Some? && !Landed() && (Prompt(world) ==> remote == start && pending == Some(Insert))
      ensures Smooth() ==> failure.None?
      ensures failure.None? ==>
        receipts == old(receipts) + [Insert] + [VerifyDraft] && Answered(world, Insert) && Answered(world, VerifyDraft)
    {
      failure := Mutate(Insert);
      if failure.None? {
        failure := VerifyStaged();
      }
    }

    /** Publishing the verified draft and verifying what was published. */
    method GoLive() returns (failure: Option<Code>)
      requires Inv() && remote.flight.None? && pending.None? && armed && !cleaning && activeTrial.None?
      requires Admits(allowed, start.active, expected) && remote.active == start.active && remote.draft.Some?
      requires AddedRule(remote.draft.value, start.active, expected, true).Some?
      requires Helped() && (ours.Some? ==> remote.draft == Some(world(Insert).staged))
      requires Before(3) && Landed() && Stands()
      requires counts.provider == counts.main <= 3 && counts.cleanup == counts.app == counts.events == 0
      modifies this`remote, this`states, this`pending, this`used, this`receipts, this`counts, this`verifiedRule,
               this`activeTrial
      ensures Inv() && old(states) <= states && Before(5)
      ensures failure != Some(RequestBudget) && Stands()
      ensures counts.provider == counts.main <= 5 && counts.cleanup == counts.app == counts.events == 0
      ensures failure.None? ==> pending.None? && remote.flight.None?
      ensures Smooth() ==> failure.None?
      ensures failure.None? ==>
        && receipts == old(receipts) + [Activate] + [VerifyActive] && Answered(world, Activate)
        && Answered(world, VerifyActive)
        && WentLive(states, start.active, expected)
    {
      ghost var before := remote;
      DraftPublishes(remote.active, remote.draft.value, start.active, expected, allowed);
      failure := Mutate(Activate);
      if ours.Some? {
        SameAddition(before.draft.value, Commit(before, Publish, world(Activate).staged, world(Activate).meta).active,
                     start.active, expected, ours.value);
      }
      if failure.None? {
        failure := VerifyLive();
      }
    }

    /** The live part of the trial. */
    method LiveTrial() returns (failure: Option<Code>)
      requires Inv() && remote.flight.None? && pending.None? && armed && !cleaning && activeTrial.None?
      requires Admits(allowed, start.active, expected) && remote.active == start.active && remote.draft.Some?
      requires AddedRule(remote.draft.value, start.active, expected, true).Some?
      requires Helped() && (ours.Some? ==> remote.draft == Some(world(Insert).staged))
      requires Before(3) && Landed() && Stands()
      requires counts.provider == counts.main <= 3 && counts.cleanup == counts.app == counts.events == 0
      modifies this`remote, this`states, this`pending, this`used, this`receipts, this`counts, this`verifiedRule,
               this`activeTrial
      ensures Inv() && old(states) <= states
      ensures failure != Some(RequestBudget) && Before(7) && Stands()
      ensures counts.provider == counts.main <= 6 && counts.cleanup == 0 && counts.app <= 1 && counts.events <= 1
      ensures Smooth() ==> failure.None?
      ensures failure.None? ==>
        && receipts == old(receipts) + [Activate] + [VerifyActive] + [Probe] + [Events]
        && Answered(world, Activate) && Answered(world, VerifyActive) && Answered(world, Probe)
        && Answered(world, Events)
        && WentLive(states, start.active, expected)
    {
      hide WentLive;
      failure := GoLive();
      if failure.None? {
        ghost var before := states;
        failure := Observe();
        LiveBefore(before, states, start.active, expected);
      }
    }

    /** The main phase. Its six provider calls never meet the budget guard. Wherever it stops, either every mutation
        took effect and cleanup can tell how far it got, or one was dropped and stays outstanding. */
    method TrialPhase() returns (failure: Option<Code>)
      requires Inv() && remote == start && start.flight.None? && pending.None? && !armed && !cleaning && used == {}
      requires counts == Counts(0, 0, 0, 0, 0) && receipts == [] && verifiedRule.None? && activeTrial.None?
      requires Admits(allowed, start.active, expected) && Helped()
      modifies this
      ensures Inv() && old(states) <= states && !cleaning && restored == old(restored)
      ensures failure != Some(RequestBudget) && Before(7) && Stands()
      ensures counts.provider == counts.main <= 6 && counts.cleanup == 0 && counts.app <= 1 && counts.events <= 1
      ensures armed <==> MayBegin(world, start, expected)
      ensures armed && world(Insert).sent && !Took(world(Insert)) && Prompt(world) ==>
        remote == start && pending == Some(Insert)
      ensures Smooth() && armed ==> failure.None?
      ensures !armed ==> remote == start && states == old(states) && pending.None? && failure.Some?
      ensures failure.None? ==> Began(receipts) && MainServed(world) && WentLive(states, start.active, expected)
    {
      hide Inv, AllTook, Standing, Stuck, Admits, Served, MainServed, WentLive, Answered, Began;
      failure := ReadStart();
      if failure.None? {
        failure := StageRule();
        if failure.None? {
          failure := LiveTrial();
          if failure.None? {
            WholeMain(world, receipts);
          }
        }
      }
    }

    /** Whether the draft is ours; if so the insertion is settled, for a draft exists. */
    method RecogniseDraft(current: Snapshot) returns (failure: Option<Code>)
      requires Inv() && armed && current == Snapshot(remote.active, remote.draft) && current.draft.Some?
      requires pending in {None, Some(Insert)}
      modifies this`pending, this`verifiedRule
      ensures Inv() && failure != Some(RequestBudget)
      ensures failure.None? ==> pending.None? && remote.flight.None? && remote.active == start.active
      ensures
        var rule := AddedRule(current.draft.value, start.active, expected, true);
        (remote.active == start.active && rule.Some? && !clash(rule.value.id) && old(verifiedRule) in {None, rule}
         && RequireChange(current.draft.value, "rules.insert", rule.value, expected)) ==> failure.None?
    {
      if current.active != baseline.value {
        return Some(ConfigurationDrift);
      }
      var rule := AddedRule(current.draft.value, baseline.value, expected, true);
      if rule.None? {
        return Some(ConfigurationDrift);
      }
      var ok := OwnRule(rule.value);
      if !ok {
        return Some(RuleIdentity);
      }
      if !RequireChange(current.draft.value, "rules.insert", rule.value, expected) {
        return Some(ConfigurationDrift);
      }
      pending := None;
      return None;
    }

    /** Reading back that the draft is gone. */
    method VerifyDropped() returns (failure: Option<Code>)
      requires Inv() && armed && cleaning && pending in {None, Some(Discard)} && Before(9)
      requires counts.cleanup <= 2 && counts.provider <= 8
      modifies this`remote, this`states, this`pending, this`used, this`receipts, this`counts
      ensures Inv() && old(states) <= states && failure != Some(RequestBudget)
      ensures Landed() == old(Landed()) && (old(remote.flight).None? ==> remote == old(remote))
      ensures failure.None? ==>
        remote.draft.None? && remote.flight.None? && pending.None? && remote.active.policy == start.active.policy
      ensures
        (CleanupServed(world) && old(remote.flight.None? && remote.draft.None? && Readable(remote))
         && old(remote.active) == start.active) ==> failure.None?
      ensures old(Began(receipts)) ==> Began(receipts)
    {
      var last := Read(VerifyDiscard);
      failure := if last.Err? then Some(last.error)
                 else if last.value.draft.Some? || last.value.active != baseline.value then Some(ConfigurationDrift)
                 else None;
      if failure.None? {
        pending := None;
      }
    }

    /** Dropping the owned draft; only the final read decides. */
    method DropDraft() returns (failure: Option<Code>)
      requires Inv() && armed && cleaning && pending.None? && remote.flight.None? && remote.draft.Some?
      requires remote.active == start.active
      requires Before(8) && counts.cleanup <= 1 && counts.provider <= 7
      modifies this`remote, this`states, this`pending, this`used, this`receipts, this`counts
      ensures Inv() && old(states) <= states && failure != Some(RequestBudget)
      ensures failure.None? ==>
        remote.draft.None? && remote.flight.None? && pending.None? && remote.active.policy == start.active.policy
      ensures (Landed() ==> old(Landed())) && (Prompt(world) && old(Landed()) && failure.None? ==> Landed())
      ensures UniqueIds(start.active.policy.rules) && CleanupServed(world) && Landed() ==> failure.None?
      ensures old(Began(receipts)) ==> Began(receipts)
    {
      var ignored := Mutate(Discard);
      failure := VerifyDropped();
    }

    /** Whether what is published is the baseline plus our rule; if so nothing is outstanding, for no draft exists. */
    method RecogniseActive(current: Snapshot) returns (failure: Option<Code>, owned: Option<Rule>)
      requires Inv() && armed && current == Snapshot(remote.active, remote.draft)
      modifies this`pending, this`verifiedRule
      ensures Inv() && failure != Some(RequestBudget)
      ensures failure.None? ==>
        && pending.None? && remote.flight.None? && remote.draft.None?
        && owned.Some? && owned == AddedRule(remote.active, start.active, expected, false)
      ensures
        var rule := AddedRule(remote.active, start.active, expected, false);
        (remote.draft.None? && old(pending) in {None, Some(Activate)} && rule.Some? && !clash(rule.value.id)
         && old(verifiedRule) in {None, rule} && activeTrial in {None, Some(remote.active)}) ==> failure.None?
    {
      owned := None;
      if current.draft.Some? {
        return Some(ConfigurationDrift), None;
      }
      if pending.Some? && pending.value != Activate {
        return Some(MutationUnresolved), None;
      }
      owned := AddedRule(current.active, baseline.value, expected, false);
      if owned.None? {
        return Some(ConfigurationDrift), None;
      }
      var ok := OwnRule(owned.value);
      if !ok {
        return Some(RuleIdentity), None;
      }
      if activeTrial.Some? && current.active != activeTrial.value {
        return Some(ConfigurationDrift), None;
      }
      pending := None;
      failure := None;
    }

    /** Staging the removal and reading it back. */
    method StageRemoval(current: Snapshot, rule: Rule) returns (failure: Option<Code>)
      requires Inv() && armed && cleaning && pending.None? && remote.flight.None? && remote.draft.None?
      requires current.active == remote.active
      requires Before(8) && counts.cleanup <= 1 && counts.provider <= 7
      modifies this`remote, this`states, this`pending, this`used, this`receipts, this`counts
      ensures Inv() && old(states) <= states && failure != Some(RequestBudget)
      ensures Before(10)
      ensures counts.cleanup <= old(counts.cleanup) + 2 && counts.provider <= old(counts.provider) + 2
      ensures failure.None? ==>
        && pending.None? && remote.flight.None? && remote.active == old(remote.active) && remote.draft.Some?
        && PolicyMatches(remote.draft.value, start.active, true, remote.draft.value.policy.rules)
      ensures (Landed() ==> old(Landed())) && (Prompt(world) && old(Landed()) && failure.None? ==> Landed())
      ensures UniqueIds(old(remote.active).policy.rules) && Unstages(rule) && Landed() ==> failure.None?
      ensures old(Began(receipts)) ==> Began(receipts)
    {
      var ignored := Mutate(Remove);
      if Unstages(rule) && Landed() {
        assert remote == Remote(current.active, Some(world(Remove).staged), None);
      }
      failure := VerifyRemoved(current, rule);
    }

    method VerifyRemoved(current: Snapshot, rule: Rule) returns (failure: Option<Code>)
      requires Inv() && armed && cleaning && pending in {None, Some(Remove)}
      requires Before(9) && counts.cleanup <= 2 && counts.provider <= 8
      modifies this`remote, this`states, this`pending, this`used, this`receipts, this`counts
      ensures Inv() && old(states) <= states && failure != Some(RequestBudget) && Before(10)
      ensures counts.cleanup <= old(counts.cleanup) + 1 && counts.provider <= old(counts.provider) + 1
      ensures Landed() == old(Landed()) && (old(remote.flight).None? ==> remote == old(remote))
      ensures failure.None? ==>
        && pending.None? && remote.flight.None? && remote.active == current.active && remote.draft.Some?
        && PolicyMatches(remote.draft.value, start.active, true, remote.draft.value.policy.rules)
      ensures
        (UniqueIds(current.active.policy.rules) && Unstages(rule)
         && old(remote) == Remote(current.active, Some(world(Remove).staged), None)) ==> failure.None?
      ensures old(Began(receipts)) ==> Began(receipts)
    {
      var staged := Read(VerifyRemoval);
      failure := if staged.Err? then Some(staged.error)
                 else if staged.value.draft.None? || staged.value.active != current.active
                      || !PolicyMatches(staged.value.draft.value, baseline.value, true,
                        staged.value.draft.value.policy.rules)
                 then Some(ConfigurationDrift)
                 else if !RequireChange(staged.value.draft.value, "rules.remove", rule, expected)
                 then Some(ConfigurationDrift)
                 else None;
      if failure.None? {
        pending := None;
      }
    }

    /** Reading back that the baseline is in force. */
    method VerifyRestored() returns (failure: Option<Code>)
      requires Inv() && armed && cleaning && pending in {None, Some(ActivateRemoval)} && Before(11)
      requires counts.cleanup <= 4 && counts.provider <= 10
      modifies this`remote, this`states, this`pending, this`used, this`receipts, this`counts
      ensures Inv() && old(states) <= states && failure != Some(RequestBudget)
      ensures Landed() == old(Landed()) && (old(remote.flight).None? ==> remote == old(remote))
      ensures failure.None? ==>
        remote.draft.None? && remote.flight.None? && pending.None? && remote.active.policy == start.active.policy
      ensures
        (CleanupServed(world) && old(remote.flight.None? && remote.draft.None? && Readable(remote))
         && old(remote.active).policy == start.active.policy) ==> failure.None?
      ensures old(Began(receipts)) ==> Began(receipts)
    {
      var last := Read(VerifyRestoration);
      failure := if last.Err? then Some(last.error)
                 else if last.value.draft.Some?
                      || !PolicyMatches(last.value.active, baseline.value, false, last.value.active.policy.rules)
                 then Some(ConfigurationDrift)
                 else None;
      if failure.None? {
        pending := None;
      }
    }

    /** Publishing the verified removal; only the final read establishes restoration. */
    method PublishRemoval() returns (failure: Option<Code>)
      requires Inv() && armed && cleaning && pending.None? && remote.flight.None? && remote.draft.Some?
      requires allowed(PublishedPolicy(remote.active, remote.draft.value))
      requires remote.active.policy.key == start.active.policy.key
      requires Before(10) && counts.cleanup <= 3 && counts.provider <= 9
      modifies this`remote, this`states, this`pending, this`used, this`receipts, this`counts
      ensures Inv() && old(states) <= states && failure != Some(RequestBudget)
      ensures failure.None? ==>
        remote.draft.None? && remote.flight.None? && pending.None? && remote.active.policy == start.active.policy
      ensures (Landed() ==> old(Landed())) && (Prompt(world) && old(Landed()) && failure.None? ==> Landed())
      ensures
        (CleanupServed(world) && Landed() && UniqueIds(old(remote.draft).value.policy.rules)
         && PublishedPolicy(old(remote).active, old(remote).draft.value) == start.active.policy) ==> failure.None?
      ensures old(Began(receipts)) ==> Began(receipts)
    {
      ghost var before := remote;
      var ignored := Mutate(ActivateRemoval);
      if CleanupServed(world) && Landed() {
        assert remote.active.policy == PublishedPolicy(before.active, before.draft.value);
      }
      failure := VerifyRestored();
    }

    /** Cleanup of a trial that went live. */
    method CleanLive(current: Snapshot) returns (failure: Option<Code>)
      requires Inv() && armed && cleaning && current == Snapshot(remote.active, remote.draft)
      requires Admits(allowed, start.active, expected) && Before(8) && counts.cleanup <= 1 && counts.provider <= 7
      modifies this`remote, this`states, this`pending, this`used, this`receipts, this`counts, this`verifiedRule
      ensures Inv() && old(states) <= states && failure != Some(RequestBudget)
      ensures failure.None? ==>
        remote.draft.None? && remote.flight.None? && pending.None? && remote.active.policy == start.active.policy
      ensures (Landed() ==> old(Landed())) && (Prompt(world) && old(Landed()) && failure.None? ==> Landed())
      ensures
        var rule := AddedRule(old(remote).active, start.active, expected, false);
        (old(remote).draft.None? && old(pending) in {None, Some(Activate)} && rule.Some? && !clash(rule.value.id)
         && old(verifiedRule) in {None, rule} && activeTrial in {None, Some(old(remote).active)}
         && UniqueIds(old(remote).active.policy.rules) && Unstages(rule.value) && Landed()) ==> failure.None?
      ensures old(Began(receipts)) ==> Began(receipts)
    {
      var rule;
      failure, rule := RecogniseActive(current);
      if failure.None? {
        failure := StageRemoval(current, rule.value);
        if failure.None? {
          RemovalPublishes(remote.active, remote.draft.value, start.active, expected, allowed);
          failure := PublishRemoval();
        }
      }
    }

    /** A provider that serves cleanup, and stages the removal it was asked for. */
    ghost predicate Unstages(rule: Rule) {
      var staged := world(Remove).staged;
      && CleanupServed(world) && UniqueIds(start.active.policy.rules)
      && PolicyMatches(staged, start.active, true, staged.policy.rules)
      && RequireChange(staged, "rules.remove", rule, expected)
    }

    /** Cleanup of a trial whose active policy is the baseline's. */
    method CleanStaged(current: Snapshot) returns (failure: Option<Code>)
      requires Inv() && armed && cleaning && current == Snapshot(remote.active, remote.draft)
      requires PolicyMatches(current.active, start.active, false, current.active.policy.rules)
      requires Before(8) && counts.cleanup <= 1 && counts.provider <= 7
      modifies this`remote, this`states, this`pending, this`used, this`receipts, this`counts, this`verifiedRule
      ensures Inv() && old(states) <= states && failure != Some(RequestBudget)
      ensures failure.None? ==>
        remote.draft.None? && remote.flight.None? && pending.None? && remote.active.policy == start.active.policy
      ensures (Landed() ==> old(Landed())) && (Prompt(world) && old(Landed()) && failure.None? ==> Landed())
      ensures Stuck(old(remote), old(pending), start.active) ==> failure == Some(MutationUnresolved)
      ensures old(pending).None? && current.draft.None? ==> failure.None?
      ensures current.draft.Some? ==>
        var rule := AddedRule(current.draft.value, start.active, expected, true);
        (old(pending) in {None, Some(Insert)} && current.active == start.active && rule.Some? && !clash(rule.value.id)
         && old(verifiedRule) in {None, rule}
         && RequireChange(current.draft.value, "rules.insert", rule.value, expected)
         && UniqueIds(start.active.policy.rules) && CleanupServed(world) && Landed()) ==> failure.None?
      ensures old(Began(receipts)) ==> Began(receipts)
    {
      if pending.Some? && (current.draft.None? || pending.value != Insert) {
        return Some(MutationUnresolved);
      }
      if current.draft.None? {
        return None;
      }
      failure := RecogniseDraft(current);
      if failure.None? {
        failure := DropDraft();
      }
    }

    /** What cleanup can undo, as far as it can read it, with a provider that serves it. */
    ghost predicate Resolvable(current: Snapshot, pending: Option<Phase>, verified: Option<Rule>,
                               trial: Option<Config>) {
      if PolicyMatches(current.active, start.active, false, current.active.policy.rules) then
        (current.draft.None? && pending.None?)
        || (var rule :=
              if current.draft.Some? then AddedRule(current.draft.value, start.active, expected, true) else None;
            && pending in {None, Some(Insert)} && current.active == start.active && rule.Some? && !clash(rule.value.id)
            && verified in {None, rule} && RequireChange(current.draft.value, "rules.insert", rule.value, expected)
            && UniqueIds(start.active.policy.rules) && CleanupServed(world))
      else
        var rule := AddedRule(current.active, start.active, expected, false);
        && current.draft.None? && pending in {None, Some(Activate)} && rule.Some? && !clash(rule.value.id)
        && verified in {None, rule} && trial in {None, Some(current.active)}
        && UniqueIds(current.active.policy.rules) && Unstages(rule.value)
    }

    /** Cleanup's first read will come back as things are now. */
    ghost predicate Answerable()
      reads `remote
    {
      Readable(remote) && remote.flight.None? && world(InspectCleanup).sent && world(InspectCleanup).reply
    }

    /** Cleanup can undo whatever the main phase has done. */
    ghost predicate Undoable()
      reads `remote, `pending, `verifiedRule, `activeTrial
    {
      Answerable() && Resolvable(Snapshot(remote.active, remote.draft), pending, verifiedRule, activeTrial)
    }

    /** The three places the main phase can leave things are told apart by what cleanup reads. */
    lemma Distinguishable(rule: Rule)
      requires Standing(remote, pending, verifiedRule, activeTrial, start.active, world(Insert).staged, rule)
      requires Served(world, start, expected, clash, rule)
      ensures Undoable()
    {
      var staged := world(Insert).staged;
      if remote.active.policy == Policy(start.active.policy.key, staged.policy.rules, staged.policy.others) {
        SameAddition(staged, remote.active, start.active, expected, rule);
      }
    }

    /** The two branches of cleanup, on what was read. */
    method Reconcile(current: Snapshot) returns (failure: Option<Code>)
      requires Inv() && armed && cleaning && current == Snapshot(remote.active, remote.draft)
      requires Admits(allowed, start.active, expected) && counts.cleanup <= 1 && counts.provider <= 7
      requires Before(8)
      modifies this`remote, this`states, this`pending, this`used, this`receipts, this`counts, this`verifiedRule
      ensures Inv() && old(states) <= states && failure != Some(RequestBudget)
      ensures failure.None? ==>
        remote.draft.None? && remote.flight.None? && pending.None? && remote.active.policy == start.active.policy
      ensures (Landed() ==> old(Landed())) && (Prompt(world) && old(Landed()) && failure.None? ==> Landed())
      ensures Stuck(old(remote), old(pending), start.active) ==> failure == Some(MutationUnresolved)
      ensures Resolvable(current, old(pending), old(verifiedRule), activeTrial) && Landed() ==> failure.None?
      ensures old(Began(receipts)) ==> Began(receipts)
    {
      if PolicyMatches(current.active, baseline.value, false, current.active.policy.rules) {
        failure := CleanStaged(current);
      } else {
        failure := CleanLive(current);
      }
    }

    /** Cleanup's first read. */
    method Inspect() returns (current: Result<Snapshot>)
      requires Inv() && !cleaning && Before(7) && counts.provider == counts.main <= 6 && counts.cleanup == 0
      modifies this`remote, this`states, this`pending, this`used, this`receipts, this`counts, this`cleaning
      ensures Inv() && old(states) <= states && cleaning && Before(8) && counts.cleanup <= 1 && counts.provider <= 7
      ensures Landed() == old(Landed()) && pending == old(pending)
      ensures old(remote.flight).None? ==> remote == old(remote)
      ensures if current.Ok? then current.value == Snapshot(remote.active, remote.draft)
        else current != Err(RequestBudget)
      ensures old(Answerable()) ==> current.Ok?
      ensures old(Began(receipts)) ==> Began(receipts)
    {
      cleaning := true;
      current := Read(InspectCleanup);
    }

    /** cleanup: at most five provider calls, and restoration is claimed only when the baseline policy is in
        force, no draft is left and no mutation is outstanding. Against a provider that serves it and applies what it
        is sent, cleanup restores the baseline from wherever the main phase stopped; a mutation dropped by a provider
        that commits nothing late always keeps it from claiming so. */
    method Cleanup() returns (failure: Option<Code>)
      requires Inv() && armed && !cleaning && !restored && Before(7) && Admits(allowed, start.active, expected)
      requires counts.provider == counts.main <= 6 && counts.cleanup == 0
      modifies this
      ensures Inv() && old(states) <= states && failure != Some(RequestBudget) && (restored <==> failure.None?)
      ensures restored ==>
        remote.draft.None? && remote.flight.None? && pending.None? && remote.active.policy == start.active.policy
      ensures (Landed() ==> old(Landed())) && (Prompt(world) && old(Landed()) && restored ==> Landed())
      ensures Stuck(old(remote), old(pending), start.active) ==>
        !restored && (old(Answerable()) ==> failure == Some(MutationUnresolved))
      ensures old(Undoable()) && Landed() ==> restored
      ensures old(Began(receipts)) ==> Began(receipts)
    {
      hide Inv, AllTook, Resolvable, Admits, Began;
      var current := Inspect();
      if current.Err? {
        failure := Some(current.error);
      } else {
        failure := Reconcile(current.value);
        restored := failure.None?;
      }
    }
  }

  // ---- whole runs

  /** How a run ends: what the report says, whether its last write failed, and every state the provider was in. */
  datatype Report = Report(completed: bool, evidenceFailed: bool, armed: bool, restorationVerified: bool,
                           failure: Option<Code>, cleanupFailure: Option<Code>, counts: Counts,
                           receipts: seq<Phase>, pending: Option<Phase>, final: Remote, states: set<Remote>)

  /** runReceipt. Whatever is lost, dropped or committed late, every state the provider passes through, and every
      state a late commit may still bring about, has in force the baseline or the baseline plus exactly one owned
      rule; restorationVerified means the baseline policy, no draft and nothing outstanding; the budget guard never
      fires. When nothing commits late, a restored trial has lost no mutation; when cleanup is served, an armed trial
      that has lost none ends restored, and completes if the main phase is answered too and the report could be written
      at the end, which `saves` says. */
  method RunReceipt(world: World, expected: map<string, Json>, clash: string -> bool, start: Remote, saves: bool,
                    ghost rule: Rule) returns (report: Report)
    requires start.flight.None?
    ensures start in report.states && report.final in report.states
    ensures forall r :: r in report.states ==> Allowed(r.active.policy, start.active, expected)
    ensures forall r, staged, meta :: r in report.states && r.flight.Some? ==>
      Allowed(Commit(r, r.flight.value, staged, meta).active.policy, start.active, expected)
    ensures report.restorationVerified ==>
      && report.final.active.policy == start.active.policy && report.final.draft.None?
      && report.final.flight.None? && report.pending.None?
    ensures report.counts.main <= MAX_MAIN && report.counts.cleanup <= MAX_CLEANUP
    ensures report.counts.provider <= MAX_PROVIDER && report.counts.app <= MAX_APP && report.counts.events <= MAX_EVENTS
    ensures report.failure != Some(RequestBudget) && report.cleanupFailure != Some(RequestBudget)
    ensures report.evidenceFailed <==> !saves
    ensures report.completed <==> report.failure.None? && report.restorationVerified && !report.evidenceFailed
    ensures report.completed ==>
      && report.restorationVerified && Began(report.receipts) && MainServed(world)
      && WentLive(report.states, start.active, expected)
    ensures !report.armed ==> report.states == {start}
    ensures report.armed <==> MayBegin(world, start, expected)
    ensures Prompt(world) && report.restorationVerified ==> AllTook(world, report.receipts)
    ensures Served(world, start, expected, clash, rule) && report.armed && AllTook(world, report.receipts)
            ==> report.restorationVerified
    ensures Served(world, start, expected, clash, rule) && report.armed && MainServed(world)
            ==> (report.completed <==> report.restorationVerified && saves)
    ensures Prompt(world) && CleanupServed(world) && report.armed && world(Insert).sent && !Took(world(Insert))
            ==> !report.restorationVerified && report.cleanupFailure == Some(MutationUnresolved)
  {
    hide Began, WentLive, MainServed;
    ghost var allowed := (p: Policy) => Allowed(p, start.active, expected);
    ghost var ours := if Served(world, start, expected, clash, rule) then Some(rule) else None;
    var trial := new Trial(world, expected, clash, start, allowed, ours);
    var failure := trial.TrialPhase();
    var cleanupFailure: Option<Code> := None;
    var armed := trial.armed;
    if armed {
      if ours.Some? && trial.Landed() {
        trial.Distinguishable(rule);
      }
      ghost var before := trial.states;
      cleanupFailure := trial.Cleanup();
      if failure.None? {
        LiveBefore(before, trial.states, start.active, expected);
      }
    }
    var completed := failure.None? && trial.restored;
    report := Report(completed && saves, !saves, armed, trial.restored, failure, cleanupFailure, trial.counts,
                     trial.receipts, trial.pending, trial.remote, trial.states);
    forall r | r in report.states
      ensures Allowed(r.active.policy, start.active, expected)
    {
      assert Fine(r, allowed);
    }
    forall r, staged, meta | r in report.states && r.flight.Some?
      ensures Allowed(Commit(r, r.flight.value, staged, meta).active.policy, start.active, expected)
    {
      assert Fine(r, allowed);
      CommitIsFine(r, r.flight.value, staged, meta, allowed);
    }
  }

  /** A run that ends unresolved, and not because of anything that cleanup could not do: the provider answers
      everything and commits nothing late, but has lost the insertion. */
  method LostInsertion() returns (report: Report)
    ensures report.armed && !report.restorationVerified && report.cleanupFailure == Some(MutationUnresolved)
  {
    var meta := Meta("", 0, "", []);
    var config := Config(meta, Policy("", [], map[]));
    var answered := Fate(true, true, Immediate, config, meta, false, config, meta);
    var world := (p: Phase) => if p.Insert? then answered.(reply := false, effect := Never) else answered;
    report := RunReceipt(world, map[], (id: string) => false, Remote(config, None, None), true,
                         Rule("", map[]));
  }
}
