/** runTopology and createOfflineFixture of scripts/gate1-redis-topology-http.js: four workers over two targets,
    in any interleaving, against any environment and against the offline rolling allowance. */
module Topology {
  import opened Wrappers

  datatype Phase = BuildBefore | Preflight | Load | Reject | Recovery | BuildAfter

  predicate IsBuild(p: Phase) { p.BuildBefore? || p.BuildAfter? }

  datatype Code = Configuration | Cancelled | OverallDeadline | BoundaryDeadline | QuietPeriod | RequestBudget
    | BadResponse

  const TARGETS := 2
  const MAX_REQUESTS := 410
  const PER_TARGET := 200
  const CONCURRENCY := 4
  const QUIET_MS := 64000
  const BOUNDARY_MS := 45000
  const OVERALL_MS := 300000

  // ---- the environment

  /** What comes back: the build page, an accepted or a rejected session, or anything else. */
  datatype Answer = Page | Accepted | Rejected | Broken

  /** The rolling allowance of the offline fixture; a real environment may also keep anything on its tape. */
  datatype World = World(timestamp: int, lastAllowed: Option<int>, allowed: nat, tape: int)

  /** Clock readings (None when not finite), sleeping, serving a request, cancellation from outside, and what a
      timer or a listener may latch while something is awaited. */
  datatype Environment = Environment(now: World -> Option<int>, tick: World -> World, sleep: (World, int) -> World,
                                     serve: (World, bool) -> (World, Answer), interrupted: World -> bool,
                                     fires: World -> Option<Code>)

  const WINDOW_MS := 61000
  const ALLOWANCE := 400

  /** One request to the offline fixture. */
  function ServeOffline(w: World, build: bool): (World, Answer) {
    var t := w.timestamp + 1;
    if build then (w.(timestamp := t), Page)
    else
      var allowed := if w.lastAllowed.None? || t - w.lastAllowed.value >= WINDOW_MS then 0 else w.allowed;
      if allowed >= ALLOWANCE then (w.(timestamp := t, allowed := allowed), Rejected)
      else (w.(timestamp := t, lastAllowed := Some(t), allowed := allowed + 1), Accepted)
  }

  function Offline(): Environment {
    Environment((w: World) => Some(w.timestamp), (w: World) => w,
                (w: World, ms: int) => w.(timestamp := w.timestamp + ms),
                (w: World, build: bool) => ServeOffline(w, build), (w: World) => false, (w: World) => None)
  }

  const OFFLINE_START := World(0, None, 0, 0)

  // ---- counters

  /** A target's visits by phase. */
  datatype Visits = Visits(buildBefore: bool, preflight: nat, load: nat, reject: nat, recovery: nat, buildAfter: bool)

  datatype Count = Count(attempted: nat, validated: nat, visits: Visits)

  const ZERO := Count(0, 0, Visits(false, 0, 0, 0, 0, false))

  function Visited(v: Visits, p: Phase): Visits {
    match p
    case BuildBefore => v.(buildBefore := true)
    case Preflight => v.(preflight := v.preflight + 1)
    case Load => v.(load := v.load + 1)
    case Reject => v.(reject := v.reject + 1)
    case Recovery => v.(recovery := v.recovery + 1)
    case BuildAfter => v.(buildAfter := true)
  }

  function Credit(c: Count, p: Phase): Count {
    Count(c.attempted, c.validated + 1, Visited(c.visits, p))
  }

  /** A target's counter after its rejection. */
  const REJECTED := Count(203, 203, Visits(true, 1, 200, 1, 0, false))

  predicate Incomplete(c: Count) {
    c.attempted != 205 || c.validated != 205 || !c.visits.buildBefore || !c.visits.buildAfter || c.visits.preflight != 1
    || c.visits.load != 200 || c.visits.reject != 1 || c.visits.recovery != 1
  }

  predicate Valid(answer: Answer, p: Phase) {
    if IsBuild(p) then answer.Page? else if p.Reject? then answer.Rejected? else answer.Accepted?
  }

  /** The target that an ordinal stands for: they alternate. */
  function TargetOf(ordinal: nat): (target: nat)
    ensures target < TARGETS
  {
    ordinal % 2
  }

  function One(b: bool): nat { if b then 1 else 0 }

  // ---- what happens, as it happens

  /** A request sent in a phase, a load request with its ordinal; what the environment, as it then was, answered one;
      the failure latched; a load request done with. */
  datatype Happening = Sent(target: nat, phase: Phase, ordinal: Option<nat>)
    | Served(target: nat, phase: Phase, at: World, answer: Answer) | Latched(code: Code) | Settled(done: nat)

  datatype History = Start | Then(before: History, last: Happening)

  predicate LoadSent(last: Happening) { last.Sent? && last.phase.Load? }

  function SentTo(h: History, target: nat): nat {
    if h.Start? then 0 else SentTo(h.before, target) + One(h.last.Sent? && h.last.target == target)
  }

  /** How many load requests have been sent. */
  function Loads(h: History): nat {
    if h.Start? then 0 else Loads(h.before) + One(LoadSent(h.last))
  }

  /** How often an ordinal has been dispatched, and how often it has been done with. */
  function Dispatches(h: History, n: nat): nat {
    if h.Start? then 0 else Dispatches(h.before, n) + One(LoadSent(h.last) && h.last.ordinal == Some(n))
  }

  function Settlements(h: History, n: nat): nat {
    if h.Start? then 0 else Settlements(h.before, n) + One(h.last == Settled(n))
  }

  function LatchedIn(h: History): Option<Code> {
    if h.Start? then None else if h.last.Latched? then Some(h.last.code) else LatchedIn(h.before)
  }

  /** Once a failure is latched nothing more is sent, and no other failure is latched. */
  predicate Obedient(h: History) {
    h.Then? ==> Obedient(h.before) && (LatchedIn(h.before).Some? ==> h.last.Served? || h.last.Settled?)
  }

  /** The order of the phases. */
  function Place(p: Phase): nat {
    match p
    case BuildBefore => 0
    case Preflight => 1
    case Load => 2
    case Reject => 3
    case Recovery => 4
    case BuildAfter => 5
  }

  predicate Moves(last: Happening) { last.Sent? || last.Served? }

  /** How far the phases have come. */
  function Stage(h: History): nat {
    if h.Start? then 0 else if Moves(h.last) then Place(h.last.phase) else Stage(h.before)
  }

  /** No phase sends or is answered after a later one has begun. */
  predicate Staged(h: History) {
    h.Then? ==> Staged(h.before) && (Moves(h.last) ==> Stage(h.before) <= Place(h.last.phase))
  }

  // ---- what was answered

  /** Every answer is what the environment gave. */
  predicate Genuine(env: Environment, h: History) {
    h.Then? ==>
      && Genuine(env, h.before)
      && (h.last.Served? ==>
            h.last.target < TARGETS && h.last.answer == env.serve(h.last.at, IsBuild(h.last.phase)).1)
  }

  /** How many answers there were for a target. */
  function Replies(h: History, target: nat): nat {
    if h.Start? then 0 else Replies(h.before, target) + One(h.last.Served? && h.last.target == target)
  }

  /** An answer for this target, in this phase or, for None, in any, and as its phase wants it. */
  predicate Counts(last: Happening, target: nat, phase: Option<Phase>) {
    last.Served? && last.target == target && phase in {None, Some(last.phase)} && Valid(last.answer, last.phase)
  }

  function Good(h: History, target: nat, phase: Option<Phase>): nat {
    if h.Start? then 0 else Good(h.before, target, phase) + One(Counts(h.last, target, phase))
  }

  /** What a target's counter claims to have validated. */
  function Claims(c: Count, phase: Option<Phase>): nat {
    match phase
    case None => c.validated
    case Some(BuildBefore) => One(c.visits.buildBefore)
    case Some(Preflight) => c.visits.preflight
    case Some(Load) => c.visits.load
    case Some(Reject) => c.visits.reject
    case Some(Recovery) => c.visits.recovery
    case Some(BuildAfter) => One(c.visits.buildAfter)
  }

  predicate Backed(h: History, c: Count, target: nat, phase: Option<Phase>) {
    Claims(c, phase) <= Good(h, target, phase)
  }

  /** Answers are genuine, none is without a request, and whatever is counted as validated was answered so. */
  ghost predicate Answered(env: Environment, h: History, counts: seq<Count>) {
    && |counts| == TARGETS && Genuine(env, h) && Replies(h, 0) <= SentTo(h, 0) && Replies(h, 1) <= SentTo(h, 1)
    && forall target, phase :: 0 <= target < TARGETS ==> Backed(h, counts[target], target, phase)
  }

  /** A valid answer of this phase has not been counted yet. */
  predicate Earned(h: History, counts: seq<Count>, target: nat, phase: Phase)
    requires target < |counts|
  {
    && Claims(counts[target], None) < Good(h, target, None)
    && Claims(counts[target], Some(phase)) < Good(h, target, Some(phase))
  }

  lemma AnsweredAtStart(env: Environment)
    ensures Answered(env, Start, [ZERO, ZERO])
  {
  }

  /** Nothing is answered or counted by being latched or done with. */
  lemma AnsweredMeanwhile(env: Environment, h: History, counts: seq<Count>, last: Happening)
    requires Answered(env, h, counts) && (last.Latched? || last.Settled?)
    ensures Answered(env, Then(h, last), counts)
    ensures forall target, phase :: Good(Then(h, last), target, phase) == Good(h, target, phase)
  {
    forall target, phase | 0 <= target < TARGETS
      ensures Backed(Then(h, last), counts[target], target, phase)
    {
      assert Backed(h, counts[target], target, phase);
    }
  }

  lemma EarnedStill(h: History, later: History, counts: seq<Count>, target: nat, phase: Phase)
    requires target < |counts| && (later == h || (later.Then? && later.before == h && later.last.Latched?))
    ensures Earned(h, counts, target, phase) ==> Earned(later, counts, target, phase)
  {
  }

  lemma AnsweredSent(env: Environment, h: History, counts: seq<Count>, target: nat, phase: Phase, ordinal: Option<nat>)
    requires Answered(env, h, counts) && target < TARGETS
    ensures var after := Then(h, Sent(target, phase, ordinal));
      Answered(env, after, Attempt(counts, target)) && Replies(after, target) < SentTo(after, target)
  {
    var after, later := Attempt(counts, target), Then(h, Sent(target, phase, ordinal));
    forall t, p | 0 <= t < TARGETS
      ensures Backed(later, after[t], t, p)
    {
      assert Backed(h, counts[t], t, p);
    }
  }

  lemma AnsweredServed(env: Environment, h: History, counts: seq<Count>, target: nat, phase: Phase, at: World)
    requires Answered(env, h, counts) && target < TARGETS && Replies(h, target) < SentTo(h, target)
    ensures var answer := env.serve(at, IsBuild(phase)).1;
      var after := Then(h, Served(target, phase, at, answer));
      Answered(env, after, counts) && (Valid(answer, phase) ==> Earned(after, counts, target, phase))
  {
    var answer := env.serve(at, IsBuild(phase)).1;
    var after := Then(h, Served(target, phase, at, answer));
    assert Backed(h, counts[target], target, None) && Backed(h, counts[target], target, Some(phase));
    forall t, p | 0 <= t < TARGETS
      ensures Backed(after, counts[t], t, p)
    {
      assert Backed(h, counts[t], t, p);
    }
  }

  lemma AnsweredCredit(env: Environment, h: History, counts: seq<Count>, target: nat, phase: Phase)
    requires Answered(env, h, counts) && target < TARGETS && Earned(h, counts, target, phase)
    ensures Answered(env, h, Settle(counts, target, phase))
  {
    var after := Settle(counts, target, phase);
    forall t, p | 0 <= t < TARGETS
      ensures Backed(h, after[t], t, p)
    {
      assert Backed(h, counts[t], t, p);
    }
  }

  /** Valid answers are answers. */
  lemma {:induction false} GoodAnswers(h: History, target: nat)
    ensures Good(h, target, None) <= Replies(h, target)
  {
    if h.Then? {
      GoodAnswers(h.before, target);
    }
  }

  /** All of them together, phase by phase. */
  function GoodSum(h: History, target: nat): nat {
    Good(h, target, Some(BuildBefore)) + Good(h, target, Some(Preflight)) + Good(h, target, Some(Load))
    + Good(h, target, Some(Reject)) + Good(h, target, Some(Recovery)) + Good(h, target, Some(BuildAfter))
  }

  lemma {:induction false} GoodAddsUp(h: History, target: nat)
    ensures Good(h, target, None) == GoodSum(h, target)
  {
    hide Counts;
    if h.Then? {
      GoodAddsUp(h.before, target);
      OnePhase(h.last, target);
    }
  }

  /** An answer is one of a single phase. */
  lemma OnePhase(last: Happening, target: nat)
    ensures One(Counts(last, target, None)) ==
            One(Counts(last, target, Some(BuildBefore))) + One(Counts(last, target, Some(Preflight)))
            + One(Counts(last, target, Some(Load))) + One(Counts(last, target, Some(Reject)))
            + One(Counts(last, target, Some(Recovery))) + One(Counts(last, target, Some(BuildAfter)))
  {
  }

  /** The target had one valid answer in each phase, 200 in the load phase, and no other answer. */
  predicate AllGood(h: History, target: nat) {
    && Replies(h, target) == Good(h, target, None) == 205 && Good(h, target, Some(Load)) == PER_TARGET
    && forall p: Phase :: !p.Load? ==> Good(h, target, Some(p)) == 1
  }

  lemma CompleteIsGood(env: Environment, h: History, counts: seq<Count>, target: nat)
    requires Answered(env, h, counts) && target < TARGETS && !Incomplete(counts[target])
    requires SentTo(h, target) == counts[target].attempted
    ensures AllGood(h, target)
  {
    hide Good, Replies, SentTo, Genuine;
    GoodAnswers(h, target);
    GoodAddsUp(h, target);
    forall p
      ensures Claims(counts[target], p) <= Good(h, target, p)
    {
      assert Backed(h, counts[target], target, p);
    }
  }

  /** Every load request is for the next ordinal, and goes to the target that it stands for. */
  predicate InOrder(h: History) {
    h.Then? ==> InOrder(h.before) && (LoadSent(h.last) ==> Next(h.last, Loads(h.before)))
  }

  predicate Next(last: Happening, ordinal: nat) {
    last == Sent(TargetOf(ordinal), Load, Some(ordinal))
  }

  /** What the load phase has to do with. */
  function LoadPart(h: History): History {
    if h.Start? then Start
    else if LoadSent(h.last) || h.last.Settled? then Then(LoadPart(h.before), h.last)
    else LoadPart(h.before)
  }

  lemma {:induction false} OnlyLoadPart(h: History, n: nat)
    ensures Loads(h) == Loads(LoadPart(h)) && Dispatches(h, n) == Dispatches(LoadPart(h), n)
    ensures Settlements(h, n) == Settlements(LoadPart(h), n)
  {
    if h.Then? {
      OnlyLoadPart(h.before, n);
    }
  }

  /** In such a history the first ordinals have been dispatched once each, and no others. */
  lemma {:induction false} DispatchedOnce(h: History, n: nat)
    requires InOrder(h)
    ensures Dispatches(h, n) == One(n < Loads(h))
  {
    if h.Then? {
      DispatchedOnce(h.before, n);
    }
  }

  // ---- the order of the answers

  function Answers(h: History): seq<Answer> {
    if h.Start? then [] else Answers(h.before) + if h.last.Served? then [h.last.answer] else []
  }

  predicate Faultless(h: History) {
    h.Then? ==> Faultless(h.before) && (h.last.Served? ==> Valid(h.last.answer, h.last.phase))
  }

  function Many(answer: Answer, n: nat): seq<Answer> {
    if n == 0 then [] else Many(answer, n - 1) + [answer]
  }

  /** What the phase in this place wants. */
  function Wanted(place: nat): Answer {
    if place == 0 || place == 5 then Page else if place == 3 then Rejected else Accepted
  }

  /** How many answers there were in a phase. */
  function InPhase(h: History, place: nat): nat {
    if h.Start? then 0 else InPhase(h.before, place) + One(h.last.Served? && Place(h.last.phase) == place)
  }

  /** One block for each of the first k phases, of as many answers as it had, all as it wants them. */
  function Blocks(h: History, k: nat): seq<Answer> {
    if k == 0 then [] else Blocks(h, k - 1) + Many(Wanted(k - 1), InPhase(h, k - 1))
  }

  lemma {:induction false} NothingAhead(h: History, place: nat)
    requires Staged(h) && Stage(h) < place
    ensures InPhase(h, place) == 0
  {
    if h.Then? {
      NothingAhead(h.before, place);
    }
  }

  lemma BlockGrows(h: History, place: nat)
    requires h.Then? && h.last.Served? && Staged(h) && Valid(h.last.answer, h.last.phase)
    ensures var before, after := Many(Wanted(place), InPhase(h.before, place)), Many(Wanted(place), InPhase(h, place));
      if Place(h.last.phase) == place then after == before + [h.last.answer]
      else after == before && (Place(h.last.phase) < place ==> before == [])
  {
    if Place(h.last.phase) < place {
      NothingAhead(h.before, place);
    }
  }

  /** An answer of the latest phase goes to the end of its block, and there is no block behind it. */
  lemma {:induction false} BlocksGrow(h: History, k: nat)
    requires h.Then? && h.last.Served? && Staged(h) && Valid(h.last.answer, h.last.phase)
    ensures Blocks(h, k) == Blocks(h.before, k) + if Place(h.last.phase) < k then [h.last.answer] else []
  {
    hide Staged, Stage, Many;
    if k > 0 {
      BlocksGrow(h, k - 1);
      BlockGrows(h, k - 1);
    }
  }

  lemma {:induction false} BlocksStay(h: History, k: nat)
    requires h.Then? && !h.last.Served?
    ensures Blocks(h, k) == Blocks(h.before, k)
  {
    if k > 0 {
      BlocksStay(h, k - 1);
    }
  }

  /** Valid answers in staged phases come block by block. */
  lemma {:induction false} AnswersInBlocks(h: History)
    requires Staged(h) && Faultless(h)
    ensures Answers(h) == Blocks(h, 6)
  {
    if h.Then? {
      AnswersInBlocks(h.before);
      if h.last.Served? {
        BlocksGrow(h, 6);
      } else {
        BlocksStay(h, 6);
      }
    } else {
      NoBlocks(6);
    }
  }

  lemma {:induction false} NoBlocks(k: nat)
    ensures Blocks(Start, k) == []
  {
    if k > 0 {
      NoBlocks(k - 1);
    }
  }

  lemma {:induction false} AllFaultless(env: Environment, h: History)
    requires Genuine(env, h)
    requires Good(h, 0, None) == Replies(h, 0) && Good(h, 1, None) == Replies(h, 1)
    ensures Faultless(h)
  {
    if h.Then? {
      GoodAnswers(h.before, 0);
      GoodAnswers(h.before, 1);
      AllFaultless(env, h.before);
    }
  }

  lemma {:induction false} PhaseOfTargets(env: Environment, h: History, phase: Phase)
    requires Genuine(env, h) && Faultless(h)
    ensures InPhase(h, Place(phase)) == Good(h, 0, Some(phase)) + Good(h, 1, Some(phase))
  {
    if h.Then? {
      PhaseOfTargets(env, h.before, phase);
    }
  }

  /** The answers of a completed run, from the first to the last: the build of both targets, their preflight, 400
      accepted, 2 rejected, the recovery of both, and their build again. */
  function Script(): seq<Answer> {
    Many(Page, 2) + Many(Accepted, 2) + Many(Accepted, ORDINALS) + Many(Rejected, 2) + Many(Accepted, 2) + Many(Page, 2)
  }

  lemma GoodIsScript(env: Environment, h: History)
    requires Genuine(env, h) && Staged(h) && AllGood(h, 0) && AllGood(h, 1)
    ensures Answers(h) == Script()
  {
    hide Genuine, Staged, Good, Replies, InPhase, Many, Answers, Faultless;
    AllFaultless(env, h);
    AnswersInBlocks(h);
    forall phase: Phase
      ensures InPhase(h, Place(phase)) == if phase.Load? then ORDINALS else 2
    {
      PhaseOfTargets(env, h, phase);
    }
    assert InPhase(h, Place(BuildBefore)) == InPhase(h, Place(Preflight)) == 2;
    assert InPhase(h, Place(Load)) == ORDINALS;
    assert InPhase(h, Place(Reject)) == InPhase(h, Place(Recovery)) == InPhase(h, Place(BuildAfter)) == 2;
    SixBlocks(h);
  }

  lemma SixBlocks(h: History)
    ensures Blocks(h, 6) ==
            Many(Page, InPhase(h, 0)) + Many(Accepted, InPhase(h, 1)) + Many(Accepted, InPhase(h, 2))
            + Many(Rejected, InPhase(h, 3)) + Many(Accepted, InPhase(h, 4)) + Many(Page, InPhase(h, 5))
  {
    hide Many, InPhase;
    assert Blocks(h, 0) == [];
    assert Blocks(h, 1) == Many(Page, InPhase(h, 0));
    assert Blocks(h, 2) == Blocks(h, 1) + Many(Accepted, InPhase(h, 1));
    assert Blocks(h, 3) == Blocks(h, 2) + Many(Accepted, InPhase(h, 2));
    assert Blocks(h, 4) == Blocks(h, 3) + Many(Rejected, InPhase(h, 3));
    assert Blocks(h, 5) == Blocks(h, 4) + Many(Accepted, InPhase(h, 4));
    assert Blocks(h, 6) == Blocks(h, 5) + Many(Page, InPhase(h, 5));
  }

  /** What the counters of a complete run stand for. */
  lemma CompleteRun(env: Environment, h: History, failure: Option<Code>, counts: seq<Count>, requests: nat,
                    validated: nat)
    requires Booked(h, failure, counts, requests, validated) && Answered(env, h, counts)
    requires !Incomplete(counts[0]) && !Incomplete(counts[1])
    ensures AllGood(h, 0) && AllGood(h, 1) && Answers(h) == Script()
  {
    hide AllGood, Script, Answers, Incomplete, Replies, Good, SentTo, Genuine, Staged;
    CompleteIsGood(env, h, counts, 0);
    CompleteIsGood(env, h, counts, 1);
    GoodIsScript(env, h);
  }

  /** The totals are those of the targets, every request is in the history, and the history is in order. */
  predicate Booked(h: History, failure: Option<Code>, counts: seq<Count>, requests: nat, validated: nat) {
    && |counts| == TARGETS && requests == counts[0].attempted + counts[1].attempted <= MAX_REQUESTS
    && validated == counts[0].validated + counts[1].validated
    && counts[0].validated <= counts[0].attempted && counts[1].validated <= counts[1].attempted
    && counts[0].attempted == SentTo(h, 0) && counts[1].attempted == SentTo(h, 1)
    && failure == LatchedIn(h) && Obedient(h) && InOrder(h) && Staged(h)
  }

  lemma BookedSent(h: History, counts: seq<Count>, requests: nat, validated: nat, target: nat, phase: Phase,
                   ordinal: Option<nat>)
    requires Booked(h, None, counts, requests, validated) && target < TARGETS && requests < MAX_REQUESTS
    requires Stage(h) <= Place(phase) && (phase.Load? ==> Next(Sent(target, phase, ordinal), Loads(h)))
    ensures var after := Then(h, Sent(target, phase, ordinal));
      |counts| == TARGETS && Booked(after, None, Attempt(counts, target), requests + 1, validated)
        && Stage(after) == Place(phase)
  {
  }

  /** An answer, or a load request done with, leaves the books as they are. */
  lemma BookedMeanwhile(h: History, failure: Option<Code>, counts: seq<Count>, requests: nat, validated: nat,
                        last: Happening)
    requires Booked(h, failure, counts, requests, validated)
    requires last.Settled? || (last.Served? && Stage(h) <= Place(last.phase))
    ensures var after := Then(h, last);
      && Booked(after, failure, counts, requests, validated) && Loads(after) == Loads(h)
      && Stage(after) == (if last.Served? then Place(last.phase) else Stage(h))
      && (last.Served? ==> LoadPart(after) == LoadPart(h))
  {
  }

  // ---- work in progress

  /** A load request in a worker's hands: its ordinal and, once served, the answer. */
  datatype Flight = Flight(ordinal: nat, answer: Option<Answer>)

  function Rank(hand: Option<Flight>): nat {
    if hand.None? then 0 else if hand.value.answer.Some? then 1 else 2
  }

  /** What there is to count about the hands: the steps still to come, the requests in flight for a target, those
      waiting to be served, for any target or for one, those answered as they should be, and those of one ordinal. */
  datatype Kind = Steps | For(target: nat) | Waiting | Due(target: nat) | Ready(target: nat) | Of(ordinal: nat)

  predicate Idle(hands: seq<Option<Flight>>) { forall w :: 0 <= w < |hands| ==> hands[w].None? }

  function Weight(hand: Option<Flight>, kind: Kind): nat {
    match kind
    case Steps => Rank(hand)
    case For(target) => One(hand.Some? && TargetOf(hand.value.ordinal) == target)
    case Waiting => One(Rank(hand) == 2)
    case Due(target) => One(Rank(hand) == 2 && TargetOf(hand.value.ordinal) == target)
    case Ready(target) =>
      One(hand.Some? && hand.value.answer == Some(Accepted) && TargetOf(hand.value.ordinal) == target)
    case Of(ordinal) => One(hand.Some? && hand.value.ordinal == ordinal)
  }

  /** The steps that the workers still have to make. */
  function Work(hands: seq<Option<Flight>>): nat { Total(hands, Steps) }

  function Total(hands: seq<Option<Flight>>, kind: Kind): nat {
    if hands == [] then 0 else Total(hands[..|hands| - 1], kind) + Weight(hands[|hands| - 1], kind)
  }

  lemma {:induction false} Replace(hands: seq<Option<Flight>>, w: nat, hand: Option<Flight>, kind: Kind)
    requires w < |hands|
    ensures Total(hands[w := hand], kind) + Weight(hands[w], kind) == Total(hands, kind) + Weight(hand, kind)
    decreases |hands|
  {
    var front, last := hands[..|hands| - 1], |hands| - 1;
    if w == last {
      assert hands[w := hand][..last] == front;
    } else {
      Replace(front, w, hand, kind);
      assert hands[w := hand][..last] == front[w := hand];
    }
  }

  lemma {:induction false} AllIdle(hands: seq<Option<Flight>>, kind: Kind)
    requires Idle(hands)
    ensures Total(hands, kind) == 0
  {
    if hands != [] {
      AllIdle(hands[..|hands| - 1], kind);
    }
  }

  lemma {:induction false} AtLeast(hands: seq<Option<Flight>>, w: nat, kind: Kind)
    requires w < |hands|
    ensures Total(hands, kind) >= Weight(hands[w], kind)
    decreases |hands|
  {
    if w < |hands| - 1 {
      AtLeast(hands[..|hands| - 1], w, kind);
    }
  }

  /** An ordinal that has been dispatched is in one worker's hands or has been done with, and no other is. */
  predicate Once(h: History, hands: seq<Option<Flight>>, n: nat) {
    Settlements(h, n) + Total(hands, Of(n)) == One(n < Loads(h))
  }

  ghost predicate Handed(h: History, hands: seq<Option<Flight>>) { forall n :: 0 <= n ==> Once(h, hands, n) }

  /** The first ordinals have been dispatched and done with, once each, and no others. */
  ghost predicate Concluded(h: History) {
    Loads(h) <= ORDINALS && forall n :: 0 <= n ==> Dispatches(h, n) == Settlements(h, n) == One(n < Loads(h))
  }

  lemma StillConcluded(h: History, later: History)
    requires Concluded(h) && LoadPart(later) == LoadPart(h)
    ensures Concluded(later) && Loads(later) == Loads(h)
  {
    OnlyLoadPart(h, 0);
    OnlyLoadPart(later, 0);
    forall n: nat
      ensures Dispatches(later, n) == Settlements(later, n) == One(n < Loads(later))
    {
      OnlyLoadPart(h, n);
      OnlyLoadPart(later, n);
    }
  }

  lemma IdleConcluded(h: History, hands: seq<Option<Flight>>)
    requires InOrder(h) && Handed(h, hands) && Loads(h) <= ORDINALS && Idle(hands)
    ensures Concluded(h)
  {
    forall n: nat
      ensures Dispatches(h, n) == Settlements(h, n) == One(n < Loads(h))
    {
      DispatchedOnce(h, n);
      AllIdle(hands, Of(n));
      assert Once(h, hands, n);
    }
  }

  /** How many of the first n ordinals go to a target. */
  function Share(n: nat, target: nat): nat {
    if n == 0 then 0 else Share(n - 1, target) + One(TargetOf(n - 1) == target)
  }

  /** Alternating targets share the load evenly. */
  lemma {:induction false} EvenShares(k: nat, target: nat)
    requires target < TARGETS
    ensures Share(2 * k, target) == k
  {
    if k > 0 {
      EvenShares(k - 1, target);
      assert TargetOf(2 * k - 1) == 1 && TargetOf(2 * k - 2) == 0;
      assert Share(2 * k, target) == Share(2 * k - 1, target) + One(1 == target);
      assert Share(2 * k - 1, target) == Share(2 * k - 2, target) + One(0 == target);
    }
  }

  lemma {:induction false} SharesAddUp(n: nat)
    ensures Share(n, 0) + Share(n, 1) == n
  {
    if n > 0 {
      SharesAddUp(n - 1);
    }
  }

  const ORDINALS := PER_TARGET * TARGETS

  /** A target's counter in the load phase, after n of its ordinals, f of them still in flight. */
  function During(n: nat, f: nat): Count
    requires f <= n
  {
    Count(2 + n, 2 + n - f, Visits(true, 1, n - f, 0, 0, false))
  }

  function Attempt(counts: seq<Count>, target: nat): seq<Count>
    requires target < |counts|
  {
    counts[target := counts[target].(attempted := counts[target].attempted + 1)]
  }

  function Settle(counts: seq<Count>, target: nat, p: Phase): seq<Count>
    requires target < |counts|
  {
    counts[target := Credit(counts[target], p)]
  }

  /** Without a failure, every ordinal taken was dispatched, and is counted or in flight. */
  ghost predicate Tallied(counts: seq<Count>, cursor: nat, hands: seq<Option<Flight>>, target: nat)
    requires |counts| == TARGETS && target < TARGETS
  {
    && Total(hands, For(target)) <= Share(cursor, target)
    && counts[target] == During(Share(cursor, target), Total(hands, For(target)))
  }

  ghost predicate Loaded(counts: seq<Count>, cursor: nat, hands: seq<Option<Flight>>)
    requires |counts| == TARGETS
  {
    Tallied(counts, cursor, hands, 0) && Tallied(counts, cursor, hands, 1)
  }

  /** Before the load phase. */
  lemma NothingHanded(h: History, hands: seq<Option<Flight>>)
    requires LoadPart(h).Start? && Idle(hands)
    ensures Loads(h) == 0 && Handed(h, hands) && Concluded(h)
  {
    OnlyLoadPart(h, 0);
    forall n: nat
      ensures Once(h, hands, n) && Dispatches(h, n) == 0
    {
      OnlyLoadPart(h, n);
      AllIdle(hands, Of(n));
    }
  }

  lemma TakeHanded(h: History, hands: seq<Option<Flight>>, w: nat)
    requires Handed(h, hands) && w < |hands| && hands[w].None?
    ensures Handed(Then(h, Sent(TargetOf(Loads(h)), Load, Some(Loads(h)))), hands[w := Some(Flight(Loads(h), None))])
  {
    var hand := Some(Flight(Loads(h), None));
    var after, later := hands[w := hand], Then(h, Sent(TargetOf(Loads(h)), Load, Some(Loads(h))));
    forall n: nat
      ensures Once(later, after, n)
    {
      assert Once(h, hands, n);
      Replace(hands, w, hand, Of(n));
    }
  }

  lemma ServeHanded(h: History, hands: seq<Option<Flight>>, w: nat, target: nat, at: World, answer: Answer)
    requires Handed(h, hands) && w < |hands| && hands[w].Some?
    ensures Handed(Then(h, Served(target, Load, at, answer)),
      hands[w := Some(Flight(hands[w].value.ordinal, Some(answer)))])
  {
    var hand := Some(Flight(hands[w].value.ordinal, Some(answer)));
    var after, later := hands[w := hand], Then(h, Served(target, Load, at, answer));
    forall n: nat
      ensures Once(later, after, n)
    {
      assert Once(h, hands, n);
      Replace(hands, w, hand, Of(n));
    }
  }

  lemma CloseHanded(h: History, hands: seq<Option<Flight>>, w: nat)
    requires Handed(h, hands) && w < |hands| && hands[w].Some?
    ensures Handed(Then(h, Settled(hands[w].value.ordinal)), hands[w := None])
  {
    var after, later := hands[w := None], Then(h, Settled(hands[w].value.ordinal));
    forall n: nat
      ensures Once(later, after, n)
    {
      assert Once(h, hands, n);
      Replace(hands, w, None, Of(n));
    }
  }

  /** A failure latched meanwhile is none of their business. */
  lemma LatchHanded(h: History, hands: seq<Option<Flight>>, code: Code)
    requires Handed(h, hands)
    ensures Handed(Then(h, Latched(code)), hands)
  {
    forall n: nat
      ensures Once(Then(h, Latched(code)), hands, n)
    {
      assert Once(h, hands, n);
    }
  }

  /** What is in the hands: no request is answered twice, and an accepted answer can still be counted. */
  predicate Carries(h: History, c: Count, hands: seq<Option<Flight>>, target: nat) {
    && Replies(h, target) + Total(hands, Due(target)) <= SentTo(h, target)
    && Claims(c, None) + Total(hands, Ready(target)) <= Good(h, target, None)
    && Claims(c, Some(Load)) + Total(hands, Ready(target)) <= Good(h, target, Some(Load))
  }

  predicate Carried(h: History, counts: seq<Count>, hands: seq<Option<Flight>>) {
    |counts| == TARGETS && Carries(h, counts[0], hands, 0) && Carries(h, counts[1], hands, 1)
  }

  lemma IdleCarried(env: Environment, h: History, counts: seq<Count>, hands: seq<Option<Flight>>)
    requires Answered(env, h, counts) && Idle(hands)
    ensures Carried(h, counts, hands)
  {
    forall target | 0 <= target < TARGETS
      ensures Carries(h, counts[target], hands, target)
    {
      AllIdle(hands, Due(target));
      AllIdle(hands, Ready(target));
      assert Backed(h, counts[target], target, None) && Backed(h, counts[target], target, Some(Load));
    }
  }

  lemma TakeCarried(h: History, counts: seq<Count>, hands: seq<Option<Flight>>, w: nat, ordinal: nat)
    requires Carried(h, counts, hands) && w < |hands| && hands[w].None?
    ensures Carried(Then(h, Sent(TargetOf(ordinal), Load, Some(ordinal))), Attempt(counts, TargetOf(ordinal)),
                    hands[w := Some(Flight(ordinal, None))])
  {
    hide Total;
    forall target | 0 <= target < TARGETS
      ensures Carries(Then(h, Sent(TargetOf(ordinal), Load, Some(ordinal))), Attempt(counts, TargetOf(ordinal))[target],
                      hands[w := Some(Flight(ordinal, None))], target)
    {
      assert Carries(h, counts[target], hands, target);
      Replace(hands, w, Some(Flight(ordinal, None)), Due(target));
      Replace(hands, w, Some(Flight(ordinal, None)), Ready(target));
    }
  }

  /** For one target. */
  lemma ServeCarries(h: History, c: Count, hands: seq<Option<Flight>>, w: nat, at: World, answer: Answer, target: nat)
    requires Carries(h, c, hands, target) && w < |hands| && Rank(hands[w]) == 2
    ensures var ordinal := hands[w].value.ordinal;
      && (target == TargetOf(ordinal) ==> Replies(h, target) < SentTo(h, target))
      && Carries(Then(h, Served(TargetOf(ordinal), Load, at, answer)), c,
                 hands[w := Some(Flight(ordinal, Some(answer)))], target)
  {
    hide Total;
    var ordinal := hands[w].value.ordinal;
    AtLeast(hands, w, Due(target));
    Replace(hands, w, Some(Flight(ordinal, Some(answer))), Due(target));
    Replace(hands, w, Some(Flight(ordinal, Some(answer))), Ready(target));
  }

  lemma ServeCarried(h: History, counts: seq<Count>, hands: seq<Option<Flight>>, w: nat, at: World, answer: Answer)
    requires Carried(h, counts, hands) && w < |hands| && Rank(hands[w]) == 2
    ensures var ordinal := hands[w].value.ordinal;
      && |counts| == TARGETS && Replies(h, TargetOf(ordinal)) < SentTo(h, TargetOf(ordinal))
      && Carried(Then(h, Served(TargetOf(ordinal), Load, at, answer)), counts,
                 hands[w := Some(Flight(ordinal, Some(answer)))])
  {
    hide Carries;
    ServeCarries(h, counts[0], hands, w, at, answer, 0);
    ServeCarries(h, counts[1], hands, w, at, answer, 1);
  }

  /** For one target: an accepted answer in hand can be counted; counted or not, it leaves the hands. */
  lemma CloseCarries(h: History, counts: seq<Count>, hands: seq<Option<Flight>>, w: nat, target: nat)
    requires |counts| == TARGETS && target < TARGETS && Carries(h, counts[target], hands, target)
    requires w < |hands| && Rank(hands[w]) == 1
    ensures var flight := hands[w].value;
      var after, owner := Then(h, Settled(flight.ordinal)), TargetOf(flight.ordinal);
      && Carries(after, counts[target], hands[w := None], target)
      && (flight.answer == Some(Accepted) ==>
            && (target == owner ==> Earned(h, counts, target, Load))
            && Carries(after, Settle(counts, owner, Load)[target], hands[w := None], target))
  {
    hide Total;
    AtLeast(hands, w, Ready(target));
    Replace(hands, w, None, Due(target));
    Replace(hands, w, None, Ready(target));
  }

  lemma CloseCarried(h: History, counts: seq<Count>, hands: seq<Option<Flight>>, w: nat)
    requires Carried(h, counts, hands) && w < |hands| && Rank(hands[w]) == 1
    ensures var flight := hands[w].value;
      var target, after := TargetOf(flight.ordinal), Then(h, Settled(flight.ordinal));
      && Carried(after, counts, hands[w := None])
      && (flight.answer == Some(Accepted) ==>
            Earned(h, counts, target, Load) && Carried(after, Settle(counts, target, Load), hands[w := None]))
  {
    hide Carries, Earned;
    CloseCarries(h, counts, hands, w, 0);
    CloseCarries(h, counts, hands, w, 1);
  }

  lemma LatchCarried(h: History, counts: seq<Count>, hands: seq<Option<Flight>>, code: Code)
    requires Carried(h, counts, hands)
    ensures Carried(Then(h, Latched(code)), counts, hands)
  {
  }

  /** Dispatching the next ordinal keeps the tallies. */
  lemma TakeLoaded(counts: seq<Count>, cursor: nat, hands: seq<Option<Flight>>, w: nat)
    requires |counts| == TARGETS && Loaded(counts, cursor, hands) && w < |hands| && hands[w].None?
    ensures Loaded(Attempt(counts, TargetOf(cursor)), cursor + 1, hands[w := Some(Flight(cursor, None))])
    ensures counts[0].attempted + counts[1].attempted == 4 + cursor
  {
    SharesAddUp(cursor);
    Replace(hands, w, Some(Flight(cursor, None)), For(0));
    Replace(hands, w, Some(Flight(cursor, None)), For(1));
  }

  /** So does counting a validated answer. */
  lemma SettleLoaded(counts: seq<Count>, cursor: nat, hands: seq<Option<Flight>>, w: nat)
    requires |counts| == TARGETS && Loaded(counts, cursor, hands) && w < |hands| && hands[w].Some?
    ensures var target := TargetOf(hands[w].value.ordinal);
      && Loaded(Settle(counts, target, Load), cursor, hands[w := None])
      && counts[target].validated < counts[target].attempted
  {
    Replace(hands, w, None, For(0));
    Replace(hands, w, None, For(1));
  }

  /** And being served changes nothing. */
  lemma ServeLoaded(counts: seq<Count>, cursor: nat, hands: seq<Option<Flight>>, w: nat, answer: Answer)
    requires |counts| == TARGETS && Loaded(counts, cursor, hands) && w < |hands| && hands[w].Some?
    ensures Loaded(counts, cursor, hands[w := Some(Flight(hands[w].value.ordinal, Some(answer)))])
  {
    Replace(hands, w, Some(Flight(hands[w].value.ordinal, Some(answer))), For(0));
    Replace(hands, w, Some(Flight(hands[w].value.ordinal, Some(answer))), For(1));
  }

  /** Before the first ordinal, and after the last: each target has had its half. */
  lemma IdleLoaded(counts: seq<Count>, k: nat, hands: seq<Option<Flight>>)
    requires |counts| == TARGETS && Idle(hands)
    ensures Loaded(counts, 2 * k, hands) <==> counts == [During(k, 0), During(k, 0)]
  {
    AllIdle(hands, For(0));
    AllIdle(hands, For(1));
    EvenShares(k, 0);
    EvenShares(k, 1);
  }

  const LOAD_START := 64004

  /** The offline fixture once n load requests have been served. */
  function Rolled(n: nat): World {
    if n == 0 then World(LOAD_START, Some(4), 2, 0) else World(LOAD_START + n, Some(LOAD_START + n), n, 0)
  }

  ghost predicate AllAccepted(hands: seq<Option<Flight>>) {
    forall w :: 0 <= w < |hands| && hands[w].Some? && hands[w].value.answer.Some? ==>
      hands[w].value.answer == Some(Accepted)
  }

  /** Offline, the next of at most 400 requests is accepted. */
  lemma ServedOffline(n: nat)
    requires n < ALLOWANCE
    ensures ServeOffline(Rolled(n), false) == (Rolled(n + 1), Accepted)
  {
  }

  /** Two requests of one phase in a row, both as that phase wants them. */
  predicate Pair(w: World, p: Phase, after: World) {
    var one := ServeOffline(w, IsBuild(p));
    var two := ServeOffline(one.0, IsBuild(p));
    Valid(one.1, p) && Valid(two.1, p) && after == two.0
  }

  lemma OnePair(w: World, p: Phase, after: World)
    requires Pair(w, p, after)
    ensures after.timestamp == w.timestamp + 2 && ServeOffline(w, IsBuild(p)).0.timestamp == w.timestamp + 1
  {
  }

  /** The timeline of the offline run: before, at, and after the boundary. */
  lemma OpeningTimeline()
    ensures Pair(OFFLINE_START, BuildBefore, World(2, None, 0, 0))
    ensures Pair(World(2, None, 0, 0), Preflight, World(4, Some(4), 2, 0))
  {
  }

  lemma BoundaryTimeline()
    ensures Pair(Rolled(ORDINALS), Reject, World(LOAD_START + 402, Some(LOAD_START + 400), 400, 0))
  {
  }

  lemma ClosingTimeline()
    ensures Pair(World(LOAD_START + 402 + QUIET_MS, Some(LOAD_START + 400), 400, 0), Recovery,
                 World(LOAD_START + 404 + QUIET_MS, Some(LOAD_START + 404 + QUIET_MS), 2, 0))
    ensures Pair(World(LOAD_START + 404 + QUIET_MS, Some(LOAD_START + 404 + QUIET_MS), 2, 0), BuildAfter,
                 World(LOAD_START + 406 + QUIET_MS, Some(LOAD_START + 404 + QUIET_MS), 2, 0))
  {
  }

  /** The fixture has served exactly what was taken and is not waiting to be served, and accepted all of it. */
  ghost predicate RolledTo(world: World, cursor: nat, hands: seq<Option<Flight>>) {
    Total(hands, Waiting) <= cursor && world == Rolled(cursor - Total(hands, Waiting)) && AllAccepted(hands)
  }

  lemma TakeRolled(world: World, cursor: nat, hands: seq<Option<Flight>>, w: nat)
    requires RolledTo(world, cursor, hands) && w < |hands| && hands[w].None?
    ensures RolledTo(world, cursor + 1, hands[w := Some(Flight(cursor, None))])
  {
    Replace(hands, w, Some(Flight(cursor, None)), Waiting);
  }

  lemma ServeRolled(world: World, cursor: nat, hands: seq<Option<Flight>>, w: nat)
    requires RolledTo(world, cursor, hands) && w < |hands| && Rank(hands[w]) == 2 && cursor <= ORDINALS
    ensures var (after, answer) := ServeOffline(world, false);
      RolledTo(after, cursor, hands[w := Some(Flight(hands[w].value.ordinal, Some(answer)))])
    ensures world.timestamp < LOAD_START + ORDINALS
  {
    AtLeast(hands, w, Waiting);
    ServedOffline(cursor - Total(hands, Waiting));
    Replace(hands, w, Some(Flight(hands[w].value.ordinal, Some(Accepted))), Waiting);
  }

  lemma CloseRolled(world: World, cursor: nat, hands: seq<Option<Flight>>, w: nat)
    requires RolledTo(world, cursor, hands) && w < |hands| && Rank(hands[w]) == 1
    ensures RolledTo(world, cursor, hands[w := None]) && hands[w].value.answer == Some(Accepted)
  {
    Replace(hands, w, None, Waiting);
  }

  lemma IdleRolled(world: World, cursor: nat, hands: seq<Option<Flight>>)
    requires Idle(hands)
    ensures RolledTo(world, cursor, hands) <==> world == Rolled(cursor)
  {
    AllIdle(hands, Waiting);
  }

  // ---- the report

  datatype Report = Report(completed: bool, failure: Option<Code>, counts: seq<Count>, requests: nat, validated: nat,
                           history: History)

  /** Whatever a run ends with: the counts are those of the requests on record, and of valid answers that the
      environment gave to them; the phases came in their order; a failure was latched once and nothing was sent after
      it; and the load requests went out for the first ordinals, in order and each once, to the targets they stand
      for, and each of them was done with once. */
  ghost predicate Accounted(env: Environment, r: Report) {
    && Booked(r.history, r.failure, r.counts, r.requests, r.validated) && Concluded(r.history)
    && Answered(env, r.history, r.counts)
  }

  // ---- the runner

  class Runner {
    const env: Environment
    /** Whether this is the offline fixture from its start. */
    ghost const synthetic: bool
    var world: World
    var failure: Option<Code>
    var started: int
    var lastNow: Option<int>
    var boundaryStart: Option<int>
    var counts: seq<Count>
    var requests: nat
    var validated: nat
    var cursor: nat
    var hands: seq<Option<Flight>>
    var history: History

    constructor (env: Environment, world: World, ghost synthetic: bool)
      ensures this.env == env && this.synthetic == synthetic && this.world == world && failure.None? && lastNow.None?
      ensures boundaryStart.None? && counts == [ZERO, ZERO] && requests == validated == cursor == 0 && hands == []
      ensures history.Start? && Sound()
    {
      this.env, this.world, this.synthetic := env, world, synthetic;
      failure, started, lastNow, boundaryStart := None, 0, None, None;
      counts, requests, validated, cursor, hands := [ZERO, ZERO], 0, 0, 0, [];
      history := Start;
      AnsweredAtStart(env);
    }

    ghost predicate Sound()
      reads `history, `failure, `counts, `requests, `validated
    {
      Booked(history, failure, counts, requests, validated) && Answered(env, history, counts)
    }

    method Stop(code: Code)
      requires Sound()
      modifies this`failure, this`history
      ensures Sound() && failure == if old(failure).Some? then old(failure) else Some(code)
      ensures history == if old(failure).Some? then old(history) else Then(old(history), Latched(code))
    {
      if failure.None? {
        AnsweredMeanwhile(env, history, counts, Latched(code));
        failure, history := Some(code), Then(history, Latched(code));
      }
    }

    /** Something is awaited: a timer or a listener may latch a failure meanwhile. */
    method Await()
      requires Sound()
      modifies this`failure, this`history
      ensures Sound() && (old(failure).Some? ==> failure == old(failure))
      ensures history == if old(failure).None? && failure.Some? then Then(old(history), Latched(failure.value))
                         else old(history)
      ensures env == Offline() ==> failure == old(failure)
      ensures env.fires(world).Some? ==> failure.Some?
    {
      var fired := env.fires(world);
      if fired.Some? {
        Stop(fired.value);
      }
    }

    /** A clock reading, refused when it is not finite or runs backwards. */
    method Now() returns (t: Option<int>)
      modifies this`world, this`lastNow
      ensures t.Some? ==> lastNow == t && env.now(old(world)) == t
      ensures world == env.tick(old(world))
      ensures env.now(old(world)).Some? && (old(lastNow).None? || env.now(old(world)).value >= old(lastNow).value) ==>
        t.Some?
    {
      t := env.now(world);
      world := env.tick(world);
      if t.None? || (lastNow.Some? && t.value < lastNow.value) {
        return None;
      }
      lastNow := t;
    }

    /** Offline, on time and without a failure. */
    ghost predicate Calm()
      reads `failure, `lastNow, `world, `started, `boundaryStart
    {
      && env == Offline() && failure.None? && (lastNow.Some? ==> lastNow.value <= world.timestamp)
      && world.timestamp - started < OVERALL_MS
      && (boundaryStart.Some? ==> world.timestamp - boundaryStart.value < BOUNDARY_MS)
    }

    /** check: latched failure, cancellation, clock, deadlines, in this order. */
    method Check() returns (t: int, stop: Option<Code>)
      modifies this`world, this`lastNow
      ensures failure.Some? ==> stop == failure
      ensures stop.None? ==> lastNow == Some(t) && env.now(old(world)) == Some(t) && world == env.tick(old(world))
      ensures stop.None? ==> t - started < OVERALL_MS && (boundaryStart.Some? ==> t - boundaryStart.value < BOUNDARY_MS)
      ensures old(Calm()) ==> stop.None? && world == old(world)
    {
      if failure.Some? {
        return 0, failure;
      }
      if env.interrupted(world) {
        return 0, Some(Cancelled);
      }
      var reading := Now();
      if reading.None? {
        return 0, Some(Configuration);
      }
      t := reading.value;
      if t - started >= OVERALL_MS {
        return t, Some(OverallDeadline);
      }
      if boundaryStart.Some? && t - boundaryStart.value >= BOUNDARY_MS {
        return t, Some(BoundaryDeadline);
      }
      stop := None;
    }

    /** visit, up to the dispatch; the request is counted and on record before it goes out. */
    method Begin(target: nat, phase: Phase, ordinal: Option<nat>) returns (ok: bool)
      requires Sound() && target < TARGETS
      requires Stage(history) <= Place(phase)
      requires phase.Load? ==> Next(Sent(target, phase, ordinal), Loads(history))
      modifies this`world, this`lastNow, this`failure, this`history, this`counts, this`requests
      ensures Sound() && (ok <==> failure.None?) && (old(failure).Some? ==> failure == old(failure))
      ensures ok ==> world == env.tick(old(world)) && Replies(history, target) < SentTo(history, target)
      ensures Stage(history) <= Place(phase)
      ensures if ok then counts == Attempt(old(counts), target) && requests == old(requests) + 1
              else counts == old(counts) && requests == old(requests)
      ensures history == if ok then Then(old(history), Sent(target, phase, ordinal))
                         else if old(failure).None? then Then(old(history), Latched(failure.value)) else old(history)
      ensures old(Calm()) && old(requests) < MAX_REQUESTS ==> ok && Calm() && world == old(world)
    {
      hide Answered, Booked, Obedient, InOrder, Staged, SentTo, Replies, Loads, Next;
      var t, stop := Check();
      if stop.Some? {
        Stop(stop.value);
        return false;
      }
      if requests >= MAX_REQUESTS {
        Stop(RequestBudget);
        return false;
      }
      BookedSent(history, counts, requests, validated, target, phase, ordinal);
      AnsweredSent(env, history, counts, target, phase, ordinal);
      requests, counts := requests + 1, Attempt(counts, target);
      history := Then(history, Sent(target, phase, ordinal));
      return true;
    }

    /** visit, after the response: it is validated and counted, or the failure is latched. */
    method Finish(target: nat, phase: Phase, answer: Answer) returns (ok: bool)
      requires Sound() && target < TARGETS
      requires Valid(answer, phase) ==> Earned(history, counts, target, phase)
      modifies this`world, this`lastNow, this`failure, this`history, this`counts, this`validated
      ensures Sound() && (ok <==> failure.None?) && (old(failure).Some? ==> failure == old(failure))
      ensures if ok then Valid(answer, phase) && counts == Settle(old(counts), target, phase)
              else counts == old(counts)
      ensures history == if old(failure).None? && !ok then Then(old(history), Latched(failure.value)) else old(history)
      ensures old(Calm()) && Valid(answer, phase) ==> ok && Calm() && world == old(world)
    {
      var t, stop := Check();
      if stop.Some? {
        Stop(stop.value);
        return false;
      }
      if !Valid(answer, phase) {
        var u, late := Check();
        Stop(if late.Some? then late.value else BadResponse);
        return false;
      }
      AnsweredCredit(env, history, counts, target, phase);
      GoodAnswers(history, target);
      counts := Settle(counts, target, phase);
      validated := validated + 1;
      return true;
    }

    /** A visit outside the load phase: nothing else runs meanwhile. */
    method Visit(target: nat, phase: Phase) returns (ok: bool)
      requires Sound() && target < TARGETS && !phase.Load? && Stage(history) <= Place(phase)
      modifies this`world, this`lastNow, this`failure, this`history, this`counts, this`requests, this`validated
      ensures Sound() && (ok <==> failure.None?) && (old(failure).Some? ==> failure == old(failure))
      ensures LoadPart(history) == LoadPart(old(history)) && Stage(history) <= Place(phase)
      ensures ok ==>
        var at := env.tick(old(world));
        var answer := env.serve(at, IsBuild(phase)).1;
        Valid(answer, phase)
        && history == Then(Then(old(history), Sent(target, phase, None)), Served(target, phase, at, answer))
      ensures ok ==>
        && counts == Settle(Attempt(old(counts), target), target, phase)
        && requests == old(requests) + 1
      ensures
        var (after, answer) := env.serve(old(world), IsBuild(phase));
        old(Calm()) && old(requests) < MAX_REQUESTS && Valid(answer, phase)
          && after.timestamp == old(world).timestamp + 1
        && old(world).timestamp + 1 - started < OVERALL_MS
        && (boundaryStart.Some? ==> old(world).timestamp + 1 - boundaryStart.value < BOUNDARY_MS)
        ==> ok && Calm() && world == after
    {
      hide InOrder, Obedient, LatchedIn, SentTo, Loads, Booked, Answered, Earned, Replies, Staged, Settle, Attempt;
      ok := Begin(target, phase, None);
      if ok {
        var (after, answer) := env.serve(world, IsBuild(phase));
        AnsweredServed(env, history, counts, target, phase, world);
        BookedMeanwhile(history, failure, counts, requests, validated, Served(target, phase, world, answer));
        history := Then(history, Served(target, phase, world, answer));
        world := after;
        ghost var served := history;
        Await();
        EarnedStill(served, history, counts, target, phase);
        ok := Finish(target, phase, answer);
      }
    }

    /** quiet: the elapsed time counts, not what the sleep was asked for. */
    method Quiet() returns (ok: bool)
      requires Sound()
      modifies this`world, this`lastNow, this`failure, this`history
      ensures Sound() && (ok <==> failure.None?) && (old(failure).Some? ==> failure == old(failure))
      ensures LoadPart(history) == LoadPart(old(history)) && Stage(history) == Stage(old(history))
      ensures old(Calm()) && boundaryStart.None? && old(world).timestamp + QUIET_MS - started < OVERALL_MS ==>
        ok && Calm() && world == old(world).(timestamp := old(world).timestamp + QUIET_MS)
    {
      var before, stop := Check();
      if stop.Some? {
        Stop(stop.value);
        return false;
      }
      world := env.sleep(world, QUIET_MS);
      Await();
      var after, late := Check();
      if late.Some? {
        Stop(late.value);
        return false;
      }
      if after - before < QUIET_MS {
        Stop(QuietPeriod);
        return false;
      }
      return true;
    }

    // ---- the load phase

    /** What every step of every worker keeps. */
    ghost predicate Loading()
      reads this
    {
      && Sound() && Stage(history) <= Place(Load) && Carried(history, counts, hands) && |hands| == CONCURRENCY
      && Loads(history) <= cursor <= ORDINALS && Handed(history, hands)
      && (failure.None? ==> Loads(history) == cursor && Loaded(counts, cursor, hands))
    }

    /** Against the offline fixture nothing ever goes wrong. */
    ghost predicate Rolling()
      reads this
    {
      synthetic ==>
        && Calm() && started == 0 && boundaryStart == Some(LOAD_START)
        && RolledTo(world, cursor, hands)
    }

    /** A free worker takes the next ordinal and sends its request, unless it is stopped first. */
    method TakeNext(w: nat) returns (ok: bool)
      requires Loading() && w < CONCURRENCY && hands[w].None? && failure.None? && cursor < ORDINALS
      modifies this`world, this`lastNow, this`failure, this`history, this`counts, this`requests,
               this`cursor, this`hands
      ensures Loading() && cursor == old(cursor) + 1 && (ok <==> failure.None?)
      ensures hands == if ok then old(hands)[w := Some(Flight(old(cursor), None))] else old(hands)
      ensures Work(hands) <= Work(old(hands)) + 2
      ensures old(Calm()) ==> ok && Calm() && world == old(world)
    {
      hide Handed, Loaded, Total;
      var ordinal := cursor;
      TakeLoaded(counts, ordinal, hands, w);
      TakeHanded(history, hands, w);
      TakeCarried(history, counts, hands, w, ordinal);
      Replace(hands, w, Some(Flight(ordinal, None)), Steps);
      cursor := cursor + 1;
      ok := Begin(TargetOf(ordinal), Load, Some(ordinal));
      if ok {
        hands := hands[w := Some(Flight(ordinal, None))];
      } else {
        LatchHanded(old(history), hands, failure.value);
        LatchCarried(old(history), counts, hands, failure.value);
      }
    }

    method Take(w: nat)
      requires Loading() && Rolling() && w < CONCURRENCY && hands[w].None? && failure.None? && cursor < ORDINALS
      modifies this`world, this`lastNow, this`failure, this`history, this`counts, this`requests,
               this`cursor, this`hands
      ensures Loading() && Rolling() && cursor == old(cursor) + 1
      ensures Work(hands) <= Work(old(hands)) + 2
    {
      if synthetic {
        TakeRolled(world, cursor, hands, w);
      }
      var ok := TakeNext(w);
    }

    /** A request in flight is served. */
    method Serve(w: nat)
      requires Loading() && Rolling() && w < CONCURRENCY && Rank(hands[w]) == 2
      modifies this`world, this`history, this`hands
      ensures Loading() && Rolling() && Work(hands) == Work(old(hands)) - 1 && failure == old(failure)
      ensures var (after, answer) := env.serve(old(world), false);
        && world == after && hands == old(hands)[w := Some(Flight(old(hands)[w].value.ordinal, Some(answer)))]
        && history == Then(old(history), Served(TargetOf(old(hands)[w].value.ordinal), Load, old(world), answer))
    {
      hide Booked, Answered, Carried, Handed, Loaded, RolledTo, Total, Replies;
      var flight := hands[w].value;
      var (after, answer) := env.serve(world, false);
      if synthetic {
        ServeRolled(world, cursor, hands, w);
      }
      var target := TargetOf(flight.ordinal);
      ServeHanded(history, hands, w, target, world, answer);
      ServeCarried(history, counts, hands, w, world, answer);
      if failure.None? {
        ServeLoaded(counts, cursor, hands, w, answer);
      }
      AnsweredServed(env, history, counts, target, Load, world);
      BookedMeanwhile(history, failure, counts, requests, validated, Served(target, Load, world, answer));
      Replace(hands, w, Some(Flight(flight.ordinal, Some(answer))), Steps);
      history := Then(history, Served(target, Load, world, answer));
      world := after;
      hands := hands[w := Some(Flight(flight.ordinal, Some(answer)))];
    }

    /** A served request is validated and counted before its worker can schedule again. */
    method CloseServed(w: nat) returns (ok: bool)
      requires Loading() && w < CONCURRENCY && Rank(hands[w]) == 1
      modifies this`world, this`lastNow, this`failure, this`history, this`counts, this`validated, this`hands
      ensures Loading() && hands == old(hands)[w := None] && (old(failure).Some? ==> failure == old(failure))
      ensures Work(hands) == Work(old(hands)) - 1
      ensures old(Calm()) && old(hands)[w].value.answer == Some(Accepted) ==> ok && Calm() && world == old(world)
    {
      hide Answered, Carried, Handed, Loaded, Total, Earned, Obedient, InOrder, Staged;
      var flight := hands[w].value;
      if failure.None? {
        SettleLoaded(counts, cursor, hands, w);
      }
      Replace(hands, w, None, Steps);
      CloseCarried(history, counts, hands, w);
      ok := Finish(TargetOf(flight.ordinal), Load, flight.answer.value);
      if !ok && old(failure).None? {
        LatchHanded(old(history), hands, failure.value);
        LatchCarried(old(history), counts, hands, failure.value);
        CloseCarried(history, counts, hands, w);
      }
      CloseHanded(history, hands, w);
      AnsweredMeanwhile(env, history, counts, Settled(flight.ordinal));
      BookedMeanwhile(history, failure, counts, requests, validated, Settled(flight.ordinal));
      hands, history := hands[w := None], Then(history, Settled(flight.ordinal));
    }

    method Close(w: nat)
      requires Loading() && Rolling() && w < CONCURRENCY && Rank(hands[w]) == 1
      modifies this`world, this`lastNow, this`failure, this`history, this`counts, this`validated, this`hands
      ensures Loading() && Rolling() && Work(hands) == Work(old(hands)) - 1
      ensures old(failure).Some? ==> failure == old(failure)
    {
      if synthetic {
        CloseRolled(world, cursor, hands, w);
      }
      var ok := CloseServed(w);
    }

    predicate CanMove(w: nat)
      requires w < |hands|
      reads this
    {
      hands[w].Some? || (failure.None? && cursor < ORDINALS)
    }

    /** One step: a timer or a listener fires, or one worker moves. */
    method Step(w: nat)
      requires Loading() && Rolling() && w < CONCURRENCY && CanMove(w)
      modifies this`world, this`lastNow, this`failure, this`history, this`counts, this`requests, this`validated,
               this`cursor, this`hands
      ensures Loading() && Rolling() && (old(failure).Some? ==> failure == old(failure))
      ensures old(failure).None? == failure.None? ==>
        3 * (ORDINALS - cursor) + Work(hands) < 3 * (ORDINALS - old(cursor)) + Work(old(hands))
    {
      if failure.None? && env.fires(world).Some? {
        Await();
        LatchHanded(old(history), hands, failure.value);
        LatchCarried(old(history), counts, hands, failure.value);
      } else if hands[w].None? {
        Take(w);
      } else if hands[w].value.answer.None? {
        Serve(w);
      } else {
        Close(w);
      }
    }

    /** The four workers, in any interleaving, with any failure latched from outside at any time: the ordinals are
        dispatched in order, each once; every one dispatched is done with once; only a latched failure leaves any
        ordinal behind, and nothing is sent after it. */
    method LoadPhase()
      requires Loading() && Rolling()
      modifies this`world, this`lastNow, this`failure, this`history, this`counts, this`requests, this`validated,
               this`cursor, this`hands
      ensures Loading() && Rolling() && Idle(hands)
      ensures InOrder(history) && Concluded(history)
      ensures Obedient(history) && LatchedIn(history) == failure
      ensures failure.Some? || Loads(history) == cursor == ORDINALS
      ensures old(failure).Some? ==> failure == old(failure)
    {
      while exists w :: 0 <= w < CONCURRENCY && CanMove(w)
        invariant Loading() && Rolling() && (old(failure).Some? ==> failure == old(failure))
        decreases failure.None?, 3 * (ORDINALS - cursor) + Work(hands)
      {
        var w :| 0 <= w < CONCURRENCY && CanMove(w);
        Step(w);
      }
      forall w | 0 <= w < CONCURRENCY
        ensures hands[w].None?
      {
        assert !CanMove(w);
      }
      IdleConcluded(history, hands);
      assert !CanMove(0);
    }

    /** A phase that visits both targets once, one after the other. */
    method VisitBoth(phase: Phase, ghost after: World) returns (ok: bool)
      requires Sound() && !phase.Load? && Stage(history) <= Place(phase)
      requires synthetic ==>
        && Calm() && requests + 1 < MAX_REQUESTS && Pair(world, phase, after)
        && after.timestamp - started < OVERALL_MS
        && (boundaryStart.Some? ==> after.timestamp - boundaryStart.value < BOUNDARY_MS)
      modifies this`world, this`lastNow, this`failure, this`history, this`counts, this`requests, this`validated
      ensures Sound() && (ok <==> failure.None?) && (old(failure).Some? ==> failure == old(failure))
      ensures LoadPart(history) == LoadPart(old(history)) && Stage(history) <= Place(phase)
      ensures ok ==>
        && counts == [Credit(old(counts)[0].(attempted := old(counts)[0].attempted + 1), phase),
                      Credit(old(counts)[1].(attempted := old(counts)[1].attempted + 1), phase)]
        && requests == old(requests) + 2
      ensures synthetic ==> ok && Calm() && world == after
    {
      if synthetic {
        OnePair(world, phase, after);
      }
      ok := Visit(0, phase);
      if ok {
        ok := Visit(1, phase);
      }
    }

    /** The code that a failed step leaves in the report. */
    method CheckOrStop() returns (t: int, ok: bool)
      requires Sound()
      modifies this`world, this`lastNow, this`failure, this`history
      ensures Sound() && (ok <==> failure.None?) && (old(failure).Some? ==> failure == old(failure))
      ensures LoadPart(history) == LoadPart(old(history)) && Stage(history) == Stage(old(history))
      ensures ok ==> lastNow == Some(t) && env.now(old(world)) == Some(t)
      ensures old(Calm()) ==> ok && Calm() && world == old(world)
    {
      var stop;
      t, stop := Check();
      ok := stop.None?;
      if stop.Some? {
        Stop(stop.value);
      }
    }

    /** The opening visits. */
    method OpenTargets() returns (ok: bool)
      requires Sound() && Stage(history) == 0 && failure.None? && boundaryStart.None? && counts == [ZERO, ZERO]
        && requests == 0
      requires synthetic ==> env == Offline() && world == OFFLINE_START && lastNow == Some(0) && started == 0
      modifies this`world, this`lastNow, this`failure, this`history, this`counts, this`requests, this`validated
      ensures Sound() && (ok <==> failure.None?)
      ensures LoadPart(history) == LoadPart(old(history)) && Stage(history) <= Place(Load)
      ensures ok ==> counts == [During(0, 0), During(0, 0)]
      ensures synthetic ==> ok && Calm() && world == World(4, Some(4), 2, 0)
    {
      hide Sound, ServeOffline, Pair, LoadPart, Offline;
      OpeningTimeline();
      var t, going := CheckOrStop();
      if going {
        going := VisitBoth(BuildBefore, World(2, None, 0, 0));
      }
      if going {
        going := VisitBoth(Preflight, World(4, Some(4), 2, 0));
      }
      ok := going;
    }

    /** From the first check to the start of the boundary clock. */
    method Opening() returns (ok: bool)
      requires Sound() && Stage(history) == 0 && failure.None? && boundaryStart.None? && counts == [ZERO, ZERO]
        && requests == 0
      requires synthetic ==> env == Offline() && world == OFFLINE_START && lastNow == Some(0) && started == 0
      modifies this`world, this`lastNow, this`failure, this`history, this`counts, this`requests, this`validated,
               this`boundaryStart
      ensures Sound() && (ok <==> failure.None?)
      ensures LoadPart(history) == LoadPart(old(history)) && Stage(history) <= Place(Load)
      ensures ok ==> counts == [During(0, 0), During(0, 0)]
      ensures synthetic ==> ok && Calm() && world == Rolled(0) && boundaryStart == Some(LOAD_START)
    {
      hide Sound, ServeOffline, LoadPart;
      var going := OpenTargets();
      if going {
        going := Quiet();
      }
      if going {
        var t;
        t, going := CheckOrStop();
        boundaryStart := Some(t);
      }
      ok := going;
    }

    /** The load phase from the start: without a failure each target has had its 200. */
    method LoadAll() returns (ok: bool)
      requires Sound() && Stage(history) <= Place(Load) && failure.None? && counts == [During(0, 0), During(0, 0)]
      requires cursor == 0 && LoadPart(history).Start?
      requires |hands| == CONCURRENCY && Idle(hands)
      requires synthetic ==> Calm() && started == 0 && world == Rolled(0) && boundaryStart == Some(LOAD_START)
      modifies this`world, this`lastNow, this`failure, this`history, this`counts, this`requests, this`validated,
               this`cursor, this`hands
      ensures Sound() && (ok <==> failure.None?) && Concluded(history) && Stage(history) <= Place(Load)
      ensures ok ==> counts == [During(PER_TARGET, 0), During(PER_TARGET, 0)] && Loads(history) == ORDINALS
      ensures synthetic ==> ok && Calm() && world == Rolled(ORDINALS)
    {
      NothingHanded(history, hands);
      IdleCarried(env, history, counts, hands);
      IdleLoaded(counts, 0, hands);
      IdleRolled(world, 0, hands);
      LoadPhase();
      IdleLoaded(counts, PER_TARGET, hands);
      IdleRolled(world, ORDINALS, hands);
      ok := failure.None?;
    }

    /** The two rejections behind the load phase. */
    method Rejections() returns (ok: bool)
      requires Sound() && Stage(history) <= Place(Reject) && failure.None?
        && counts == [During(PER_TARGET, 0), During(PER_TARGET, 0)]
      requires synthetic ==> Calm() && started == 0 && world == Rolled(ORDINALS) && boundaryStart == Some(LOAD_START)
      modifies this`world, this`lastNow, this`failure, this`history, this`counts, this`requests, this`validated,
               this`boundaryStart
      ensures Sound() && (ok <==> failure.None?)
      ensures LoadPart(history) == LoadPart(old(history)) && Stage(history) <= Place(Reject)
      ensures ok ==> boundaryStart.None? && counts == [REJECTED, REJECTED]
      ensures synthetic ==> ok && Calm() && world == World(LOAD_START + 402, Some(LOAD_START + 400), 400, 0)
    {
      hide ServeOffline, Pair, LoadPart, Offline;
      BoundaryTimeline();
      var t, going := CheckOrStop();
      if going {
        going := VisitBoth(Reject, World(LOAD_START + 402, Some(LOAD_START + 400), 400, 0));
      }
      if going {
        t, going := CheckOrStop();
        boundaryStart := None;
      }
      ok := going;
    }

    /** The load phase and the rejections, inside one shared deadline. */
    method Boundary() returns (ok: bool)
      requires Sound() && Stage(history) <= Place(Load) && failure.None? && counts == [During(0, 0), During(0, 0)]
      requires cursor == 0 && LoadPart(history).Start?
      requires |hands| == CONCURRENCY && Idle(hands)
      requires synthetic ==> Calm() && started == 0 && world == Rolled(0) && boundaryStart == Some(LOAD_START)
      modifies this`world, this`lastNow, this`failure, this`history, this`counts, this`requests, this`validated,
               this`cursor, this`hands, this`boundaryStart
      ensures Sound() && (ok <==> failure.None?) && Concluded(history) && Stage(history) <= Place(Reject)
      ensures ok ==> boundaryStart.None? && counts == [REJECTED, REJECTED] && Loads(history) == ORDINALS
      ensures synthetic ==> ok && Calm() && world == World(LOAD_START + 402, Some(LOAD_START + 400), 400, 0)
    {
      ok := LoadAll();
      if ok {
        ghost var loaded := history;
        ok := Rejections();
        StillConcluded(loaded, history);
      }
    }

    /** Recovery and the closing build check. */
    method Closing() returns (ok: bool)
      requires Sound() && Stage(history) <= Place(Recovery) && failure.None? && boundaryStart.None?
      requires counts == [REJECTED, REJECTED]
      requires synthetic ==> Calm() && started == 0 && world == World(LOAD_START + 402, Some(LOAD_START + 400), 400, 0)
      modifies this`world, this`lastNow, this`failure, this`history, this`counts, this`requests, this`validated
      ensures Sound() && (ok <==> failure.None?)
      ensures LoadPart(history) == LoadPart(old(history))
      ensures ok ==> !Incomplete(counts[0]) && !Incomplete(counts[1])
      ensures synthetic ==> ok
    {
      hide ServeOffline, Pair, LoadPart, Offline;
      ClosingTimeline();
      var going := Quiet();
      if going {
        going := VisitBoth(Recovery, World(LOAD_START + 404 + QUIET_MS, Some(LOAD_START + 404 + QUIET_MS), 2, 0));
      }
      if going {
        going := VisitBoth(BuildAfter, World(LOAD_START + 406 + QUIET_MS, Some(LOAD_START + 404 + QUIET_MS), 2, 0));
      }
      if going {
        var t;
        t, going := CheckOrStop();
      }
      ok := going;
    }

    /** All phases, one after the other. */
    method Course() returns (ok: bool)
      requires Sound() && history.Start? && failure.None? && boundaryStart.None? && counts == [ZERO, ZERO]
        && requests == 0
      requires synthetic ==> env == Offline() && world == OFFLINE_START && lastNow == Some(0) && started == 0
      modifies this
      ensures Sound() && (ok <==> failure.None?) && Concluded(history)
      ensures ok ==> !Incomplete(counts[0]) && !Incomplete(counts[1]) && Loads(history) == ORDINALS
      ensures synthetic ==> ok
    {
      hide Answered, Concluded, ServeOffline, Obedient, InOrder, Staged, SentTo, Incomplete, Loads;
      ok := Opening();
      NothingHanded(history, []);
      if ok {
        cursor, hands := 0, seq(CONCURRENCY, _ => None);
        ok := Boundary();
      }
      if ok {
        ghost var loaded := history;
        ok := Closing();
        StillConcluded(loaded, history);
      }
    }

    function Written(completed: bool): (r: Report)
      requires Sound() && Concluded(history)
      reads this
      ensures Accounted(env, r)
    {
      Report(completed, failure, counts, requests, validated, history)
    }
  }

  // ---- whole runs

  /** runTopology. In every environment and every interleaving of the workers, stopped or not, the run is accounted
      for. A run without a failure had exactly 205 requests for each target, all of them answered, and answered as
      their phases want: 400 accepted in the load phase, one for every ordinal, and 2 rejected behind it; so the
      closing count check never refuses one. Against the offline fixture every interleaving completes. */
  method RunTopology(env: Environment, world: World) returns (report: Report)
    ensures Accounted(env, report) && report.validated <= report.requests
    ensures report.completed <==> report.failure.None?
    ensures report.completed ==>
      && !Incomplete(report.counts[0]) && !Incomplete(report.counts[1])
      && report.requests == report.validated == MAX_REQUESTS && Loads(report.history) == ORDINALS
      && AllGood(report.history, 0) && AllGood(report.history, 1) && Answers(report.history) == Script()
    ensures env == Offline() && world == OFFLINE_START ==> report.completed
  {
    hide AllGood, Script, Answers, Answered, Concluded, ServeOffline, Obedient, InOrder, Staged, SentTo, Genuine;
    var runner := new Runner(env, world, env == Offline() && world == OFFLINE_START);
    var start := runner.Now();
    if start.None? {
      runner.Stop(Configuration);
      NothingHanded(runner.history, []);
      return runner.Written(false);
    }
    runner.started := start.value;
    var ok := runner.Course();
    // The source refuses an incomplete run here; without a failure there is none.
    assert ok ==> runner.requests == runner.validated == MAX_REQUESTS
                  && !Incomplete(runner.counts[0]) && !Incomplete(runner.counts[1]);
    if ok {
      CompleteRun(env, runner.history, runner.failure, runner.counts, runner.requests, runner.validated);
    }
    return runner.Written(ok);
  }
}
