/** createLiveServices of scripts/gate1-shared-ip-load.js: disposable accounts are created, uncertain creates are
    reconciled, and owned accounts are deleted by up to five workers, all within three requests per session. */
module OwnedAccounts {
  import opened Finite
  import opened Wrappers

  /** An account as the provider describes it, with the two ownership tags. */
  datatype User = User(id: string, email: string, qualification: bool, run: bool)

  /** How a create ends: never sent, without an answer, or with some account and possibly an error. */
  datatype CreateFate = NotSent | Unanswered | Answered(user: Option<User>, error: bool)

  datatype SignInFate = SignInFate(sent: bool, good: bool)

  /** One call of provision: whether the run marker is saved and the signal still open, the fresh address. */
  datatype ProvisionFate = ProvisionFate(marker: bool, open: bool, email: string, create: CreateFate,
    signIn: SignInFate)

  datatype PageFate = PageLost(sent: bool) | Page(users: seq<User>)

  const PAGE_SIZE := 50
  const WORKERS := 5

  /** The summary: creating and signing in, the reconciliation scan, and deleting. */
  datatype Stats = Stats(creates: Creates, sweep: Sweep, deletes: Deletes)

  datatype Creates = Creates(createAttempts: nat, signInAttempts: nat, created: nat, unconfirmedCreates: int)

  datatype Sweep = Sweep(reconciliationAttempts: nat, reconciled: nat, reconciliationFailed: bool)

  datatype Deletes = Deletes(deleteAttempts: nat, deleted: nat, cleanupFailed: nat)

  const NOTHING := Stats(Creates(0, 0, 0, 0), Sweep(0, 0, false), Deletes(0, 0, 0))

  /** An account with both tags and a well-formed id. */
  predicate Ours(user: User, uuid: string -> bool) { user.qualification && user.run && uuid(user.id) }

  /** The create of this call goes out. */
  predicate GoesOut(f: ProvisionFate, attempts: nat, marker: bool, sessions: nat) {
    f.open && attempts < sessions && (marker || f.marker) && !f.create.NotSent?
  }

  /** Its answer shows an account of ours that is not yet kept. */
  predicate Acknowledges(f: ProvisionFate, uuid: string -> bool, owned: set<string>) {
    && f.create.Answered? && f.create.user.Some? && Ours(f.create.user.value, uuid)
    && f.create.user.value.id !in owned
  }

  datatype Books = Books(creates: Creates, owned: set<string>, uncertain: set<string>)

  /** What a create that went out leaves: an account of ours, kept, then signed in; or an uncertain address. */
  predicate CreateEnds(f: ProvisionFate, uuid: string -> bool, before: Books, after: Books, ok: bool) {
    var sent := before.creates.(createAttempts := before.creates.createAttempts + 1);
    if Acknowledges(f, uuid, before.owned) then
      var signs := !f.create.error && f.signIn.sent;
      && after == Books(sent.(created := sent.created + 1,
                              signInAttempts := sent.signInAttempts + (if signs then 1 else 0)),
                        before.owned + {f.create.user.value.id}, before.uncertain)
      && (ok <==> signs && f.signIn.good)
    else
      !ok && after == Books(sent.(unconfirmedCreates := sent.unconfirmedCreates + 1), before.owned,
                            before.uncertain + {f.email})
  }

  /** One more call: the creates sent so far, and whether the run marker is saved. */
  function BegunBy(f: ProvisionFate, attempts: nat, marker: bool, sessions: nat): (nat, bool) {
    (if GoesOut(f, attempts, marker, sessions) then attempts + 1 else attempts,
     marker || (f.open && attempts < sessions && f.marker))
  }

  /** Creates sent by the first `i` calls, and whether the run marker is saved by then. */
  function Begun(provisions: seq<ProvisionFate>, i: nat, sessions: nat): (nat, bool)
    requires i <= |provisions|
  {
    if i == 0 then (0, false)
    else
      var (attempts, marker) := Begun(provisions, i - 1, sessions);
      BegunBy(provisions[i - 1], attempts, marker, sessions)
  }

  function Requests(s: Stats): nat {
    s.creates.createAttempts + s.creates.signInAttempts + s.sweep.reconciliationAttempts + s.deletes.deleteAttempts
  }

  /** The provider has shown an account of this id with both tags. */
  ghost predicate Vouched(seen: set<User>, id: string) {
    exists u :: u in seen && u.id == id && u.qualification && u.run
  }

  ghost predicate AllVouched(seen: set<User>, ids: set<string>) {
    forall id {:trigger Vouched(seen, id)} :: id in ids ==> Vouched(seen, id)
  }

  ghost predicate AllDescribed(seen: set<User>, described: User -> bool) {
    forall u {:trigger described(u)} :: u in seen ==> described(u)
  }

  lemma VouchedGrows(seen: set<User>, more: set<User>, ids: set<string>)
    requires AllVouched(seen, ids) && seen <= more
    ensures AllVouched(more, ids)
  {
    forall id | id in ids
      ensures Vouched(more, id)
    {
      assert Vouched(seen, id);
      var u :| u in seen && u.id == id && u.qualification && u.run;
      assert u in more;
    }
  }

  lemma VouchedToo(seen: set<User>, ids: set<string>, u: User)
    requires AllVouched(seen, ids) && u.qualification && u.run
    ensures AllVouched(seen + {u}, ids + {u.id})
  {
    VouchedGrows(seen, seen + {u}, ids);
    assert u in seen + {u};
  }

  // ---- the deleting workers

  /** The account a worker has taken, and whether its delete has been sent. */
  datatype Hand = Hand(index: nat, sent: bool)

  /** One step of one worker: `good` is whether the call goes out, or whether it succeeds. */
  datatype Turn = Turn(worker: nat, good: bool)

  /** The workers' shared cursor over the accounts to delete, and every id a delete was sent for. */
  datatype Crew = Crew(pending: seq<string>, cursor: nat, hands: seq<Option<Hand>>, targets: seq<string>)

  function Busy(hands: seq<Option<Hand>>): nat {
    if hands == [] then 0
    else Busy(hands[..|hands| - 1]) + (if hands[|hands| - 1].Some? then 1 else 0)
  }

  lemma {:induction false} BusyUpdate(hands: seq<Option<Hand>>, w: nat, hand: Option<Hand>)
    requires w < |hands|
    ensures Busy(hands[w := hand]) + (if hands[w].Some? then 1 else 0) == Busy(hands) + (if hand.Some? then 1 else 0)
    decreases |hands|
  {
    var front, last := hands[..|hands| - 1], |hands| - 1;
    if w == last {
      assert hands[w := hand][..last] == front;
    } else {
      BusyUpdate(front, w, hand);
      assert hands[w := hand][..last] == front[w := hand];
    }
  }

  /** Accounts in hand or still to be taken are owned and distinct, and no delete was sent for them yet, unless
      it is the one in flight. */
  ghost predicate Working(crew: Crew, owned: set<string>) {
    && NoRepeat(crew.pending) && crew.cursor <= |crew.pending| && NoRepeat(crew.targets)
    && (forall i :: 0 <= i < |crew.targets| ==> crew.targets[i] in crew.pending)
    && (forall k :: crew.cursor <= k < |crew.pending| ==>
          crew.pending[k] in owned && crew.pending[k] !in crew.targets)
    && (forall w :: 0 <= w < |crew.hands| && crew.hands[w].Some? ==>
          var h := crew.hands[w].value;
          && h.index < crew.cursor && crew.pending[h.index] in owned
          && (h.sent <==> crew.pending[h.index] in crew.targets))
    && (forall k :: 0 <= k < |crew.pending| ==> crew.pending[k] in owned || crew.pending[k] in crew.targets)
    && (forall v, w :: 0 <= v < w < |crew.hands| && crew.hands[v].Some? && crew.hands[w].Some? ==>
          crew.hands[v].value.index != crew.hands[w].value.index)
  }

  /** The crew after one worker's step: it takes the next account if its hands are free, sends the delete, or lets
      the account go. */
  function Worked(crew: Crew, turn: Turn): Crew {
    var w := turn.worker;
    if w >= |crew.hands| then crew
    else match crew.hands[w]
      case None =>
        if crew.cursor >= |crew.pending| then crew
        else crew.(cursor := crew.cursor + 1, hands := crew.hands[w := Some(Hand(crew.cursor, false))])
      case Some(hand) =>
        if !turn.good || hand.sent || hand.index >= |crew.pending| then crew.(hands := crew.hands[w := None])
        else crew.(hands := crew.hands[w := Some(Hand(hand.index, true))],
                   targets := crew.targets + [crew.pending[hand.index]])
  }

  /** A sent delete is confirmed in this step. */
  predicate Confirms(crew: Crew, turn: Turn) {
    turn.worker < |crew.hands| && turn.good && crew.hands[turn.worker].Some? && crew.hands[turn.worker].value.sent
  }

  /** What a step does to the counters: a delete goes out, is confirmed, or has failed. */
  function Charged(deletes: Deletes, crew: Crew, turn: Turn): Deletes {
    if turn.worker >= |crew.hands| || crew.hands[turn.worker].None? then deletes
    else if !turn.good then deletes.(cleanupFailed := deletes.cleanupFailed + 1)
    else if crew.hands[turn.worker].value.sent then deletes.(deleted := deletes.deleted + 1)
    else deletes.(deleteAttempts := deletes.deleteAttempts + 1)
  }

  /** Five workers, or one for each account where there are fewer, and nothing taken. */
  function Crewed(pending: seq<string>): Crew {
    Crew(pending, 0, seq(if |pending| < WORKERS then |pending| else WORKERS, _ => None), [])
  }

  /** The crew after the whole schedule. */
  function Labored(crew: Crew, schedule: seq<Turn>): Crew {
    if schedule == [] then crew else Worked(Labored(crew, schedule[..|schedule| - 1]), schedule[|schedule| - 1])
  }

  /** Nothing is left to take, and nothing is in hand. */
  predicate Drained(crew: Crew) { crew.cursor == |crew.pending| && Busy(crew.hands) == 0 }

  predicate AllGood(schedule: seq<Turn>) { forall i :: 0 <= i < |schedule| ==> schedule[i].good }

  // ---- a schedule in which every worker gets its turns drains the list

  /** Steps to make for what a worker holds, at most. */
  function StepsFor(hand: Option<Hand>): nat {
    if hand.None? then 0 else if hand.value.sent then 1 else 2
  }

  function InHand(hands: seq<Option<Hand>>): nat {
    if hands == [] then 0 else InHand(hands[..|hands| - 1]) + StepsFor(hands[|hands| - 1])
  }

  /** Steps to make until the list is drained, at most. */
  function Left(crew: Crew): nat
    requires crew.cursor <= |crew.pending|
  {
    3 * (|crew.pending| - crew.cursor) + InHand(crew.hands)
  }

  lemma {:induction false} InHandUpdate(hands: seq<Option<Hand>>, w: nat, hand: Option<Hand>)
    requires w < |hands|
    ensures InHand(hands[w := hand]) + StepsFor(hands[w]) == InHand(hands) + StepsFor(hand)
    decreases |hands|
  {
    var front, last := hands[..|hands| - 1], |hands| - 1;
    if w == last {
      assert hands[w := hand][..last] == front;
    } else {
      InHandUpdate(front, w, hand);
      assert hands[w := hand][..last] == front[w := hand];
    }
  }

  lemma {:induction false} NothingInHand(hands: seq<Option<Hand>>)
    requires InHand(hands) == 0
    ensures Busy(hands) == 0
  {
    if hands != [] {
      NothingInHand(hands[..|hands| - 1]);
    }
  }

  lemma {:induction false} SomethingInHand(hands: seq<Option<Hand>>) returns (w: nat)
    requires InHand(hands) > 0
    ensures w < |hands| && hands[w].Some?
  {
    w := |hands| - 1;
    if hands[w].None? {
      w := SomethingInHand(hands[..w]);
    }
  }

  /** The worker has something to do. */
  predicate CanWork(crew: Crew, w: nat) {
    w < |crew.hands| && (crew.hands[w].Some? || crew.cursor < |crew.pending|)
  }

  /** A worker that has something to do brings the end nearer, whatever becomes of its call; others change nothing. */
  lemma TurnCounts(crew: Crew, turn: Turn)
    requires crew.cursor <= |crew.pending|
    ensures var after := Worked(crew, turn);
      && after.cursor <= |after.pending| && after.pending == crew.pending && |after.hands| == |crew.hands|
      && (if CanWork(crew, turn.worker) then Left(after) < Left(crew) else after == crew)
  {
    var w := turn.worker;
    if CanWork(crew, w) {
      InHandUpdate(crew.hands, w, None);
      InHandUpdate(crew.hands, w, Some(Hand(crew.cursor, false)));
      if crew.hands[w].Some? {
        InHandUpdate(crew.hands, w, Some(Hand(crew.hands[w].value.index, true)));
      }
    }
  }

  lemma {:induction false} TurnsCount(crew: Crew, schedule: seq<Turn>)
    requires crew.cursor <= |crew.pending|
    ensures var after := Labored(crew, schedule);
      && after.cursor <= |after.pending| && after.pending == crew.pending && |after.hands| == |crew.hands|
      && Left(after) <= Left(crew) && (Left(after) == Left(crew) ==> after == crew)
  {
    if schedule != [] {
      var front, last := schedule[..|schedule| - 1], schedule[|schedule| - 1];
      TurnsCount(crew, front);
      TurnCounts(Labored(crew, front), last);
    }
  }

  lemma {:induction false} LaboredOn(crew: Crew, first: seq<Turn>, rest: seq<Turn>)
    ensures Labored(crew, first + rest) == Labored(Labored(crew, first), rest)
    decreases |rest|
  {
    if rest == [] {
      assert first + rest == first;
    } else {
      var front := rest[..|rest| - 1];
      LaboredOn(crew, first, front);
      assert (first + rest)[..|first + rest| - 1] == first + front;
    }
  }

  /** Each worker gets a turn. */
  ghost predicate Round(schedule: seq<Turn>) {
    forall w {:trigger HasTurn(schedule, w)} :: 0 <= w < WORKERS ==> HasTurn(schedule, w)
  }

  ghost predicate HasTurn(schedule: seq<Turn>, w: nat) {
    exists i :: 0 <= i < |schedule| && schedule[i].worker == w
  }

  /** The schedule can be cut into so many rounds. */
  ghost predicate Rounds(schedule: seq<Turn>, n: nat)
    decreases n
  {
    n == 0 || exists k :: 0 <= k <= |schedule| && Rounds(schedule[..k], n - 1) && Round(schedule[k..])
  }

  /** A round brings the end nearer unless it has come. */
  lemma RoundCounts(crew: Crew, schedule: seq<Turn>)
    requires crew.cursor <= |crew.pending| && |crew.hands| <= WORKERS && Round(schedule) && Left(crew) > 0
    requires crew.cursor < |crew.pending| ==> crew.hands != []
    ensures Labored(crew, schedule).cursor <= |crew.pending| && Labored(crew, schedule).pending == crew.pending
    ensures Left(Labored(crew, schedule)) < Left(crew)
  {
    hide Left, Labored, Worked, Round;
    TurnsCount(crew, schedule);
    var w := Someone(crew);
    var i := TurnOf(schedule, w);
    AroundTurn(crew, schedule, i);
    TurnsCount(crew, schedule[..i]);
    TurnCounts(Labored(crew, schedule[..i]), schedule[i]);
    TurnsCount(Worked(Labored(crew, schedule[..i]), schedule[i]), schedule[i + 1..]);
  }

  lemma Someone(crew: Crew) returns (w: nat)
    requires crew.cursor <= |crew.pending| && Left(crew) > 0
    requires crew.cursor < |crew.pending| ==> crew.hands != []
    ensures CanWork(crew, w)
  {
    w := 0;
    if crew.cursor == |crew.pending| {
      w := SomethingInHand(crew.hands);
    }
  }

  lemma TurnOf(schedule: seq<Turn>, w: nat) returns (i: nat)
    requires Round(schedule) && w < WORKERS
    ensures i < |schedule| && schedule[i].worker == w
  {
    assert HasTurn(schedule, w);
    i :| 0 <= i < |schedule| && schedule[i].worker == w;
  }

  lemma AroundTurn(crew: Crew, schedule: seq<Turn>, i: nat)
    requires i < |schedule|
    ensures Labored(crew, schedule) == Labored(Worked(Labored(crew, schedule[..i]), schedule[i]), schedule[i + 1..])
  {
    var through := schedule[..i + 1];
    assert through[..|through| - 1] == schedule[..i] && through[|through| - 1] == schedule[i];
    assert schedule == through + schedule[i + 1..];
    LaboredOn(crew, through, schedule[i + 1..]);
  }

  /** Enough rounds drain the list, whatever becomes of the calls. */
  lemma {:induction false} RoundsDrain(crew: Crew, schedule: seq<Turn>, n: nat)
    requires crew.cursor <= |crew.pending| && |crew.hands| <= WORKERS && Rounds(schedule, n)
    requires crew.pending != [] ==> crew.hands != []
    ensures var after := Labored(crew, schedule);
      after.cursor <= |after.pending| && (Left(after) == 0 || Left(after) + n <= Left(crew))
    decreases n
  {
    TurnsCount(crew, schedule);
    if n > 0 {
      var k :| 0 <= k <= |schedule| && Rounds(schedule[..k], n - 1) && Round(schedule[k..]);
      var first, round := schedule[..k], schedule[k..];
      assert schedule == first + round;
      LaboredOn(crew, first, round);
      RoundsDrain(crew, first, n - 1);
      TurnsCount(crew, first);
      var before := Labored(crew, first);
      TurnsCount(before, round);
      if Left(before) > 0 {
        RoundCounts(before, round);
      }
    }
  }

  /** Three rounds for each account are enough. */
  lemma FairDrains(pending: seq<string>, schedule: seq<Turn>)
    requires Rounds(schedule, 3 * |pending|)
    ensures Drained(Labored(Crewed(pending), schedule))
  {
    var crew := Crewed(pending);
    NoneBusy(crew.hands);
    NoneInHand(crew.hands);
    RoundsDrain(crew, schedule, 3 * |pending|);
    NothingInHand(Labored(crew, schedule).hands);
  }

  lemma {:induction false} NoneInHand(hands: seq<Option<Hand>>)
    requires forall w :: 0 <= w < |hands| ==> hands[w].None?
    ensures InHand(hands) == 0
  {
    if hands != [] {
      NoneInHand(hands[..|hands| - 1]);
    }
  }

  lemma TargetsBounded(crew: Crew, owned: set<string>)
    requires Working(crew, owned)
    ensures |crew.targets| <= |crew.pending|
  {
    var pool := set i | 0 <= i < |crew.pending| :: crew.pending[i];
    RepeatFree(crew.targets, pool);
    Listing(crew.pending);
  }

  lemma {:induction false} Listing(s: seq<string>)
    ensures |set i | 0 <= i < |s| :: s[i]| <= |s|
  {
    if s != [] {
      var front := s[..|s| - 1];
      Listing(front);
      assert (set i | 0 <= i < |s| :: s[i]) == (set i | 0 <= i < |front| :: front[i]) + {s[|s| - 1]};
    }
  }

  /** Taking the next account. */
  lemma TakeKeeps(crew: Crew, owned: set<string>, w: nat)
    requires Working(crew, owned) && w < |crew.hands| && crew.hands[w].None? && crew.cursor < |crew.pending|
    ensures Working(crew.(cursor := crew.cursor + 1, hands := crew.hands[w := Some(Hand(crew.cursor, false))]), owned)
  {
  }

  /** Letting go of an account whose delete never went out or failed. */
  lemma DropKeeps(crew: Crew, owned: set<string>, w: nat)
    requires Working(crew, owned) && w < |crew.hands|
    ensures Working(crew.(hands := crew.hands[w := None]), owned)
  {
  }

  /** Sending the delete for the account in hand. */
  lemma SendKeeps(crew: Crew, owned: set<string>, w: nat)
    requires Working(crew, owned) && w < |crew.hands| && crew.hands[w].Some? && !crew.hands[w].value.sent
    ensures var h := crew.hands[w].value;
      Working(crew.(hands := crew.hands[w := Some(Hand(h.index, true))],
                   targets := crew.targets + [crew.pending[h.index]]),
              owned)
  {
    var h := crew.hands[w].value;
    assert crew.pending[h.index] in crew.pending;
  }

  /** A confirmed delete gives the account up. */
  lemma DeleteKeeps(crew: Crew, owned: set<string>, w: nat)
    requires Working(crew, owned) && w < |crew.hands| && crew.hands[w].Some? && crew.hands[w].value.sent
    ensures crew.pending[crew.hands[w].value.index] in owned
    ensures Working(crew.(hands := crew.hands[w := None]), owned - {crew.pending[crew.hands[w].value.index]})
  {
  }

  /** The first `n` accounts of a page that carry both tags are ours, or the scan is marked as failed. */
  ghost predicate PageSettled(users: seq<User>, n: nat, owned: set<string>, failed: bool) {
    failed || forall i :: 0 <= i < n && i < |users| && users[i].qualification && users[i].run ==> users[i].id in owned
  }

  ghost predicate AllSettled(pages: seq<PageFate>, n: nat, owned: set<string>, failed: bool) {
    && n <= |pages|
    && forall p :: 0 <= p < n ==> pages[p].Page? && PageSettled(pages[p].users, |pages[p].users|, owned, failed)
  }

  /** The scan read the first `read` pages and at most one more was asked for; unless it is marked as failed, no
      create is left uncertain or the last page read was the provider's last. */
  predicate Swept(pages: seq<PageFate>, read: nat, creates: Creates, sweep: Sweep) {
    && read <= |pages| && read <= sweep.reconciliationAttempts <= read + 1
    && (sweep.reconciliationFailed || creates.unconfirmedCreates == 0
        || (0 < read && pages[read - 1].Page? && |pages[read - 1].users| < PAGE_SIZE))
  }

  lemma SettledStays(pages: seq<PageFate>, n: nat, before: set<string>, after: set<string>, failed: bool)
    requires AllSettled(pages, n, before, failed) && before <= after
    ensures AllSettled(pages, n, after, failed)
  {
    forall p | 0 <= p < n
      ensures PageSettled(pages[p].users, |pages[p].users|, after, failed)
    {
      assert PageSettled(pages[p].users, |pages[p].users|, before, failed);
    }
  }

  /** The ids in a list. */
  function Ids(s: seq<string>): set<string> { set id | id in s }

  lemma SettledMore(users: seq<User>, n: nat, before: set<string>, failed: bool, owned: set<string>, nowFailed: bool)
    requires PageSettled(users, n, before, failed) && n < |users| && before <= owned && (failed ==> nowFailed)
    requires users[n].qualification && users[n].run ==> users[n].id in owned || nowFailed
    ensures PageSettled(users, n + 1, owned, nowFailed)
  {
  }

  lemma SettledNext(pages: seq<PageFate>, n: nat, before: set<string>, failed: bool, owned: set<string>,
                    nowFailed: bool)
    requires AllSettled(pages, n, before, failed) && n < |pages| && pages[n].Page?
    requires before <= owned && (failed ==> nowFailed)
    requires PageSettled(pages[n].users, |pages[n].users|, owned, nowFailed)
    ensures AllSettled(pages, n + 1, owned, nowFailed)
  {
    forall p | 0 <= p < n
      ensures PageSettled(pages[p].users, |pages[p].users|, owned, nowFailed)
    {
      assert PageSettled(pages[p].users, |pages[p].users|, before, failed);
    }
  }

  /** The provider acknowledged this call's create as an account of ours. */
  predicate Acknowledged(provisions: seq<ProvisionFate>, i: nat, sessions: nat, uuid: string -> bool)
    requires i < |provisions|
  {
    var (attempts, marker) := Begun(provisions, i, sessions);
    GoesOut(provisions[i], attempts, marker, sessions) && Acknowledges(provisions[i], uuid, {})
  }

  /** Each call of provision makes up its own address. */
  ghost predicate FreshEmails(provisions: seq<ProvisionFate>) {
    forall i, j :: 0 <= i < j < |provisions| ==> provisions[i].email != provisions[j].email
  }

  ghost predicate AnswersDescribed(provisions: seq<ProvisionFate>, described: User -> bool) {
    forall i :: 0 <= i < |provisions| && provisions[i].create.Answered? && provisions[i].create.user.Some? ==>
      described(provisions[i].create.user.value)
  }

  function Emails(provisions: seq<ProvisionFate>, n: nat): set<string>
    requires n <= |provisions|
  {
    if n == 0 then {} else Emails(provisions, n - 1) + {provisions[n - 1].email}
  }

  lemma {:induction false} NewEmail(provisions: seq<ProvisionFate>, n: nat, i: nat)
    requires FreshEmails(provisions) && n <= i < |provisions|
    ensures provisions[i].email !in Emails(provisions, n)
  {
    if n > 0 {
      NewEmail(provisions, n - 1, i);
    }
  }

  /** Every acknowledged account of the first `n` calls is kept. */
  ghost predicate AllKept(provisions: seq<ProvisionFate>, n: nat, sessions: nat, uuid: string -> bool,
                          owned: set<string>)
    requires n <= |provisions|
  {
    forall i {:trigger Acknowledged(provisions, i, sessions, uuid)} :: 0 <= i < n ==>
      Acknowledged(provisions, i, sessions, uuid) ==> provisions[i].create.user.value.id in owned
  }

  lemma KeptNext(provisions: seq<ProvisionFate>, n: nat, sessions: nat, uuid: string -> bool, before: set<string>,
                 owned: set<string>)
    requires n < |provisions| && AllKept(provisions, n, sessions, uuid, before) && before <= owned
    requires Acknowledged(provisions, n, sessions, uuid) ==> provisions[n].create.user.value.id in owned
    ensures AllKept(provisions, n + 1, sessions, uuid, owned)
  {
  }

  class Services {
    const sessions: nat
    const uuid: string -> bool
    /** The accounts the provider ever describes. */
    ghost const described: User -> bool
    var creates: Creates
    var sweep: Sweep
    var deletes: Deletes
    var owned: set<string>
    var uncertainEmails: set<string>
    var markerPersisted: bool
    var cleaning: bool
    var crew: Crew
    /** The accounts taken as ours, as they were described. */
    ghost var seen: set<User>

    constructor (sessions: nat, uuid: string -> bool, ghost described: User -> bool)
      ensures this.sessions == sessions && this.uuid == uuid && this.described == described && Balanced()
      ensures !cleaning && !markerPersisted
      ensures Summary() == NOTHING && owned == {} && uncertainEmails == {} && crew.targets == []
    {
      this.sessions, this.uuid, this.described := sessions, uuid, described;
      crew := Crew([], 0, [], []);
      creates, sweep, deletes := NOTHING.creates, NOTHING.sweep, NOTHING.deletes;
      owned, uncertainEmails := {}, {};
      markerPersisted, cleaning, seen := false, false, {};
    }

    function Kept(): Books
      reads this
    {
      Books(creates, owned, uncertainEmails)
    }

    function Summary(): Stats
      reads this
    {
      Stats(creates, sweep, deletes)
    }

    /** Every created account is owned or deleted; every uncertain create is one of the attempts. */
    ghost predicate Balanced()
      reads this
    {
      && creates.created == |owned| + deletes.deleted
      && creates.unconfirmedCreates == |uncertainEmails|
      && creates.created + creates.unconfirmedCreates <= creates.createAttempts <= sessions
      && creates.signInAttempts <= creates.created && AllVouched(seen, owned) && AllDescribed(seen, described)
    }

    /** Nothing but creating and signing in has happened. */
    ghost predicate Provisioning()
      reads this
    {
      && deletes.deleteAttempts == deletes.deleted == deletes.cleanupFailed == 0
      && sweep.reconciliationAttempts == sweep.reconciled == 0
    }

    /** What comes back from a create that was sent: an account of ours, kept at once, or an uncertain address. */
    method Keep(f: ProvisionFate) returns (ok: bool)
      requires Balanced() && Provisioning() && f.email !in uncertainEmails
      requires creates.created + creates.unconfirmedCreates < creates.createAttempts
      requires f.create.Answered? && f.create.user.Some? ==> described(f.create.user.value)
      modifies this`creates, this`owned, this`uncertainEmails, this`seen
      ensures Balanced() && Provisioning() && old(seen) <= seen && (ok <==> Acknowledges(f, uuid, old(owned)))
      ensures if ok
              then owned == old(owned) + {f.create.user.value.id} && uncertainEmails == old(uncertainEmails)
                   && creates == old(creates).(created := old(creates).created + 1)
              else owned == old(owned) && uncertainEmails == old(uncertainEmails) + {f.email}
                   && creates == old(creates).(unconfirmedCreates := old(creates).unconfirmedCreates + 1)
    {
      var user := if f.create.Answered? then f.create.user else None;
      if user.None? || !uuid(user.value.id) || !user.value.qualification || !user.value.run || user.value.id in owned {
        uncertainEmails := uncertainEmails + {f.email};
        creates := creates.(unconfirmedCreates := creates.unconfirmedCreates + 1);
        return false;
      }
      Own(user.value);
      return true;
    }

    /** An acknowledged account is kept. */
    method Own(user: User)
      requires Balanced() && user.qualification && user.run && user.id !in owned && described(user)
      requires creates.created + creates.unconfirmedCreates < creates.createAttempts
      modifies this`creates, this`owned, this`seen
      ensures Balanced() && old(seen) <= seen && owned == old(owned) + {user.id}
      ensures creates == old(creates).(created := old(creates).created + 1)
    {
      VouchedToo(seen, owned, user);
      seen := seen + {user};
      owned := owned + {user.id};
      creates := creates.(created := creates.created + 1);
    }

    /** The create and, once an account is kept, the sign-in. */
    method Create(f: ProvisionFate) returns (ok: bool)
      requires Balanced() && Provisioning() && f.email !in uncertainEmails && creates.createAttempts < sessions
      requires f.create.Answered? && f.create.user.Some? ==> described(f.create.user.value)
      modifies this`creates, this`owned, this`uncertainEmails, this`seen
      ensures Balanced() && Provisioning() && old(seen) <= seen
      ensures CreateEnds(f, uuid, old(Kept()), Kept(), ok)
    {
      creates := creates.(createAttempts := creates.createAttempts + 1);
      ok := Keep(f);
      if !ok || f.create.error || !f.signIn.sent {
        return false;
      }
      creates := creates.(signInAttempts := creates.signInAttempts + 1);
      return f.signIn.good;
    }

    /** provision. Ownership is kept before anything that can fail; a create without a usable answer is uncertain. */
    method Provision(f: ProvisionFate) returns (ok: bool)
      requires Balanced() && Provisioning() && f.email !in uncertainEmails
      requires f.create.Answered? && f.create.user.Some? ==> described(f.create.user.value)
      modifies this`creates, this`owned, this`uncertainEmails, this`seen, this`markerPersisted
      ensures Balanced() && Provisioning() && old(seen) <= seen
      ensures (creates.createAttempts, markerPersisted) ==
              if cleaning then (old(creates).createAttempts, old(markerPersisted))
              else BegunBy(f, old(creates).createAttempts, old(markerPersisted), sessions)
      ensures
        if !cleaning && GoesOut(f, old(creates).createAttempts, old(markerPersisted), sessions)
        then CreateEnds(f, uuid, old(Kept()), Kept(), ok)
        else !ok && Kept() == old(Kept())
    {
      if !f.open || cleaning || creates.createAttempts >= sessions {
        return false;
      }
      if !markerPersisted {
        if !f.marker {
          return false;
        }
        markerPersisted := true;
      }
      if f.create.NotSent? {
        return false;
      }
      ok := Create(f);
    }

    /** One call of provision after others. */
    method ProvisionNext(provisions: seq<ProvisionFate>, i: nat)
      requires Balanced() && Provisioning() && !cleaning && i < |provisions|
      requires FreshEmails(provisions) && AnswersDescribed(provisions, described)
      requires uncertainEmails <= Emails(provisions, i) && AllKept(provisions, i, sessions, uuid, owned)
      requires (creates.createAttempts, markerPersisted) == Begun(provisions, i, sessions)
      modifies this`creates, this`owned, this`uncertainEmails, this`seen, this`markerPersisted
      ensures Balanced() && Provisioning()
      ensures uncertainEmails <= Emails(provisions, i + 1) && AllKept(provisions, i + 1, sessions, uuid, owned)
      ensures (creates.createAttempts, markerPersisted) == Begun(provisions, i + 1, sessions)
    {
      ghost var before := owned;
      NewEmail(provisions, i, i);
      var _ := Provision(provisions[i]);
      KeptNext(provisions, i, sessions, uuid, before, owned);
    }

    /** Calls of provision one after another: what is kept stays kept. */
    method ProvisionAll(provisions: seq<ProvisionFate>)
      requires Balanced() && Provisioning() && !cleaning && creates.createAttempts == 0 && !markerPersisted
      requires uncertainEmails == {}
      requires FreshEmails(provisions) && AnswersDescribed(provisions, described)
      modifies this`creates, this`owned, this`uncertainEmails, this`seen, this`markerPersisted
      ensures Balanced() && Provisioning()
      ensures creates.createAttempts == Begun(provisions, |provisions|, sessions).0
      ensures AllKept(provisions, |provisions|, sessions, uuid, owned)
    {
      for i := 0 to |provisions|
        invariant Balanced() && Provisioning()
        invariant uncertainEmails <= Emails(provisions, i)
        invariant (creates.createAttempts, markerPersisted) == Begun(provisions, i, sessions)
        invariant AllKept(provisions, i, sessions, uuid, owned)
      {
        ProvisionNext(provisions, i);
      }
    }

    /** One account on a page of the reconciliation scan: none that carries both tags is passed over in silence,
        and only one that settles an uncertain create becomes ours. */
    method Consider(user: User)
      requires Balanced() && deletes.deleted == 0 && described(user)
      modifies this`creates, this`sweep, this`owned, this`uncertainEmails, this`seen
      ensures Balanced() && deletes.deleted == 0
      ensures user.qualification && user.run ==> user.id in owned || sweep.reconciliationFailed
      ensures old(sweep).reconciliationFailed ==> sweep.reconciliationFailed
      ensures
        var settles := Ours(user, uuid) && user.id !in old(owned) && user.email in old(uncertainEmails)
                       && old(creates).created < old(creates).createAttempts;
        if settles then
          && owned == old(owned) + {user.id} && uncertainEmails == old(uncertainEmails) - {user.email}
          && creates == old(creates).(created := old(creates).created + 1,
                                      unconfirmedCreates := old(creates).unconfirmedCreates - 1)
          && sweep == old(sweep).(reconciled := old(sweep).reconciled + 1)
        else
          && owned == old(owned) && uncertainEmails == old(uncertainEmails)
          && creates == old(creates) && sweep == old(sweep).(reconciliationFailed := sweep.reconciliationFailed)
          && (sweep.reconciliationFailed <==>
                old(sweep).reconciliationFailed
                || (user.qualification && user.run && (!uuid(user.id) || user.id !in old(owned))))
    {
      if !user.qualification || !user.run {
        return;
      }
      if !uuid(user.id) {
        sweep := sweep.(reconciliationFailed := true);
        return;
      }
      if user.id in owned {
        return;
      }
      if user.email !in uncertainEmails || creates.created >= creates.createAttempts {
        sweep := sweep.(reconciliationFailed := true);
        return;
      }
      VouchedToo(seen, owned, user);
      seen := seen + {user};
      owned := owned + {user.id};
      uncertainEmails := uncertainEmails - {user.email};
      creates := creates.(created := creates.created + 1, unconfirmedCreates := creates.unconfirmedCreates - 1);
      sweep := sweep.(reconciled := sweep.reconciled + 1);
    }

    /** The accounts on one page of the scan. */
    method Scan(users: seq<User>)
      requires Balanced() && deletes.deleted == 0 && forall i :: 0 <= i < |users| ==> described(users[i])
      modifies this`creates, this`sweep, this`owned, this`uncertainEmails, this`seen
      ensures Balanced() && old(owned) <= owned && (old(sweep).reconciliationFailed ==> sweep.reconciliationFailed)
      ensures PageSettled(users, |users|, owned, sweep.reconciliationFailed)
      ensures creates == old(creates).(created := creates.created, unconfirmedCreates := creates.unconfirmedCreates)
      ensures sweep.reconciliationAttempts == old(sweep).reconciliationAttempts
    {
      for i := 0 to |users|
        invariant Balanced() && old(owned) <= owned && (old(sweep).reconciliationFailed ==> sweep.reconciliationFailed)
        invariant PageSettled(users, i, owned, sweep.reconciliationFailed)
        invariant creates == old(creates).(created := creates.created, unconfirmedCreates := creates.unconfirmedCreates)
        invariant sweep.reconciliationAttempts == old(sweep).reconciliationAttempts
      {
        ghost var before, failed := owned, sweep.reconciliationFailed;
        Consider(users[i]);
        SettledMore(users, i, before, failed, owned, sweep.reconciliationFailed);
      }
    }

    /** reconcile: at most as many pages as leave a delete for every create within the budget; on every page that
        was read, no account with both tags is lost. */
    method Reconcile(pages: seq<PageFate>) returns (ok: bool, scanned: nat)
      requires Balanced() && Provisioning()
      requires forall p, i :: 0 <= p < |pages| && pages[p].Page? && 0 <= i < |pages[p].users| ==>
        described(pages[p].users[i])
      modifies this`creates, this`sweep, this`owned, this`uncertainEmails, this`seen
      ensures Balanced() && old(owned) <= owned
      ensures deletes.deleteAttempts == deletes.deleted == deletes.cleanupFailed == 0
      ensures creates.createAttempts == old(creates).createAttempts
        && creates.signInAttempts == old(creates).signInAttempts
      ensures Requests(Summary()) + creates.createAttempts <= 3 * sessions
      ensures AllSettled(pages, scanned, owned, sweep.reconciliationFailed)
        && scanned <= sweep.reconciliationAttempts <= scanned + 1
      ensures ok ==> 0 < scanned && (creates.unconfirmedCreates == 0 || |pages[scanned - 1].users| < PAGE_SIZE)
    {
      var allowance := 3 * sessions - 2 * creates.createAttempts - creates.signInAttempts;
      var maxPages := if sessions < allowance then sessions else allowance;
      var page := 0;
      while page < maxPages
        invariant 0 <= page <= maxPages && Balanced() && old(owned) <= owned
        invariant deletes.deleteAttempts == deletes.deleted == deletes.cleanupFailed == 0
        invariant creates.createAttempts == old(creates).createAttempts
          && creates.signInAttempts == old(creates).signInAttempts
        invariant sweep.reconciliationAttempts == page
        invariant AllSettled(pages, page, owned, sweep.reconciliationFailed)
      {
        scanned := page;
        var fate := if page < |pages| then pages[page] else PageLost(false);
        page := page + 1;
        if fate.PageLost? {
          if fate.sent {
            sweep := sweep.(reconciliationAttempts := sweep.reconciliationAttempts + 1);
          }
          return false, scanned;
        }
        sweep := sweep.(reconciliationAttempts := sweep.reconciliationAttempts + 1);
        if |fate.users| > PAGE_SIZE {
          return false, scanned;
        }
        ghost var before, failed := owned, sweep.reconciliationFailed;
        Scan(fate.users);
        SettledNext(pages, scanned, before, failed, owned, sweep.reconciliationFailed);
        if creates.unconfirmedCreates == 0 || |fate.users| < PAGE_SIZE {
          return true, page;
        }
      }
      return false, page;
    }

    // ---- cleanup

    /** The deletion phase: the books still balance, and every account taken has been deleted, has failed, or is
        in some worker's hands. */
    ghost predicate Deleting()
      reads this
    {
      && Balanced() && Working(crew, owned) && deletes.deleteAttempts == |crew.targets|
      && deletes.deleted + deletes.cleanupFailed + Busy(crew.hands) == crew.cursor
      && creates.created == |crew.pending|
      && forall k :: 0 <= k < |crew.pending| ==> Vouched(seen, crew.pending[k])
    }

    method Take(w: nat)
      requires Deleting() && w < |crew.hands| && crew.hands[w].None? && crew.cursor < |crew.pending|
      modifies this`crew
      ensures Deleting() && crew == Worked(old(crew), Turn(w, false))
    {
      TakeKeeps(crew, owned, w);
      BusyUpdate(crew.hands, w, Some(Hand(crew.cursor, false)));
      crew := crew.(cursor := crew.cursor + 1, hands := crew.hands[w := Some(Hand(crew.cursor, false))]);
    }

    method GiveUp(w: nat)
      requires Deleting() && w < |crew.hands| && crew.hands[w].Some?
      modifies this`deletes, this`crew
      ensures Deleting() && crew == Worked(old(crew), Turn(w, false))
      ensures deletes == old(deletes).(cleanupFailed := old(deletes).cleanupFailed + 1)
    {
      DropKeeps(crew, owned, w);
      BusyUpdate(crew.hands, w, None);
      crew := crew.(hands := crew.hands[w := None]);
      deletes := deletes.(cleanupFailed := deletes.cleanupFailed + 1);
    }

    method SendDelete(w: nat)
      requires Deleting() && w < |crew.hands| && crew.hands[w].Some? && !crew.hands[w].value.sent
      modifies this`deletes, this`crew
      ensures Deleting() && crew == Worked(old(crew), Turn(w, true))
      ensures deletes == old(deletes).(deleteAttempts := old(deletes).deleteAttempts + 1)
    {
      var index := crew.hands[w].value.index;
      SendKeeps(crew, owned, w);
      BusyUpdate(crew.hands, w, Some(Hand(index, true)));
      crew := crew.(hands := crew.hands[w := Some(Hand(index, true))], targets := crew.targets + [crew.pending[index]]);
      deletes := deletes.(deleteAttempts := deletes.deleteAttempts + 1);
    }

    method Confirm(w: nat)
      requires Deleting() && w < |crew.hands| && crew.hands[w].Some? && crew.hands[w].value.sent
      modifies this`deletes, this`owned, this`crew
      ensures Deleting() && crew == Worked(old(crew), Turn(w, true))
      ensures deletes == old(deletes).(deleted := old(deletes).deleted + 1)
      ensures owned == old(owned) - {old(crew).pending[old(crew).hands[w].value.index]}
    {
      DeleteKeeps(crew, owned, w);
      BusyUpdate(crew.hands, w, None);
      owned := owned - {crew.pending[crew.hands[w].value.index]};
      crew := crew.(hands := crew.hands[w := None]);
      deletes := deletes.(deleted := deletes.deleted + 1);
    }

    /** One step of one worker, whichever it is. */
    method TakeTurn(turn: Turn)
      requires Deleting()
      modifies this`deletes, this`owned, this`crew
      ensures Deleting() && crew == Worked(old(crew), turn)
      ensures deletes == Charged(old(deletes), old(crew), turn)
      ensures owned == if Confirms(old(crew), turn)
                       then old(owned) - {old(crew).pending[old(crew).hands[turn.worker].value.index]} else old(owned)
    {
      var w := turn.worker;
      if w < |crew.hands| {
        match crew.hands[w] {
          case None =>
            if crew.cursor < |crew.pending| {
              Take(w);
            }
          case Some(hand) =>
            if !turn.good {
              GiveUp(w);
            } else if !hand.sent {
              SendDelete(w);
            } else {
              Confirm(w);
            }
        }
      }
    }

    /** The keys of owned, in some order. */
    method OwnedIds() returns (ids: seq<string>)
      ensures NoRepeat(ids) && |ids| == |owned| && forall id :: id in owned <==> id in ids
    {
      ids := [];
      var rest := owned;
      while rest != {}
        invariant rest <= owned && NoRepeat(ids) && |ids| + |rest| == |owned|
        invariant forall id :: id in owned <==> id in ids || id in rest
        invariant forall id :: id in ids ==> id !in rest
      {
        var id :| id in rest;
        ids, rest := ids + [id], rest - {id};
      }
    }

    /** Reconciliation, when there is anything to reconcile. */
    method Resolve(pages: seq<PageFate>) returns (read: nat)
      requires Balanced() && Provisioning() && !cleaning
      requires forall p, i :: 0 <= p < |pages| && pages[p].Page? && 0 <= i < |pages[p].users| ==>
        described(pages[p].users[i])
      modifies this`cleaning, this`creates, this`sweep, this`owned, this`uncertainEmails, this`seen
      ensures Balanced() && old(owned) <= owned
        && deletes.deleteAttempts == deletes.deleted == deletes.cleanupFailed == 0
      ensures creates.createAttempts == old(creates).createAttempts
      ensures Requests(Summary()) + |owned| <= 3 * sessions
      ensures AllSettled(pages, read, owned, sweep.reconciliationFailed) && Swept(pages, read, creates, sweep)
    {
      cleaning := true;
      read := 0;
      if creates.unconfirmedCreates != 0 {
        var ok;
        ok, read := Reconcile(pages);
        if !ok {
          sweep := sweep.(reconciliationFailed := true);
        }
      }
    }

    /** The first half of cleanup: reconciliation, and the list the workers share. */
    method Gather(pages: seq<PageFate>) returns (read: nat)
      requires Balanced() && Provisioning() && !cleaning
      requires forall p, i :: 0 <= p < |pages| && pages[p].Page? && 0 <= i < |pages[p].users| ==>
        described(pages[p].users[i])
      modifies this
      ensures Deleting() && deletes == NOTHING.deletes && crew == Crewed(crew.pending)
        && Requests(Summary()) + |crew.pending| <= 3 * sessions
      ensures creates.createAttempts == old(creates).createAttempts
      ensures forall id :: id in old(owned) ==> id in crew.pending
      ensures AllSettled(pages, read, Ids(crew.pending), sweep.reconciliationFailed)
        && Swept(pages, read, creates, sweep)
    {
      read := Resolve(pages);
      var ids := OwnedIds();
      crew := Crewed(ids);
      NoneBusy(crew.hands);
      assert Ids(ids) == owned;
    }

    /** The workers' steps, in the order of the schedule. */
    method Work(schedule: seq<Turn>)
      requires Deleting()
      modifies this`deletes, this`owned, this`crew
      ensures Deleting() && crew == Labored(old(crew), schedule) && crew.pending == old(crew).pending
      ensures forall id :: id in crew.pending ==> id in owned || id in crew.targets
      ensures AllGood(schedule) ==> deletes.cleanupFailed == old(deletes).cleanupFailed
    {
      for i := 0 to |schedule|
        invariant Deleting() && crew == Labored(old(crew), schedule[..i]) && crew.pending == old(crew).pending
        invariant AllGood(schedule) ==> deletes.cleanupFailed == old(deletes).cleanupFailed
      {
        assert schedule[..i + 1][..i] == schedule[..i];
        TakeTurn(schedule[i]);
      }
      assert schedule[..|schedule|] == schedule;
    }

    /** cleanup: uncertain creates are reconciled first; then the workers run, in any interleaving the schedule
        describes and as far as it goes. `done` is whether all of them have drained the list. */
    method Cleanup(pages: seq<PageFate>, schedule: seq<Turn>) returns (read: nat, done: bool)
      requires Balanced() && Provisioning() && !cleaning
      requires forall p, i :: 0 <= p < |pages| && pages[p].Page? && 0 <= i < |pages[p].users| ==>
        described(pages[p].users[i])
      modifies this
      ensures Deleting() && Requests(Summary()) <= 3 * sessions && creates.createAttempts == old(creates).createAttempts
      ensures forall id :: id in old(owned) ==> id in owned || id in crew.targets
      ensures AllSettled(pages, read, owned + Ids(crew.targets), sweep.reconciliationFailed)
      ensures Swept(pages, read, creates, sweep)
      ensures crew == Labored(Crewed(crew.pending), schedule) && NoRepeat(crew.pending)
      ensures |crew.pending| == creates.created && (done <==> Drained(crew))
      ensures done ==> |owned| == deletes.cleanupFailed
      ensures AllGood(schedule) ==> deletes.cleanupFailed == 0
    {
      read := Gather(pages);
      ghost var ids := crew.pending;
      Work(schedule);
      TargetsBounded(crew, owned);
      SettledStays(pages, read, Ids(ids), owned + Ids(crew.targets), sweep.reconciliationFailed);
      done := Drained(crew);
    }
  }

  lemma {:induction false} NoneBusy(hands: seq<Option<Hand>>)
    requires forall w :: 0 <= w < |hands| ==> hands[w].None?
    ensures Busy(hands) == 0
  {
    if hands != [] {
      NoneBusy(hands[..|hands| - 1]);
    }
  }

  // ---- whole runs

  /** The provider described this account, in answer to a create or on a page of the scan. */
  ghost predicate Described(provisions: seq<ProvisionFate>, pages: seq<PageFate>, u: User) {
    || (exists i :: 0 <= i < |provisions| && provisions[i].create.Answered? && provisions[i].create.user == Some(u))
    || (exists p :: 0 <= p < |pages| && pages[p].Page? && u in pages[p].users)
  }

  /** How a run ends; `read` is how many pages of the scan were read, `done` whether the workers drained the list. */
  datatype Report = Report(stats: Stats, owned: set<string>, crew: Crew, read: nat, done: bool)

  /** Any number of provisions, then cleanup, every call ending any way it can. Accounts are conserved, uncertain
      creates are accounted for, all requests stay within three per session, no account is deleted twice, and only
      accounts the provider described with both tags are deleted at all. Every create that could go out did, and
      every acknowledged account is still owned or was sent a delete. So is every account with both tags on a page
      that the scan has read, unless the scan is marked as failed; and it is, if it stopped too early. The workers do
      what the schedule has them do, and what is left once they have drained the list is exactly what failed. A
      schedule with three rounds for each account always drains it, and with good calls throughout nothing is left. */
  method Lifecycle(sessions: nat, uuid: string -> bool, provisions: seq<ProvisionFate>, pages: seq<PageFate>,
                   schedule: seq<Turn>) returns (report: Report)
    requires FreshEmails(provisions)
    ensures report.stats.creates.created == |report.owned| + report.stats.deletes.deleted
    ensures 0 <= report.stats.creates.unconfirmedCreates
    ensures var c := report.stats.creates; c.created + c.unconfirmedCreates <= c.createAttempts <= sessions
    ensures Requests(report.stats) <= 3 * sessions
    ensures NoRepeat(report.crew.targets) && |report.crew.targets| == report.stats.deletes.deleteAttempts
    ensures forall t :: t in report.crew.targets ==>
      exists u :: Described(provisions, pages, u) && u.id == t && u.qualification && u.run
    ensures report.crew == Labored(Crewed(report.crew.pending), schedule) && NoRepeat(report.crew.pending)
    ensures |report.crew.pending| == report.stats.creates.created
    ensures report.done ==> |report.owned| == report.stats.deletes.cleanupFailed
    ensures Rounds(schedule, 3 * report.stats.creates.created) ==> report.done
    ensures report.done && AllGood(schedule) ==> report.owned == {}
    ensures report.stats.creates.createAttempts == Begun(provisions, |provisions|, sessions).0
    ensures forall i :: 0 <= i < |provisions| && Acknowledged(provisions, i, sessions, uuid) ==>
      var id := provisions[i].create.user.value.id; id in report.owned || id in report.crew.targets
    ensures report.read <= |pages|
    ensures forall p, i :: 0 <= p < report.read && pages[p].Page? && 0 <= i < |pages[p].users| ==>
      var u := pages[p].users[i];
      u.qualification && u.run ==>
        u.id in report.owned || u.id in report.crew.targets || report.stats.sweep.reconciliationFailed
    ensures Swept(pages, report.read, report.stats.creates, report.stats.sweep)
  {
    ghost var described := (u: User) => Described(provisions, pages, u);
    var services := new Services(sessions, uuid, described);
    services.ProvisionAll(provisions);
    forall p, i | 0 <= p < |pages| && pages[p].Page? && 0 <= i < |pages[p].users|
      ensures described(pages[p].users[i])
    {
      assert pages[p].users[i] in pages[p].users;
    }
    var read, done := services.Cleanup(pages, schedule);
    if Rounds(schedule, 3 * |services.crew.pending|) {
      FairDrains(services.crew.pending, schedule);
    }
    report := Report(services.Summary(), services.owned, services.crew, read, done);
    forall p, i | 0 <= p < read && pages[p].Page? && 0 <= i < |pages[p].users|
      ensures var u := pages[p].users[i];
        u.qualification && u.run ==>
          u.id in report.owned || u.id in report.crew.targets || report.stats.sweep.reconciliationFailed
    {
      assert PageSettled(pages[p].users, |pages[p].users|, report.owned + Ids(report.crew.targets),
                         report.stats.sweep.reconciliationFailed);
    }
    forall t | t in report.crew.targets
      ensures exists u :: Described(provisions, pages, u) && u.id == t && u.qualification && u.run
    {
      assert t in services.crew.pending;
      var u :| u in services.seen && u.id == t && u.qualification && u.run;
      assert described(u);
    }
  }
}
