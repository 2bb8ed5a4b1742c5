/** execute of scripts/gate1-vercel-build-diagnostic.js: the lock, the reservation, the container and the report
    of one approved attempt, interleaved with any number of other attempts, every call able to fail. */
module OneAttempt {
  import opened Wrappers

  /** Where an attempt stands: before each call it makes. */
  datatype Pc = CheckReservation | CheckReport | Locking | Stating | Reserving | Readying | Creating | Starting
    | TearingDown | Reporting | Comparing | Unlinking | Returned | Thrown

  datatype Verdict = Completed | Stopped

  /** What cost an attempt its evidence: the write of its report, the check of the lock's identity, or its removal. */
  datatype Loss = Nothing | Write | Identity | Removal

  /** What an attempt has done so far: what its flags say, whether a container of it may still exist, and whether it
      removed the lock. */
  datatype Deeds = Deeds(isReserved: bool, createAttempted: bool, removed: bool, validated: bool, clean: bool,
                         persistenceFailure: bool, teardownUnconfirmed: bool, alive: bool, released: bool)

  /** One attempt: its key, its next call, the lock as it saw it, its result, and what its evidence was lost to. */
  datatype Attempt = Attempt(key: string, pc: Pc, stat: nat, did: Deeds, result: Verdict, lost: Loss)

  const NONE := Deeds(false, false, false, false, false, false, false, false, false)

  function Fresh(key: string): Attempt { Attempt(key, CheckReservation, 0, NONE, Stopped, Nothing) }

  /** A lock file: its identity on disk and the attempt that created it. */
  datatype LockFile = LockFile(inode: nat, owner: nat)

  /** A report as it was written; an interrupted write leaves it incomplete. */
  datatype Saved = Saved(owner: nat, result: Verdict, complete: bool)

  datatype State = State(lock: Option<LockFile>, nextInode: nat, reserved: map<string, nat>,
                         reports: map<string, Saved>, attempts: map<nat, Attempt>)

  /** How a call ends. Partial: the file was created, but writing or syncing it failed. Unclean: the container is
      gone but did not exit cleanly. After Failed, `leftover` says whether a container exists all the same. */
  datatype Outcome = Fine | Failed(leftover: bool) | Partial | Unclean

  /** What the attempt meets on disk. */
  datatype Sight = Sight(locked: bool, inode: nat, keyReserved: bool, keyReported: bool)

  function See(s: State, a: Attempt): Sight {
    Sight(s.lock.Some?, if s.lock.Some? then s.lock.value.inode else 0, a.key in s.reserved, a.key in s.reports)
  }

  /** catch, and the first half of finally: what is reported when the work stops. */
  function Stop(a: Attempt): Attempt {
    a.(result := Stopped, pc := Reporting,
       did := a.did.(persistenceFailure := a.did.persistenceFailure || !a.did.isReserved,
                     teardownUnconfirmed := a.did.createAttempted))
  }

  function AfterReport(a: Attempt): Attempt {
    a.(pc := if !a.did.persistenceFailure && (!a.did.createAttempted || a.did.removed) then Comparing else Returned)
  }

  /** The report is not safe, or the lock could not be given back. */
  function LoseEvidence(a: Attempt): Attempt {
    a.(did := a.did.(persistenceFailure := true), result := Stopped,
       lost := if a.pc.Reporting? then Write else if a.pc.Comparing? then Identity else Removal)
  }

  predicate SettingUp(pc: Pc) {
    pc.CheckReservation? || pc.CheckReport? || pc.Locking? || pc.Stating? || pc.Reserving?
  }

  /** The calls up to the reservation. */
  function SetUp(a: Attempt, o: Outcome, v: Sight): (b: Attempt)
    requires SettingUp(a.pc)
    ensures b.key == a.key && b.lost == a.lost && !b.pc.Returned?
  {
    match a.pc
    case CheckReservation => a.(pc := if v.keyReserved then Thrown else CheckReport)
    case CheckReport => a.(pc := if v.keyReported then Thrown else Locking)
    case Locking => a.(pc := if v.locked || !o.Fine? then Thrown else Stating)
    case Stating => if o.Failed? || !v.locked then a.(pc := Thrown) else a.(stat := v.inode, pc := Reserving)
    case Reserving => if !o.Fine? || v.keyReserved then Stop(a)
      else a.(did := a.did.(isReserved := true), pc := Readying)
  }

  /** The container's calls. */
  function Work(a: Attempt, o: Outcome): (b: Attempt)
    requires Working(a.pc)
    ensures b.key == a.key && b.lost == a.lost && !b.pc.Returned?
  {
    match a.pc
    case Readying => if o.Fine? then a.(pc := Creating) else Stop(a)
    case Creating =>
      if o.Fine? then a.(did := a.did.(createAttempted := true, alive := true), pc := Starting)
      else Stop(a.(did := a.did.(createAttempted := true, alive := o.Failed? && o.leftover)))
    case Starting =>
      if o.Fine? then a.(did := a.did.(validated := true), result := Completed, pc := TearingDown)
        else a.(pc := TearingDown)
    case TearingDown =>
      if o.Fine? then a.(did := a.did.(removed := true, alive := false, clean := true), pc := Reporting)
      else if o.Unclean? then a.(did := a.did.(removed := true, alive := false), result := Stopped, pc := Reporting)
      else a.(did := a.did.(teardownUnconfirmed := true), result := Stopped, pc := Reporting)
  }

  /** The report, and giving the lock back. */
  function WindUp(a: Attempt, o: Outcome, v: Sight): (b: Attempt)
    requires a.pc.Reporting? || Final(a.pc)
    ensures b.key == a.key
  {
    match a.pc
    case Reporting => AfterReport(if !o.Fine? || v.keyReported then LoseEvidence(a) else a)
    case Comparing => if o.Failed? || !v.locked || v.inode != a.stat then Leave(LoseEvidence(a))
      else a.(pc := Unlinking)
    case Unlinking => if o.Failed? then Leave(LoseEvidence(a)) else a.(did := a.did.(released := true), pc := Returned)
  }

  function Leave(a: Attempt): Attempt { a.(pc := Returned) }

  /** What one call does to the attempt that makes it. */
  function Move(a: Attempt, o: Outcome, v: Sight): (b: Attempt)
    ensures b.key == a.key && (!Late(a.pc) ==> b.lost == a.lost && !b.pc.Returned?)
  {
    if SettingUp(a.pc) then SetUp(a, o, v)
    else if Working(a.pc) then Work(a, o)
    else if a.pc.Reporting? || Final(a.pc) then WindUp(a, o, v)
    else a
  }

  /** What one call leaves on disk: exclusive creation, also when the write behind it fails, and one removal. */
  function Save(s: State, id: nat, o: Outcome): State
    requires id in s.attempts
  {
    var a := s.attempts[id];
    if a.pc.Locking? && s.lock.None? && !o.Failed? then
      s.(lock := Some(LockFile(s.nextInode, id)), nextInode := s.nextInode + 1)
    else if a.pc.Reserving? && a.key !in s.reserved && !o.Failed? then s.(reserved := s.reserved[a.key := id])
    else if a.pc.Reporting? && a.key !in s.reports && !o.Failed? then
      s.(reports := s.reports[a.key := Saved(id, a.result, o.Fine?)])
    else if a.pc.Unlinking? && !o.Failed? then s.(lock := None)
    else s
  }

  /** One call of one attempt. */
  function Step(s: State, id: nat, o: Outcome): State
    requires id in s.attempts
  {
    Save(s, id, o).(attempts := s.attempts[id := Move(s.attempts[id], o, See(s, s.attempts[id]))])
  }

  datatype Event = Event(id: nat, outcome: Outcome)

  /** Attempts on any keys start together; each event is the next call of one of them. */
  function Run(keys: map<nat, string>, events: seq<Event>): (s: State)
    ensures s.attempts.Keys == keys.Keys
  {
    if events == [] then State(None, 0, map[], map[], map id | id in keys :: Fresh(keys[id]))
    else
      var last, before := events[|events| - 1], Run(keys, events[..|events| - 1]);
      if last.id in before.attempts then Step(before, last.id, last.outcome) else before
  }

  // ---- what every interleaving keeps

  predicate Holding(pc: Pc) {
    !(pc.CheckReservation? || pc.CheckReport? || pc.Locking? || pc.Returned? || pc.Thrown?)
  }

  predicate Late(pc: Pc) { pc.Reporting? || pc.Comparing? || pc.Unlinking? || pc.Returned? }

  predicate Working(pc: Pc) { pc.Readying? || pc.Creating? || pc.Starting? || pc.TearingDown? }

  predicate Final(pc: Pc) { pc.Comparing? || pc.Unlinking? }

  /** Nothing has been created, and nothing is reserved unless `reserved` says so. */
  predicate Untouched(a: Attempt, reserved: bool) {
    && a.did.isReserved == reserved && !a.did.createAttempted && !a.did.removed && !a.did.alive && !a.did.released
    && a.result.Stopped? && !a.did.persistenceFailure
  }

  /** The attempt's own flags agree with how far it is. */
  predicate Consistent(a: Attempt) {
    && (a.did.createAttempted ==> a.did.isReserved) && (a.did.removed ==> a.did.createAttempted && !a.did.alive)
    && (a.did.alive ==> a.did.createAttempted)
    && match a.pc
       case Readying => Untouched(a, true)
       case Creating => Untouched(a, true)
       case Starting =>
         && a.did.createAttempted && !a.did.removed && !a.did.released && !a.did.persistenceFailure && a.result.Stopped?
       case TearingDown =>
         && a.did.createAttempted && !a.did.removed && !a.did.released && !a.did.persistenceFailure
         && (a.result.Completed? ==> a.did.validated)
       case Reporting =>
         && !a.did.released && Earned(a) && (a.did.isReserved || a.did.persistenceFailure)
         && (a.did.persistenceFailure ==> a.result.Stopped?)
       case Comparing => !a.did.released && Releasable(a) && Earned(a)
       case Unlinking => !a.did.released && Releasable(a) && Earned(a)
       case Returned => (a.did.released ==> Releasable(a)) && Earned(a) && (a.result.Completed? ==> a.did.released)
       case _ => Untouched(a, false)
  }

  /** A completed result has a validated report behind it and a container that is gone and exited cleanly. */
  predicate Earned(a: Attempt) {
    a.result.Completed? ==> a.did.isReserved && a.did.removed && a.did.validated && a.did.clean
  }

  /** The report is safe, and no container can be left. */
  predicate Releasable(a: Attempt) {
    a.did.isReserved && !a.did.persistenceFailure && (!a.did.createAttempted || a.did.removed)
  }

  /** The attempt agrees with the files. */
  predicate Backed(s: State, id: nat, a: Attempt) {
    && (Holding(a.pc) ==> s.lock.Some? && s.lock.value.owner == id)
    && (Holding(a.pc) && !a.pc.Stating? ==> s.lock.value.inode == a.stat)
    && (a.did.alive ==> s.lock.Some? && s.lock.value.owner == id)
    && (a.did.isReserved ==> a.key in s.reserved && s.reserved[a.key] == id)
    && (Final(a.pc) || a.did.released ==>
          a.key in s.reports && s.reports[a.key].owner == id && s.reports[a.key].complete
          && (a.result.Completed? ==> s.reports[a.key].result.Completed?))
  }

  ghost predicate Inv(s: State) {
    forall id :: id in s.attempts ==> Consistent(s.attempts[id]) && Backed(s, id, s.attempts[id])
  }

  lemma SetUpConsistent(a: Attempt, o: Outcome, v: Sight)
    requires Consistent(a) && !Working(a.pc) && !Late(a.pc)
    ensures Consistent(Move(a, o, v))
  {
  }

  lemma WorkConsistent(a: Attempt, o: Outcome, v: Sight)
    requires Consistent(a) && Working(a.pc) && !a.pc.TearingDown?
    ensures Consistent(Move(a, o, v))
  {
  }

  lemma TeardownConsistent(a: Attempt, o: Outcome, v: Sight)
    requires Consistent(a) && a.pc.TearingDown?
    ensures Consistent(Move(a, o, v))
  {
  }

  lemma ReportConsistent(a: Attempt, o: Outcome, v: Sight)
    requires Consistent(a) && (a.pc.Reporting? || a.pc.Returned?)
    ensures Consistent(Move(a, o, v))
  {
  }

  lemma ReleaseConsistent(a: Attempt, o: Outcome, v: Sight)
    requires Consistent(a) && Final(a.pc)
    ensures Consistent(Move(a, o, v))
  {
  }

  lemma MoveConsistent(a: Attempt, o: Outcome, v: Sight)
    requires Consistent(a)
    ensures Consistent(Move(a, o, v))
  {
    if a.pc.TearingDown? {
      TeardownConsistent(a, o, v);
    } else if Working(a.pc) {
      WorkConsistent(a, o, v);
    } else if Final(a.pc) {
      ReleaseConsistent(a, o, v);
    } else if Late(a.pc) {
      ReportConsistent(a, o, v);
    } else {
      SetUpConsistent(a, o, v);
    }
  }

  lemma SetUpBacked(s: State, id: nat, o: Outcome)
    requires id in s.attempts && Consistent(s.attempts[id]) && Backed(s, id, s.attempts[id])
    requires SettingUp(s.attempts[id].pc)
    ensures Backed(Step(s, id, o), id, Step(s, id, o).attempts[id])
  {
  }

  lemma WorkBacked(s: State, id: nat, o: Outcome)
    requires id in s.attempts && Consistent(s.attempts[id]) && Backed(s, id, s.attempts[id])
    requires Working(s.attempts[id].pc)
    ensures Backed(Step(s, id, o), id, Step(s, id, o).attempts[id])
  {
  }

  lemma WindUpBacked(s: State, id: nat, o: Outcome)
    requires id in s.attempts && Consistent(s.attempts[id]) && Backed(s, id, s.attempts[id])
    requires s.attempts[id].pc.Reporting? || Final(s.attempts[id].pc)
    ensures Backed(Step(s, id, o), id, Step(s, id, o).attempts[id])
  {
  }

  lemma StepBacked(s: State, id: nat, o: Outcome)
    requires id in s.attempts && Consistent(s.attempts[id]) && Backed(s, id, s.attempts[id])
    ensures Backed(Step(s, id, o), id, Step(s, id, o).attempts[id])
  {
    var pc := s.attempts[id].pc;
    if SettingUp(pc) {
      SetUpBacked(s, id, o);
    } else if Working(pc) {
      WorkBacked(s, id, o);
    } else if pc.Reporting? || Final(pc) {
      WindUpBacked(s, id, o);
    }
  }

  /** A step of one attempt takes nothing from another. */
  lemma StepSparesOthers(s: State, id: nat, o: Outcome, other: nat)
    requires id in s.attempts && other in s.attempts && other != id
    requires Consistent(s.attempts[id]) && Backed(s, id, s.attempts[id])
    requires Consistent(s.attempts[other]) && Backed(s, other, s.attempts[other])
    ensures Step(s, id, o).attempts[other] == s.attempts[other] && Backed(Step(s, id, o), other, s.attempts[other])
  {
  }

  lemma {:induction false} RunsKeep(keys: map<nat, string>, events: seq<Event>)
    ensures Inv(Run(keys, events))
  {
    if events != [] {
      var last, before := events[|events| - 1], Run(keys, events[..|events| - 1]);
      RunsKeep(keys, events[..|events| - 1]);
      if last.id in before.attempts {
        var after := Step(before, last.id, last.outcome);
        forall id | id in after.attempts
          ensures Consistent(after.attempts[id]) && Backed(after, id, after.attempts[id])
        {
          if id == last.id {
            MoveConsistent(before.attempts[id], last.outcome, See(before, before.attempts[id]));
            StepBacked(before, id, last.outcome);
          } else {
            StepSparesOthers(before, last.id, last.outcome, id);
          }
        }
      }
    }
  }

  // ---- what that means

  /** At most one attempt is between taking the lock and giving it back. */
  lemma OneHolder(keys: map<nat, string>, events: seq<Event>, i: nat, j: nat)
    requires i in keys && j in keys
    requires Holding(Run(keys, events).attempts[i].pc) && Holding(Run(keys, events).attempts[j].pc)
    ensures i == j
  {
    RunsKeep(keys, events);
  }

  /** At most one attempt per key passes the reservation. */
  lemma OneReservation(keys: map<nat, string>, events: seq<Event>, i: nat, j: nat)
    requires i in keys && j in keys
    requires var s := Run(keys, events);
      s.attempts[i].did.isReserved && s.attempts[j].did.isReserved && s.attempts[i].key == s.attempts[j].key
    ensures i == j
  {
    RunsKeep(keys, events);
  }

  /** While the lock is free, no container of any attempt is left. */
  lemma FreeLockMeansNoContainer(keys: map<nat, string>, events: seq<Event>, id: nat)
    requires id in keys && Run(keys, events).lock.None?
    ensures !Run(keys, events).attempts[id].did.alive
  {
    RunsKeep(keys, events);
  }

  lemma OnlyUnlinkingFrees(s: State, id: nat, o: Outcome)
    requires id in s.attempts && s.lock.Some? && Step(s, id, o).lock.None?
    ensures s.attempts[id].pc.Unlinking?
  {
  }

  /** The lock disappears only at the hand of the attempt that created it, after its complete report is on disk,
      and when it either attempted no container or has confirmed its removal. */
  lemma ReleasedSafely(keys: map<nat, string>, events: seq<Event>, e: Event)
    requires e.id in keys && Run(keys, events).lock.Some? && Step(Run(keys, events), e.id, e.outcome).lock.None?
    ensures var s := Run(keys, events);
      var a := s.attempts[e.id];
      && s.lock.value.owner == e.id && a.did.isReserved && (!a.did.createAttempted || a.did.removed) && !a.did.alive
      && a.key in s.reports && s.reports[a.key].owner == e.id && s.reports[a.key].complete
  {
    RunsKeep(keys, events);
    var s := Run(keys, events);
    OnlyUnlinkingFrees(s, e.id, e.outcome);
    assert Consistent(s.attempts[e.id]) && Backed(s, e.id, s.attempts[e.id]);
  }

  /** A completed return has a validated report, saved as completed, and a clean teardown behind it. */
  lemma CompletedMeans(keys: map<nat, string>, events: seq<Event>, id: nat)
    requires id in keys
    requires Run(keys, events).attempts[id].pc.Returned? && Run(keys, events).attempts[id].result.Completed?
    ensures var s := Run(keys, events);
      var a := s.attempts[id];
      && a.did.validated && a.did.clean && a.did.removed && !a.did.alive && a.did.released
      && a.key in s.reports && s.reports[a.key] == Saved(id, Completed, true)
  {
    RunsKeep(keys, events);
    var s := Run(keys, events);
    assert Consistent(s.attempts[id]) && Backed(s, id, s.attempts[id]);
  }

  lemma ReservedStays(s: State, id: nat, o: Outcome, key: string)
    requires id in s.attempts && key in s.reserved
    ensures key in Step(s, id, o).reserved && Step(s, id, o).reserved[key] == s.reserved[key]
  {
  }

  /** A reservation is never withdrawn and never changes hands. */
  lemma {:induction false} ReservedForGood(keys: map<nat, string>, events: seq<Event>, k: nat, key: string)
    requires k <= |events| && key in Run(keys, events[..k]).reserved
    ensures key in Run(keys, events).reserved && Run(keys, events).reserved[key] == Run(keys, events[..k]).reserved[key]
    decreases |events|
  {
    if k == |events| {
      assert events[..k] == events;
    } else {
      var before, last := events[..|events| - 1], events[|events| - 1];
      assert before[..k] == events[..k];
      ReservedForGood(keys, before, k, key);
      if last.id in Run(keys, before).attempts {
        ReservedStays(Run(keys, before), last.id, last.outcome, key);
      }
    }
  }

  // ---- what is saved, and when the lock is given back

  /** The attempt agrees with its own saved report, if there is one, and has given the lock back exactly if it was
      free to. */
  predicate Recorded(own: Option<Saved>, a: Attempt) {
    && (a.pc.Returned? ==> (a.did.released <==> !a.did.persistenceFailure && (!a.did.createAttempted || a.did.removed)))
    && (a.lost != Nothing ==> a.pc.Returned? && a.did.persistenceFailure && a.result.Stopped?)
    && (own.Some? ==>
          && (Final(a.pc) || a.pc.Returned?) && (own.value.complete <==> a.lost != Write)
          && (own.value.result.Completed? ==>
                && a.did.isReserved && a.did.validated && a.did.clean && a.did.removed
                && (a.result.Completed? <==> a.lost == Nothing)))
  }

  /** The attempt's own report, as it is saved. */
  function Own(s: State, id: nat): Option<Saved>
    requires id in s.attempts
  {
    var key := s.attempts[id].key;
    if key in s.reports && s.reports[key].owner == id then Some(s.reports[key]) else None
  }

  /** What a call leaves of the attempt's own report. */
  function OwnAfter(own: Option<Saved>, id: nat, a: Attempt, o: Outcome, v: Sight): Option<Saved> {
    if a.pc.Reporting? && !v.keyReported && !o.Failed? then Some(Saved(id, a.result, o.Fine?)) else own
  }

  lemma StepOwn(s: State, id: nat, o: Outcome)
    requires id in s.attempts
    ensures Own(Step(s, id, o), id) == OwnAfter(Own(s, id), id, s.attempts[id], o, See(s, s.attempts[id]))
  {
  }

  lemma ReportingRecorded(own: Option<Saved>, id: nat, a: Attempt, o: Outcome, v: Sight)
    requires Consistent(a) && Recorded(own, a) && a.pc.Reporting?
    ensures Recorded(OwnAfter(own, id, a, o, v), Move(a, o, v))
  {
  }

  lemma FinalRecorded(own: Option<Saved>, id: nat, a: Attempt, o: Outcome, v: Sight)
    requires Consistent(a) && Recorded(own, a) && Final(a.pc)
    ensures Recorded(OwnAfter(own, id, a, o, v), Move(a, o, v))
  {
  }

  lemma EarlierRecorded(own: Option<Saved>, id: nat, a: Attempt, o: Outcome, v: Sight)
    requires Recorded(own, a) && !Late(a.pc)
    ensures Recorded(OwnAfter(own, id, a, o, v), Move(a, o, v))
  {
  }

  lemma StepRecorded(s: State, id: nat, o: Outcome)
    requires id in s.attempts && Consistent(s.attempts[id]) && Recorded(Own(s, id), s.attempts[id])
    ensures Recorded(Own(Step(s, id, o), id), Step(s, id, o).attempts[id])
  {
    var a, v, own := s.attempts[id], See(s, s.attempts[id]), Own(s, id);
    StepOwn(s, id, o);
    if a.pc.Reporting? {
      ReportingRecorded(own, id, a, o, v);
    } else if Final(a.pc) {
      FinalRecorded(own, id, a, o, v);
    } else if !a.pc.Returned? {
      EarlierRecorded(own, id, a, o, v);
    }
  }

  /** A step of one attempt does not touch the report of another. */
  lemma OthersOwn(s: State, id: nat, o: Outcome, other: nat)
    requires id in s.attempts && other in s.attempts && other != id
    ensures Own(Step(s, id, o), other) == Own(s, other) && Step(s, id, o).attempts[other] == s.attempts[other]
  {
  }

  lemma {:induction false} RunsRecord(keys: map<nat, string>, events: seq<Event>, id: nat)
    requires id in keys
    ensures Recorded(Own(Run(keys, events), id), Run(keys, events).attempts[id])
  {
    if events != [] {
      var last, before := events[|events| - 1], events[..|events| - 1];
      var s := Run(keys, before);
      RunsRecord(keys, before, id);
      if last.id in keys {
        assert events == before + [last];
        RunMore(keys, before, last);
        RunsKeep(keys, before);
        if id == last.id {
          StepRecorded(s, id, last.outcome);
        } else {
          OthersOwn(s, last.id, last.outcome, id);
        }
      }
    }
  }

  /** Exactly when an attempt that returns has given the lock back: its evidence is safe, and it attempted no
      container or has confirmed its removal. */
  lemma ReleasedExactly(keys: map<nat, string>, events: seq<Event>, id: nat)
    requires id in keys && Run(keys, events).attempts[id].pc.Returned?
    ensures var a := Run(keys, events).attempts[id];
      a.did.released <==> !a.did.persistenceFailure && (!a.did.createAttempted || a.did.removed)
  {
    RunsRecord(keys, events, id);
  }

  /** A report saved as completed is the truth about the container, also when the attempt then returns stopped. It
      returns completed exactly if it gave the lock back, and stopped exactly if writing that report broke off, the
      lock's identity could not be confirmed, or its removal failed. */
  lemma SavedCompletedMeans(keys: map<nat, string>, events: seq<Event>, id: nat, saved: Saved)
    requires id in keys && Own(Run(keys, events), id) == Some(saved) && saved.result.Completed?
    ensures var a := Run(keys, events).attempts[id];
      && a.did.isReserved && a.did.validated && a.did.clean && a.did.removed
      && (a.pc.Returned? ==> (a.result.Completed? <==> a.did.released) && (a.result.Stopped? <==> a.lost != Nothing))
      && (a.lost == Write <==> !saved.complete)
  {
    RunsKeep(keys, events);
    RunsRecord(keys, events, id);
    assert Consistent(Run(keys, events).attempts[id]);
  }

  predicate Ended(pc: Pc) { pc.Returned? || pc.Thrown? }

  lemma KeptByStep(s: State, id: nat, o: Outcome)
    requires Inv(s) && id in s.attempts && s.lock.Some?
    requires s.lock.value.owner in s.attempts && Ended(s.attempts[s.lock.value.owner].pc)
    ensures Step(s, id, o).lock == s.lock
      && Step(s, id, o).attempts[s.lock.value.owner] == s.attempts[s.lock.value.owner]
  {
    assert Backed(s, id, s.attempts[id]);
  }

  /** A lock that an attempt leaves behind when it ends, say because another one had reserved the key in the
      meantime, stays until somebody outside the protocol deals with it. */
  lemma {:induction false} KeptForGood(keys: map<nat, string>, events: seq<Event>, k: nat)
    requires k <= |events| && Run(keys, events[..k]).lock.Some?
    requires var s := Run(keys, events[..k]);
      s.lock.value.owner in s.attempts && Ended(s.attempts[s.lock.value.owner].pc)
    ensures Run(keys, events).lock == Run(keys, events[..k]).lock
    ensures var owner := Run(keys, events[..k]).lock.value.owner;
      Run(keys, events).attempts[owner] == Run(keys, events[..k]).attempts[owner]
    decreases |events|
  {
    if k == |events| {
      assert events[..k] == events;
    } else {
      var before, last := events[..|events| - 1], events[|events| - 1];
      assert before[..k] == events[..k];
      KeptForGood(keys, before, k);
      RunsKeep(keys, before);
      if last.id in Run(keys, before).attempts {
        KeptByStep(Run(keys, before), last.id, last.outcome);
      }
    }
  }

  /** An attempt whose reservation fails never gives the lock back. */
  lemma FailedReservationKeepsLock(keys: map<nat, string>, events: seq<Event>, id: nat)
    requires id in keys && Late(Run(keys, events).attempts[id].pc) && !Run(keys, events).attempts[id].did.isReserved
    ensures !Final(Run(keys, events).attempts[id].pc) && !Run(keys, events).attempts[id].did.released
  {
    RunsKeep(keys, events);
    Unreserved(Run(keys, events).attempts[id]);
  }

  lemma Unreserved(a: Attempt)
    requires Consistent(a) && Late(a.pc) && !a.did.isReserved
    ensures !Final(a.pc) && !a.did.released
  {
  }

  // ---- an attempt that nothing disturbs

  /** Where an attempt stands after so many calls that go well. */
  function PcAfter(k: nat): Pc
    requires k <= 12
  {
    [CheckReservation, CheckReport, Locking, Stating, Reserving, Readying, Creating, Starting, TearingDown, Reporting,
     Comparing, Unlinking, Returned][k]
  }

  /** What an undisturbed attempt is after its first `k` calls, and what it leaves on disk. */
  function Stage(s: State, id: nat, k: nat): State
    requires id in s.attempts && k <= 12
  {
    var key := s.attempts[id].key;
    State(if 3 <= k < 12 then Some(LockFile(s.nextInode, id)) else None,
          if 3 <= k then s.nextInode + 1 else s.nextInode,
          if 5 <= k then s.reserved[key := id] else s.reserved,
          if 10 <= k then s.reports[key := Saved(id, Completed, true)] else s.reports,
          s.attempts[id := Attempt(key, PcAfter(k), if 4 <= k then s.nextInode else 0,
                                   Deeds(5 <= k, 7 <= k, 9 <= k, 8 <= k, 9 <= k, false, false, 7 <= k < 9, k == 12),
                                   if 8 <= k then Completed else Stopped, Nothing)])
  }

  /** The attempt finds the lock free and its key unused. */
  predicate Ready(s: State, id: nat) {
    && id in s.attempts && s.attempts[id] == Fresh(s.attempts[id].key) && s.lock.None?
    && s.attempts[id].key !in s.reserved && s.attempts[id].key !in s.reports
  }

  lemma StageSetsUp(s: State, id: nat, k: nat)
    requires Ready(s, id) && k < 5
    ensures Step(Stage(s, id, k), id, Fine) == Stage(s, id, k + 1)
  {
    var before, after := Stage(s, id, k), Stage(s, id, k + 1);
    assert before.attempts[id := after.attempts[id]] == after.attempts;
  }

  lemma StageWorks(s: State, id: nat, k: nat)
    requires Ready(s, id) && 5 <= k < 9
    ensures Step(Stage(s, id, k), id, Fine) == Stage(s, id, k + 1)
  {
    var before, after := Stage(s, id, k), Stage(s, id, k + 1);
    assert before.attempts[id := after.attempts[id]] == after.attempts;
  }

  lemma StageWindsUp(s: State, id: nat, k: nat)
    requires Ready(s, id) && 9 <= k < 12
    ensures Step(Stage(s, id, k), id, Fine) == Stage(s, id, k + 1)
  {
    var before, after := Stage(s, id, k), Stage(s, id, k + 1);
    assert before.attempts[id := after.attempts[id]] == after.attempts;
  }

  lemma StageStep(s: State, id: nat, k: nat)
    requires Ready(s, id) && k < 12
    ensures Step(Stage(s, id, k), id, Fine) == Stage(s, id, k + 1)
  {
    if k < 5 {
      StageSetsUp(s, id, k);
    } else if k < 9 {
      StageWorks(s, id, k);
    } else {
      StageWindsUp(s, id, k);
    }
  }

  lemma RunMore(keys: map<nat, string>, events: seq<Event>, e: Event)
    requires e.id in keys
    ensures Run(keys, events + [e]) == Step(Run(keys, events), e.id, e.outcome)
  {
    assert (events + [e])[..|events|] == events;
  }

  function Calls(id: nat, k: nat): seq<Event> { seq(k, _ => Event(id, Fine)) }

  lemma {:induction false} RunStages(keys: map<nat, string>, events: seq<Event>, id: nat, k: nat)
    requires Ready(Run(keys, events), id) && k <= 12
    ensures Run(keys, events + Calls(id, k)) == Stage(Run(keys, events), id, k)
  {
    if k == 0 {
      assert events + Calls(id, k) == events;
    } else {
      assert events + Calls(id, k) == events + Calls(id, k - 1) + [Event(id, Fine)];
      RunStages(keys, events, id, k - 1);
      RunMore(keys, events + Calls(id, k - 1), Event(id, Fine));
      StageStep(Run(keys, events), id, k - 1);
    }
  }

  /** After whatever other attempts have done: an attempt that finds the lock free and its key unused completes
      within twelve calls if all go well, leaving its reservation, its report, and a free lock. */
  lemma UndisturbedCompletes(keys: map<nat, string>, events: seq<Event>, id: nat)
    requires Ready(Run(keys, events), id)
    ensures var s, t := Run(keys, events), Run(keys, events + Calls(id, 12));
      var key := s.attempts[id].key;
      && t.attempts[id].pc.Returned? && t.attempts[id].result.Completed? && !t.attempts[id].did.alive && t.lock.None?
      && t.reserved == s.reserved[key := id] && t.reports == s.reports[key := Saved(id, Completed, true)]
  {
    RunStages(keys, events, id, 12);
  }

  /** The saved report and the returned result do differ: nine calls that go well and a report whose write breaks
      off, or one or two more and a lock that cannot be confirmed or removed. */
  lemma SavedCompletedReturnedStopped(keys: map<nat, string>, id: nat, k: nat)
    requires id in keys && 9 <= k < 12
    ensures var t := Run(keys, Calls(id, k) + [Event(id, if k == 9 then Partial else Failed(false))]);
      && t.attempts[id].pc.Returned? && t.attempts[id].result.Stopped? && !t.attempts[id].did.released
      && t.attempts[id].lost == (if k == 9 then Write else if k == 10 then Identity else Removal)
      && Own(t, id) == Some(Saved(id, Completed, k > 9))
  {
    assert [] + Calls(id, k) == Calls(id, k);
    RunStages(keys, [], id, k);
    RunMore(keys, Calls(id, k), Event(id, if k == 9 then Partial else Failed(false)));
    LastFails(Run(keys, []), id, k);
  }

  lemma LastFails(s: State, id: nat, k: nat)
    requires Ready(s, id) && 9 <= k < 12
    ensures var t := Step(Stage(s, id, k), id, if k == 9 then Partial else Failed(false));
      && t.attempts[id].pc.Returned? && t.attempts[id].result.Stopped? && !t.attempts[id].did.released
      && t.attempts[id].lost == (if k == 9 then Write else if k == 10 then Identity else Removal)
      && Own(t, id) == Some(Saved(id, Completed, k > 9))
  {
  }
}
