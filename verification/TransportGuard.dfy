/** createTransportGuard of scripts/gate1-restart-transport.js. The code between two awaits runs as one step:
    Enter is guardedFetch up to the send, Settle is the rest of it, Stop is the latch. */
module TransportGuard {
  import opened Wrappers

  datatype Code = Configuration | Attribution | Protocol | Budget | RetryDetected | TransportUncertain
    | TransportContract | ResponseSize | RedisError | Decision | Deadline | Clock | ProcessExit | Cleanup | Cancelled

  datatype Kind = Time | EvalSha | Eval

  /** JSON as far as the guard looks at it. */
  datatype Value = List(items: seq<Value>) | Text(text: string) | Number(number: int) | Other

  datatype Body = NotText | TooLong | Unparsable | Parsed(value: Value)

  datatype Url = BadUrl | Url(origin: string, search: bool, hash: bool, path: string)

  datatype Request = Request(post: bool, body: Body, signal: bool, url: Url)

  /** One call of the guarded fetch: the identity of its options object, if it is one, and whether the
      caller's own signal is already aborted. */
  datatype Call = Call(options: Option<int>, request: Request, aborted: bool)

  datatype Config = Config(origin: string, redisKey: string, script: string, scriptSha: string,
                           maxDecisions: int, maxTime: nat)

  /** The commands sent, by kind, and the NOSCRIPT replies among their answers. */
  datatype Figures = Figures(commands: nat, evalsha: nat, eval: nat, time: nat, noscript: nat)

  datatype Stats = Stats(fetchAttempts: nat, forwarded: nat, figures: Figures, retriesBlocked: nat, active: int,
                         failure: Option<Code>)

  datatype State = State(stats: Stats, credits: int, seen: set<int>)

  const START := State(Stats(0, 0, Figures(0, 0, 0, 0, 0), 0, 0, None), 0, {})

  // ---- what one request asks for

  function KindOf(cfg: Config, command: Value): Option<Kind> {
    if !command.List? || command.items == [] then None
    else
      var c := command.items;
      if c == [Text("time")] then Some(Time)
      else if c == [Text("evalsha"), Text(cfg.scriptSha), Number(1), Text(cfg.redisKey)] then Some(EvalSha)
      else if c == [Text("eval"), Text(cfg.script), Number(1), Text(cfg.redisKey)] then Some(Eval)
      else None
  }

  /** The commands of a request, or None where the transport contract is broken. */
  function CommandsOf(cfg: Config, request: Request): Option<seq<Value>> {
    if !request.post || !request.body.Parsed? || !request.signal || request.url.BadUrl? then None
    else if request.url.origin != cfg.origin || request.url.search || request.url.hash
            || request.url.path !in {"/", "/pipeline"} then None
    else
      var commands := if request.url.path == "/pipeline" then request.body.value else List([request.body.value]);
      if commands.List? && 1 <= |commands.items| <= 4 then Some(commands.items) else None
  }

  function KindsIn(cfg: Config): Value -> Option<Kind> { (c: Value) => KindOf(cfg, c) }

  /** The kinds of a list of commands, None if one of them is not on the list. */
  function KindsOf(kindOf: Value -> Option<Kind>, commands: seq<Value>): (kinds: Option<seq<Kind>>)
    ensures kinds.Some? ==> |kinds.value| == |commands|
  {
    if commands == [] then Some([])
    else
      var last, before := kindOf(commands[|commands| - 1]), KindsOf(kindOf, commands[..|commands| - 1]);
      if last.None? || before.None? then None else Some(before.value + [last.value])
  }

  function Count(kinds: seq<Kind>, kind: Kind): nat {
    if kinds == [] then 0
    else Count(kinds[..|kinds| - 1], kind) + (if kinds[|kinds| - 1] == kind then 1 else 0)
  }

  lemma {:induction false} CountsAddUp(kinds: seq<Kind>)
    ensures Count(kinds, Time) + Count(kinds, EvalSha) + Count(kinds, Eval) == |kinds|
  {
    if kinds != [] {
      CountsAddUp(kinds[..|kinds| - 1]);
    }
  }

  // ---- the steps

  function Latch(s: State, code: Code): State {
    if s.stats.failure.Some? then s else s.(stats := s.stats.(failure := Some(code)))
  }

  function Capped(n: nat): nat { if n + 1 < 5000 then n + 1 else 5000 }

  /** The kinds of a request's commands, or None where the transport contract is broken. */
  function KindsOfRequest(cfg: Config, request: Request): (kinds: Option<seq<Kind>>)
    ensures kinds.Some? ==> |kinds.value| > 0
  {
    match CommandsOf(cfg, request)
    case None => None
    case Some(commands) => KindsOf(KindsIn(cfg), commands)
  }

  /** The allowances cover these kinds, each EVAL by a credit. */
  predicate Covered(cfg: Config, s: State, kinds: seq<Kind>) {
    && s.stats.figures.evalsha + Count(kinds, EvalSha) <= cfg.maxDecisions
    && s.stats.figures.time + Count(kinds, Time) <= cfg.maxTime && Count(kinds, Eval) <= s.credits
  }

  function Charged(s: State, kinds: seq<Kind>): State {
    var f := s.stats.figures;
    var figures := Figures(f.commands + |kinds|, f.evalsha + Count(kinds, EvalSha), f.eval + Count(kinds, Eval),
                           f.time + Count(kinds, Time), f.noscript);
    State(s.stats.(figures := figures), s.credits - Count(kinds, Eval), s.seen)
  }

  /** inspect: all counters move together, before anything is sent, or none does. */
  function Inspect(cfg: Config, s: State, request: Request): (State, Option<Code>, seq<Kind>) {
    match KindsOfRequest(cfg, request)
    case None => (s, Some(TransportContract), [])
    case Some(kinds) => if !Covered(cfg, s, kinds) then (s, Some(Budget), []) else (Charged(s, kinds), None, kinds)
  }

  /** What becomes of a call: refused with a code, or sent with these kinds of commands. */
  datatype Verdict = Refused(code: Code) | Sent(kinds: seq<Kind>)

  function Fail(s: State, code: Code): (State, Verdict) {
    var t := Latch(s, code);
    (t, Refused(if t.stats.failure.Some? then t.stats.failure.value else code))
  }

  /** What becomes of a call that is new: it is inspected, and sent unless it is refused or cancelled. */
  function Forward(cfg: Config, s: State, call: Call): (State, Verdict) {
    var (t, code, kinds) := Inspect(cfg, s, call.request);
    if code.Some? then Fail(t, code.value)
    else if call.aborted || t.stats.active >= 4 then Fail(t, Cancelled)
    else (t.(stats := t.stats.(active := t.stats.active + 1, forwarded := t.stats.forwarded + 1)), Sent(kinds))
  }

  function Enter(cfg: Config, s0: State, call: Call): (State, Verdict) {
    var s := s0.(stats := s0.stats.(fetchAttempts := Capped(s0.stats.fetchAttempts)));
    if call.options.Some? && call.options.value in s.seen then
      var t := Latch(s.(stats := s.stats.(retriesBlocked := Capped(s.stats.retriesBlocked))), RetryDetected);
      (t, Refused(RetryDetected))
    else if s.stats.failure.Some? then (s, Refused(s.stats.failure.value))
    else if call.options.None? then (Latch(s, TransportContract), Refused(TransportContract))
    else Forward(cfg, s.(seen := s.seen + {call.options.value}), call)
  }

  // ---- the replies

  datatype Item = Malformed | Erroneous(error: Option<string>) | WithResult | Empty

  /** How a send ends: lost without a definite answer, answered outside the contract, or with a body. */
  datatype Answer = Lost | BadAnswer(code: Code) | NotAList | Replies(items: seq<Item>)

  /** /^NOSCRIPT(?: |$)/ */
  predicate NoScript(error: string) {
    "NOSCRIPT" <= error && (|error| == 8 || error[8] == ' ')
  }

  predicate Credits(kind: Kind, item: Item) {
    kind == EvalSha && item.Erroneous? && item.error.Some? && NoScript(item.error.value)
  }

  /** What is wrong with one reply, if anything. */
  function Objection(kind: Kind, item: Item): Option<Code> {
    match item
    case Malformed => Some(TransportContract)
    case Erroneous(_) => if Credits(kind, item) then None else Some(RedisError)
    case WithResult => None
    case Empty => Some(TransportContract)
  }

  /** Replies are taken in order; credits granted before an objection stay granted. */
  function Absorb(s: State, kinds: seq<Kind>, items: seq<Item>, i: nat): (State, Option<Code>)
    requires i <= |items| == |kinds|
    decreases |items| - i
  {
    if i == |items| then (s, None)
    else if Objection(kinds[i], items[i]).Some? then (s, Objection(kinds[i], items[i]))
    else Absorb(Granted(s, kinds[i], items[i]), kinds, items, i + 1)
  }

  function Granted(s: State, kind: Kind, item: Item): State {
    if Credits(kind, item)
    then s.(credits := s.credits + 1,
            stats := s.stats.(figures := s.stats.figures.(noscript := s.stats.figures.noscript + 1)))
    else s
  }

  function Take(s: State, kinds: seq<Kind>, answer: Answer): (State, Option<Code>) {
    match answer
    case Lost => (s, Some(TransportUncertain))
    case BadAnswer(code) => (s, Some(code))
    case NotAList => (s, Some(TransportContract))
    case Replies(items) =>
      if |items| != |kinds| then (s, Some(TransportContract))
      else
        var (t, code) := Absorb(s, kinds, items, 0);
        (t, if code.Some? then code else t.stats.failure)
  }

  /** The end of a forwarded call: Ok, or the latched code. */
  function Settle(s: State, kinds: seq<Kind>, answer: Answer): (State, Option<Code>) {
    var (t, code) := Take(s, kinds, answer);
    var u := if code.Some? then Latch(t, code.value) else t;
    (u.(stats := u.stats.(active := u.stats.active - 1)), if code.Some? then u.stats.failure else None)
  }

  // ---- the guard

  class Guard {
    const cfg: Config
    var stats: Stats
    var fallbackCredits: int
    var seen: set<int>

    constructor (cfg: Config)
      ensures this.cfg == cfg && Now() == START
    {
      this.cfg := cfg;
      stats, fallbackCredits, seen := START.stats, 0, {};
    }

    function Now(): State
      reads this
    {
      State(stats, fallbackCredits, seen)
    }

    /** Unknown codes become Protocol; only the first one counts. */
    method Stop(code: Option<Code>)
      modifies this`stats
      ensures Now() == Latch(old(Now()), if code.Some? then code.value else Protocol)
    {
      if stats.failure.None? {
        stats := stats.(failure := Some(if code.Some? then code.value else Protocol));
      }
    }

    /** The loop over the commands; None where one of them is not on the list. */
    static method CountCommands(kindOf: Value -> Option<Kind>, all: seq<Value>)
      returns (kinds: Option<seq<Kind>>, sha: nat, evals: nat, times: nat)
      ensures kinds == KindsOf(kindOf, all)
      ensures kinds.Some? ==>
        sha == Count(kinds.value, EvalSha) && evals == Count(kinds.value, Eval) && times == Count(kinds.value, Time)
    {
      sha, evals, times := 0, 0, 0;
      var known: seq<Kind> := [];
      for i := 0 to |all|
        invariant KindsOf(kindOf, all[..i]) == Some(known)
        invariant sha == Count(known, EvalSha) && evals == Count(known, Eval) && times == Count(known, Time)
      {
        assert all[..i + 1][..i] == all[..i];
        var kind := kindOf(all[i]);
        if kind.None? {
          OneBadCommand(kindOf, all, i);
          return None, 0, 0, 0;
        }
        match kind.value {
          case Time => times := times + 1;
          case EvalSha => sha := sha + 1;
          case Eval => evals := evals + 1;
        }
        assert (known + [kind.value])[..|known|] == known;
        known := known + [kind.value];
      }
      assert all[..|all|] == all;
      kinds := Some(known);
    }

    method InspectRequest(request: Request) returns (code: Option<Code>, kinds: seq<Kind>)
      modifies this`stats, this`fallbackCredits
      ensures (Now(), code, kinds) == Inspect(cfg, old(Now()), request)
    {
      hide KindOf, KindsIn, KindsOf, Count, CommandsOf;
      var commands := CommandsOf(cfg, request);
      if commands.None? {
        return Some(TransportContract), [];
      }
      var known, shaCount, evalCount, timeCount := CountCommands(KindsIn(cfg), commands.value);
      if known.None? {
        return Some(TransportContract), [];
      }
      if stats.figures.evalsha + shaCount > cfg.maxDecisions || stats.figures.time + timeCount > cfg.maxTime
         || evalCount > fallbackCredits {
        return Some(Budget), [];
      }
      stats := stats.(figures := stats.figures.(evalsha := stats.figures.evalsha + shaCount,
                                                eval := stats.figures.eval + evalCount,
                                                time := stats.figures.time + timeCount,
                                                commands := stats.figures.commands + |commands.value|));
      fallbackCredits := fallbackCredits - evalCount;
      return None, known.value;
    }

    /** guardedFetch up to the send. */
    method Begin(call: Call) returns (verdict: Verdict)
      modifies this
      ensures (Now(), verdict) == Enter(cfg, old(Now()), call)
    {
      hide Inspect, Capped;
      stats := stats.(fetchAttempts := Capped(stats.fetchAttempts));
      if call.options.Some? && call.options.value in seen {
        stats := stats.(retriesBlocked := Capped(stats.retriesBlocked));
        Stop(Some(RetryDetected));
        return Refused(RetryDetected);
      }
      if stats.failure.Some? {
        return Refused(stats.failure.value);
      }
      if call.options.None? {
        Stop(Some(TransportContract));
        return Refused(TransportContract);
      }
      seen := seen + {call.options.value};
      var code, kinds := InspectRequest(call.request);
      if code.None? && (call.aborted || stats.active >= 4) {
        code := Some(Cancelled);
      }
      if code.Some? {
        Stop(code);
        return Refused(stats.failure.value);
      }
      stats := stats.(active := stats.active + 1, forwarded := stats.forwarded + 1);
      return Sent(kinds);
    }

    /** The loop over the replies. */
    method AbsorbReplies(kinds: seq<Kind>, items: seq<Item>) returns (code: Option<Code>)
      requires |items| == |kinds|
      modifies this`stats, this`fallbackCredits
      ensures (Now(), code) == Absorb(old(Now()), kinds, items, 0)
    {
      for i := 0 to |items|
        invariant Absorb(old(Now()), kinds, items, 0) == Absorb(Now(), kinds, items, i)
      {
        var objection := Objection(kinds[i], items[i]);
        if objection.Some? {
          return objection;
        }
        if Credits(kinds[i], items[i]) {
          fallbackCredits := fallbackCredits + 1;
          stats := stats.(figures := stats.figures.(noscript := stats.figures.noscript + 1));
        }
      }
      return None;
    }

    /** guardedFetch after the send, whatever came back. */
    method End(kinds: seq<Kind>, answer: Answer) returns (code: Option<Code>)
      modifies this`stats, this`fallbackCredits
      ensures (Now(), code) == Settle(old(Now()), kinds, answer)
    {
      match answer {
        case Lost => code := Some(TransportUncertain);
        case BadAnswer(why) => code := Some(why);
        case NotAList => code := Some(TransportContract);
        case Replies(items) =>
          if |items| != |kinds| {
            code := Some(TransportContract);
          } else {
            code := AbsorbReplies(kinds, items);
            if code.None? {
              code := stats.failure;
            }
          }
      }
      if code.Some? {
        Stop(code);
        code := stats.failure;
      }
      stats := stats.(active := stats.active - 1);
    }
  }

  /** The kinds of a request are those of its commands, one by one. */
  lemma {:induction false} KindsOneByOne(kindOf: Value -> Option<Kind>, commands: seq<Value>, kinds: seq<Kind>)
    ensures KindsOf(kindOf, commands) == Some(kinds) <==>
            |kinds| == |commands| && forall i :: 0 <= i < |commands| ==> kindOf(commands[i]) == Some(kinds[i])
  {
    if commands != [] && |kinds| == |commands| {
      var k := |commands| - 1;
      KindsOneByOne(kindOf, commands[..k], kinds[..k]);
      assert kinds == kinds[..k] + [kinds[k]];
    }
  }

  /** These are the kinds of the commands, one by one. */
  ghost predicate Listed(cfg: Config, commands: seq<Value>, kinds: seq<Kind>) {
    |kinds| == |commands| && forall i :: 0 <= i < |commands| ==> KindOf(cfg, commands[i]) == Some(kinds[i])
  }

  /** A request of up to four listed commands that the allowances cover. */
  ghost predicate Admissible(cfg: Config, s: State, request: Request) {
    CommandsOf(cfg, request).Some? &&
    exists kinds :: Listed(cfg, CommandsOf(cfg, request).value, kinds) && Covered(cfg, s, kinds)
  }

  lemma KindsListed(cfg: Config, commands: seq<Value>, kinds: seq<Kind>)
    ensures KindsOf(KindsIn(cfg), commands) == Some(kinds) <==> Listed(cfg, commands, kinds)
  {
    KindsOneByOne(KindsIn(cfg), commands, kinds);
  }

  lemma InspectAdmits(cfg: Config, s: State, request: Request)
    ensures Inspect(cfg, s, request).1.None? <==> Admissible(cfg, s, request)
  {
    var commands := CommandsOf(cfg, request);
    if commands.Some? {
      var found := KindsOf(KindsIn(cfg), commands.value);
      if found.Some? {
        KindsListed(cfg, commands.value, found.value);
      }
      if Admissible(cfg, s, request) {
        var kinds :| Listed(cfg, commands.value, kinds) && Covered(cfg, s, kinds);
        KindsListed(cfg, commands.value, kinds);
      }
    }
  }

  /** A call is forwarded exactly when the latch is open, its options object is new, nothing has been cancelled,
      fewer than four calls are in flight, and its request is admissible. */
  lemma ForwardedExactly(cfg: Config, s: State, call: Call)
    ensures Enter(cfg, s, call).1.Sent? <==>
      && s.stats.failure.None? && call.options.Some? && call.options.value !in s.seen
      && !call.aborted && s.stats.active < 4 && Admissible(cfg, s, call.request)
  {
    if call.options.Some? && call.options.value !in s.seen && s.stats.failure.None? {
      var counted := s.(stats := s.stats.(fetchAttempts := Capped(s.stats.fetchAttempts)),
                        seen := s.seen + {call.options.value});
      InspectAdmits(cfg, counted, call.request);
      InspectAdmits(cfg, s, call.request);
    }
  }

  lemma {:induction false} OneBadCommand(kindOf: Value -> Option<Kind>, commands: seq<Value>, i: nat)
    requires i < |commands| && kindOf(commands[i]).None?
    ensures KindsOf(kindOf, commands).None?
  {
    if i < |commands| - 1 {
      OneBadCommand(kindOf, commands[..|commands| - 1], i);
    }
  }

  // ---- all runs: calls arrive, are answered in any order, and the latch may be set at any time

  /** A call on its way. */
  datatype Flight = Flight(options: int, kinds: seq<Kind>)

  datatype Event = Arrive(call: Call) | Answered(which: nat, answer: Answer) | Stopped(code: Code)

  /** The guard, the calls in flight, and every options object forwarded so far. */
  datatype World = World(guard: State, flights: seq<Flight>, sent: seq<int>)

  function Without(flights: seq<Flight>, k: nat): seq<Flight>
    requires k < |flights|
  {
    flights[..k] + flights[k + 1..]
  }

  function Step(cfg: Config, w: World, e: Event): World {
    match e
    case Arrive(call) =>
      var (s, verdict) := Enter(cfg, w.guard, call);
      if verdict.Sent? && call.options.Some?
      then World(s, w.flights + [Flight(call.options.value, verdict.kinds)], w.sent + [call.options.value])
      else w.(guard := s)
    case Answered(which, answer) =>
      if which < |w.flights|
      then World(Settle(w.guard, w.flights[which].kinds, answer).0, Without(w.flights, which), w.sent) else w
    case Stopped(code) => w.(guard := Latch(w.guard, code))
  }

  function Run(cfg: Config, events: seq<Event>): World {
    if events == [] then World(START, [], [])
    else Step(cfg, Run(cfg, events[..|events| - 1]), events[|events| - 1])
  }

  /** The EVALSHA commands still unanswered. */
  function ShaOf(flights: seq<Flight>): nat {
    if flights == [] then 0
    else ShaOf(flights[..|flights| - 1]) + Count(flights[|flights| - 1].kinds, EvalSha)
  }

  ghost predicate Ledger(cfg: Config, w: World) {
    var s := w.guard.stats;
    && Books(cfg, w.guard) && s.figures.noscript + ShaOf(w.flights) <= s.figures.evalsha
    && s.active == |w.flights| <= 4 && s.forwarded == |w.sent| <= s.figures.commands
  }

  ghost predicate SentOnce(w: World) {
    && (forall i :: 0 <= i < |w.sent| ==> w.sent[i] in w.guard.seen)
    && (forall i, j :: 0 <= i < j < |w.sent| ==> w.sent[i] != w.sent[j])
  }

  /** The figures that hold whatever is in flight. */
  ghost predicate Books(cfg: Config, s: State) {
    && s.stats.figures.noscript == s.stats.figures.eval + s.credits && 0 <= s.credits
    && s.stats.retriesBlocked <= s.stats.fetchAttempts <= 5000
    && s.stats.figures.evalsha <= cfg.maxDecisions && s.stats.figures.time <= cfg.maxTime
    && s.stats.figures.commands == s.stats.figures.evalsha + s.stats.figures.eval + s.stats.figures.time
  }

  /** inspect takes the commands out of the allowances, or leaves everything as it was. */
  lemma InspectBooks(cfg: Config, s: State, request: Request)
    requires Books(cfg, s)
    ensures var (t, code, kinds) := Inspect(cfg, s, request);
      && (code.Some? ==> t == s)
      && (code.None? ==>
            && Books(cfg, t) && t.seen == s.seen && t.stats.figures.noscript == s.stats.figures.noscript
            && t.stats.figures.evalsha == s.stats.figures.evalsha + Count(kinds, EvalSha)
            && t.stats.figures.commands > s.stats.figures.commands
            && t.stats.active == s.stats.active && t.stats.forwarded == s.stats.forwarded
            && t.stats.failure == s.stats.failure && t.stats.fetchAttempts == s.stats.fetchAttempts)
  {
    hide KindsOfRequest, Count;
    var kinds := KindsOfRequest(cfg, request);
    if kinds.Some? {
      CountsAddUp(kinds.value);
    }
  }

  /** What Enter does to the figures. */
  lemma ForwardLedger(cfg: Config, s: State, call: Call)
    requires Books(cfg, s) && 0 <= s.stats.active <= 4
    ensures var (t, verdict) := Forward(cfg, s, call); Books(cfg, t) && Entered(s, t, verdict) && t.seen == s.seen
  {
    hide KindsOfRequest, Covered, Charged, Count;
    InspectBooks(cfg, s, call.request);
  }

  /** A refusal leaves all figures alone; a call that is sent is counted, and its commands with it. */
  predicate Entered(s: State, t: State, verdict: Verdict) {
    && t.stats.figures.noscript == s.stats.figures.noscript && s.stats.figures.commands <= t.stats.figures.commands
    && s.stats.figures.evalsha <= t.stats.figures.evalsha
    && match verdict
       case Refused(_) => t.stats.active == s.stats.active && t.stats.forwarded == s.stats.forwarded
       case Sent(kinds) =>
         && t.stats.active == s.stats.active + 1 <= 4 && t.stats.forwarded == s.stats.forwarded + 1
         && t.stats.figures.commands > s.stats.figures.commands
         && t.stats.figures.evalsha == s.stats.figures.evalsha + Count(kinds, EvalSha)
  }

  lemma EnterLedger(cfg: Config, s: State, call: Call)
    requires Books(cfg, s) && 0 <= s.stats.active <= 4
    ensures var (t, verdict) := Enter(cfg, s, call);
      && Books(cfg, t) && s.seen <= t.seen && Entered(s, t, verdict)
      && (verdict.Sent? ==>
            s.stats.failure.None? && call.options.Some? && call.options.value in t.seen - s.seen)
  {
    hide Forward, Count;
    if call.options.Some? {
      var counted := s.(stats := s.stats.(fetchAttempts := Capped(s.stats.fetchAttempts)));
      ForwardLedger(cfg, counted.(seen := counted.seen + {call.options.value}), call);
    }
  }

  lemma {:induction false} CountOfPrefix(kinds: seq<Kind>, i: nat)
    requires i <= |kinds|
    ensures Count(kinds[..i], EvalSha) <= Count(kinds, EvalSha)
    decreases |kinds|
  {
    if i < |kinds| {
      assert kinds[..|kinds| - 1][..i] == kinds[..i];
      CountOfPrefix(kinds[..|kinds| - 1], i);
    } else {
      assert kinds[..i] == kinds;
    }
  }

  /** Credits come one for one with NOSCRIPT replies, and only from the EVALSHA commands of this call. */
  lemma {:induction false} AbsorbLedger(s: State, kinds: seq<Kind>, items: seq<Item>, i: nat)
    requires i <= |items| == |kinds|
    ensures var t := Absorb(s, kinds, items, i).0;
      && t.stats.figures.noscript >= s.stats.figures.noscript
      && t.credits - s.credits == t.stats.figures.noscript - s.stats.figures.noscript
      && t.stats.figures.noscript - s.stats.figures.noscript + Count(kinds[..i], EvalSha) <= Count(kinds, EvalSha)
      && t == s.(credits := t.credits,
        stats := s.stats.(figures := s.stats.figures.(noscript := t.stats.figures.noscript)))
    decreases |items| - i
  {
    CountOfPrefix(kinds, i);
    if i < |items| && Objection(kinds[i], items[i]).None? {
      assert kinds[..i + 1][..i] == kinds[..i];
      AbsorbLedger(Granted(s, kinds[i], items[i]), kinds, items, i + 1);
    }
  }

  lemma SettleLedger(s: State, kinds: seq<Kind>, answer: Answer)
    ensures var t := Settle(s, kinds, answer).0;
      && t.stats.figures.noscript >= s.stats.figures.noscript
      && t.credits - s.credits == t.stats.figures.noscript - s.stats.figures.noscript
      && t.stats.figures.noscript - s.stats.figures.noscript <= Count(kinds, EvalSha)
      && t.seen == s.seen && (s.stats.failure.Some? ==> t.stats.failure == s.stats.failure)
      && t.stats == s.stats.(figures := s.stats.figures.(noscript := t.stats.figures.noscript),
                            active := s.stats.active - 1, failure := t.stats.failure)
  {
    if answer.Replies? && |answer.items| == |kinds| {
      AbsorbLedger(s, kinds, answer.items, 0);
    }
  }

  lemma {:induction false} ShaWithout(flights: seq<Flight>, k: nat)
    requires k < |flights|
    ensures ShaOf(Without(flights, k)) + Count(flights[k].kinds, EvalSha) == ShaOf(flights)
    decreases |flights|
  {
    var last := |flights| - 1;
    var front := flights[..last];
    if k == last {
      assert Without(flights, k) == front;
    } else {
      ShaWithout(front, k);
      assert Without(flights, k) == Without(front, k) + [flights[last]];
      assert Without(flights, k)[..last - 1] == Without(front, k);
    }
  }

  lemma ArriveKeeps(cfg: Config, w: World, call: Call)
    requires Ledger(cfg, w) && SentOnce(w)
    ensures Ledger(cfg, Step(cfg, w, Arrive(call))) && SentOnce(Step(cfg, w, Arrive(call)))
  {
    hide Enter, Books, Count;
    EnterLedger(cfg, w.guard, call);
    var verdict := Enter(cfg, w.guard, call).1;
    if verdict.Sent? {
      var flight := Flight(call.options.value, verdict.kinds);
      assert (w.flights + [flight])[..|w.flights|] == w.flights;
    }
  }

  lemma AnswerKeeps(cfg: Config, w: World, which: nat, answer: Answer)
    requires Ledger(cfg, w) && SentOnce(w) && which < |w.flights|
    ensures Ledger(cfg, Step(cfg, w, Answered(which, answer))) && SentOnce(Step(cfg, w, Answered(which, answer)))
  {
    hide Settle, Count;
    SettleLedger(w.guard, w.flights[which].kinds, answer);
    ShaWithout(w.flights, which);
  }

  lemma StepKeeps(cfg: Config, w: World, e: Event)
    requires Ledger(cfg, w) && SentOnce(w)
    ensures Ledger(cfg, Step(cfg, w, e)) && SentOnce(Step(cfg, w, e))
  {
    match e
    case Arrive(call) => ArriveKeeps(cfg, w, call);
    case Answered(which, answer) =>
      if which < |w.flights| {
        AnswerKeeps(cfg, w, which, answer);
      }
    case Stopped(code) =>
  }

  /** In every run the books balance, and no options object is forwarded twice. */
  lemma {:induction false} RunsBalance(cfg: Config, events: seq<Event>)
    requires 1 <= cfg.maxDecisions <= 402
    ensures Ledger(cfg, Run(cfg, events)) && SentOnce(Run(cfg, events))
    ensures var s := Run(cfg, events).guard;
      && s.stats.figures.noscript == s.stats.figures.eval + s.credits
      && s.stats.figures.eval <= s.stats.figures.noscript <= s.stats.figures.evalsha
      && s.stats.figures.evalsha <= cfg.maxDecisions && s.stats.active == |Run(cfg, events).flights| <= 4
  {
    if events != [] {
      RunsBalance(cfg, events[..|events| - 1]);
      StepKeeps(cfg, Run(cfg, events[..|events| - 1]), events[|events| - 1]);
    }
  }

  /** Once the latch is set nothing is forwarded any more and the code never changes. */
  lemma {:induction false} LatchedForGood(cfg: Config, events: seq<Event>, k: nat)
    requires k <= |events| && Run(cfg, events[..k]).guard.stats.failure.Some?
    ensures var earlier, now := Run(cfg, events[..k]), Run(cfg, events);
      && now.guard.stats.failure == earlier.guard.stats.failure && now.sent == earlier.sent
      && |now.flights| <= |earlier.flights|
    decreases |events|
  {
    if k == |events| {
      assert events[..k] == events;
    } else {
      var before, last := events[..|events| - 1], events[|events| - 1];
      assert before[..k] == events[..k];
      LatchedForGood(cfg, before, k);
      if last.Answered? && last.which < |Run(cfg, before).flights| {
        SettleLedger(Run(cfg, before).guard, Run(cfg, before).flights[last.which].kinds, last.answer);
      }
    }
  }

  /** The bounds of statsSchema. */
  predicate SchemaHolds(s: Stats) {
    && s.fetchAttempts <= 5000 && s.forwarded <= 806 && s.figures.commands <= 806 && s.figures.evalsha <= 402
    && s.figures.eval <= 402
    && s.figures.time <= 2 && s.figures.noscript <= 402 && s.retriesBlocked <= 5000 && 0 <= s.active <= 4
  }

  /** Every snapshot satisfies the published schema. */
  lemma SnapshotsFit(cfg: Config, events: seq<Event>)
    requires 1 <= cfg.maxDecisions <= 402 && cfg.maxTime <= 2
    ensures SchemaHolds(Run(cfg, events).guard.stats)
  {
    RunsBalance(cfg, events);
  }
}
