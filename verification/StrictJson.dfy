/** The duplicate-key checkers of scripts/gate1-build-qualification.js (strictJson) and
    scripts/gate1-vercel-build-diagnostic.js (parse), over the token stream of a JSON document. */
module StrictJson {
  import opened Wrappers

  /** A JSON document as written: an object keeps every member, duplicates included, keys decoded. */
  datatype Json =
    | Atom
    | Text(s: string)
    | Array(items: seq<Json>)
    | Object(members: seq<Member>)

  datatype Member = Member(key: string, value: Json)

  datatype Token = Open(isObject: bool) | Close | Colon | Comma | Str(decoded: string) | Literal

  function Tokens(v: Json): (ts: seq<Token>)
    ensures ts != [] && ts[0] != Colon
    decreases v, 1
  {
    match v
    case Atom => [Literal]
    case Text(s) => [Str(s)]
    case Array(items) => [Open(false)] + ItemTokens(items) + [Close]
    case Object(members) => [Open(true)] + MemberTokens(members) + [Close]
  }

  function Separator(more: bool): seq<Token> {
    if more then [Comma] else []
  }

  function ItemTokens(items: seq<Json>): seq<Token>
    decreases items, 0
  {
    if items == [] then []
    else Tokens(items[0]) + Separator(items[1..] != []) + ItemTokens(items[1..])
  }

  function MemberTokens(members: seq<Member>): seq<Token>
    decreases members, 0
  {
    if members == [] then []
    else [Str(members[0].key), Colon] + Tokens(members[0].value) + Separator(members[1..] != [])
         + MemberTokens(members[1..])
  }

  /** Nesting of arrays and objects. */
  function Depth(v: Json): nat
    decreases v, 1
  {
    match v
    case Array(items) => 1 + ItemsDepth(items)
    case Object(members) => 1 + MembersDepth(members)
    case _ => 0
  }

  function Max(a: nat, b: nat): nat { if a < b then b else a }

  function ItemsDepth(items: seq<Json>): nat
    decreases items, 0
  {
    if items == [] then 0 else Max(Depth(items[0]), ItemsDepth(items[1..]))
  }

  function MembersDepth(members: seq<Member>): nat
    decreases members, 0
  {
    if members == [] then 0 else Max(Depth(members[0].value), MembersDepth(members[1..]))
  }

  /** Number of values in the document, containers and leaves alike; keys are not values. */
  function Count(v: Json): nat
    decreases v, 1
  {
    match v
    case Array(items) => 1 + ItemsCount(items)
    case Object(members) => 1 + MembersCount(members)
    case _ => 1
  }

  function ItemsCount(items: seq<Json>): nat
    decreases items, 0
  {
    if items == [] then 0 else Count(items[0]) + ItemsCount(items[1..])
  }

  function MembersCount(members: seq<Member>): nat
    decreases members, 0
  {
    if members == [] then 0 else Count(members[0].value) + MembersCount(members[1..])
  }

  ghost predicate DistinctKeys(members: seq<Member>) {
    forall i, j :: 0 <= i < j < |members| ==> members[i].key != members[j].key
  }

  /** No object at any depth has two equal decoded keys (section 4 of RFC 8259). */
  ghost predicate NoDuplicateKeys(v: Json) {
    match v
    case Array(items) => forall i :: 0 <= i < |items| ==> NoDuplicateKeys(items[i])
    case Object(members) =>
      DistinctKeys(members) && forall i :: 0 <= i < |members| ==> NoDuplicateKeys(members[i].value)
    case _ => true
  }

  /** An entry is the key set of an open object, or None for an open array. */
  datatype State = State(stack: seq<Option<set<string>>>, nodes: nat)

  datatype Limits = Limits(depth: nat, nodes: Option<nat>)

  const STRICT := Limits(64, None)
  const BOUNDED := Limits(16, Some(4096))

  predicate Within(limits: Limits, st: State) {
    |st.stack| <= limits.depth && (limits.nodes.None? || st.nodes <= limits.nodes.value)
  }

  /** What one token does to the stack; None is a rejection. `keyed` says a colon follows. */
  function Advance(token: Token, keyed: bool, st: State): Option<State> {
    match token
    case Open(isObject) => Some(State(st.stack + [if isObject then Some({}) else None], st.nodes + 1))
    case Close => Some(st.(stack := if st.stack == [] then [] else st.stack[..|st.stack| - 1]))
    case Str(key) =>
      if !keyed then Some(st.(nodes := st.nodes + 1))
      else if st.stack == [] then None
      else
        var top := st.stack[|st.stack| - 1];
        if top.None? || key in top.value then None
        else Some(st.(stack := st.stack[|st.stack| - 1 := Some(top.value + {key})]))
    case Literal => Some(st.(nodes := st.nodes + 1))
    case _ => Some(st)
  }

  function Run(limits: Limits, ts: seq<Token>, st: State): Option<State> {
    if ts == [] then Some(st)
    else match Advance(ts[0], |ts| > 1 && ts[1] == Colon, st)
      case None => None
      case Some(next) => if Within(limits, next) then Run(limits, ts[1..], next) else None
  }

  function Checked(limits: Limits, st: State): Option<State> {
    if Within(limits, st) then Some(st) else None
  }

  /** The checker read over the document instead of over its tokens. */
  function Eval(limits: Limits, v: Json, st: State): (r: Option<State>)
    ensures r.Some? && Within(limits, st) ==> Within(limits, r.value)
    ensures r.Some? ==> r.value.stack == st.stack
    decreases v, 1
  {
    match v
    case Array(items) =>
      var inner := State(st.stack + [None], st.nodes + 1);
      if !Within(limits, inner) then None
      else Leave(st.stack, EvalItems(limits, items, inner))
    case Object(members) =>
      var inner := State(st.stack + [Some({})], st.nodes + 1);
      if !Within(limits, inner) then None
      else Leave(st.stack, EvalMembers(limits, members, st.stack, {}, inner.nodes))
    case _ => Checked(limits, st.(nodes := st.nodes + 1))
  }

  function Leave(outer: seq<Option<set<string>>>, done: Option<State>): Option<State> {
    if done.None? then None else Some(State(outer, done.value.nodes))
  }

  function EvalItems(limits: Limits, items: seq<Json>, st: State): (r: Option<State>)
    ensures r.Some? && Within(limits, st) ==> Within(limits, r.value)
    ensures r.Some? ==> r.value.stack == st.stack
    decreases items, 0
  {
    if items == [] then Some(st)
    else match Eval(limits, items[0], st)
      case None => None
      case Some(next) => EvalItems(limits, items[1..], State(st.stack, next.nodes))
  }

  function EvalMembers(limits: Limits, members: seq<Member>, outer: seq<Option<set<string>>>,
                       seen: set<string>, nodes: nat): (r: Option<State>)
    ensures r.Some? && Within(limits, State(outer + [Some(seen)], nodes)) ==> Within(limits, r.value)
    ensures r.Some? ==> r.value.stack == outer + [Some(seen + Keys(members))]
    decreases members, 0
  {
    if members == [] then
      assert seen + Keys(members) == seen;
      Some(State(outer + [Some(seen)], nodes))
    else if members[0].key in seen then None
    else
      var grown := seen + {members[0].key};
      assert grown + Keys(members[1..]) == seen + Keys(members);
      match Eval(limits, members[0].value, State(outer + [Some(grown)], nodes))
      case None => None
      case Some(next) => EvalMembers(limits, members[1..], outer, grown, next.nodes)
  }

  function Keys(members: seq<Member>): set<string> {
    if members == [] then {} else {members[0].key} + Keys(members[1..])
  }

  /** The rest of the tokens, read from wherever the first part ended. */
  function Then(limits: Limits, first: Option<State>, rest: seq<Token>): Option<State> {
    if first.None? then None else Run(limits, rest, first.value)
  }

  lemma {:induction false} RunValue(limits: Limits, v: Json, rest: seq<Token>, st: State)
    requires Within(limits, st) && (rest == [] || rest[0] != Colon)
    ensures Run(limits, Tokens(v) + rest, st) == Then(limits, Eval(limits, v, st), rest)
    decreases v, 1
  {
    match v
    case Atom => assert ([Literal] + rest)[1..] == rest;
    case Text(s) => assert ([Str(s)] + rest)[1..] == rest;
    case Array(items) => RunArray(limits, items, rest, st);
    case Object(members) => RunObject(limits, members, rest, st);
  }

  lemma {:induction false} RunArray(limits: Limits, items: seq<Json>, rest: seq<Token>, st: State)
    requires Within(limits, st) && (rest == [] || rest[0] != Colon)
    ensures Run(limits, Tokens(Array(items)) + rest, st) == Then(limits, Eval(limits, Array(items), st), rest)
    decreases Array(items), 0
  {
    var inner := State(st.stack + [None], st.nodes + 1);
    var body := ItemTokens(items) + ([Close] + rest);
    RunOpen(limits, false, body, st);
    assert Tokens(Array(items)) + rest == [Open(false)] + body;
    if Within(limits, inner) {
      RunItems(limits, items, [Close] + rest, inner);
      RunClose(limits, rest, st.stack, EvalItems(limits, items, inner));
    }
  }

  lemma {:induction false} RunObject(limits: Limits, members: seq<Member>, rest: seq<Token>, st: State)
    requires Within(limits, st) && (rest == [] || rest[0] != Colon)
    ensures Run(limits, Tokens(Object(members)) + rest, st) == Then(limits, Eval(limits, Object(members), st), rest)
    decreases Object(members), 0
  {
    var inner := State(st.stack + [Some({})], st.nodes + 1);
    var body := MemberTokens(members) + ([Close] + rest);
    RunOpen(limits, true, body, st);
    assert Tokens(Object(members)) + rest == [Open(true)] + body;
    if Within(limits, inner) {
      RunMembers(limits, members, [Close] + rest, st.stack, {}, inner.nodes);
      RunClose(limits, rest, st.stack, EvalMembers(limits, members, st.stack, {}, inner.nodes));
    }
  }

  lemma RunOpen(limits: Limits, isObject: bool, rest: seq<Token>, st: State)
    ensures Run(limits, [Open(isObject)] + rest, st) ==
      Then(limits, Checked(limits, State(st.stack + [if isObject then Some({}) else None], st.nodes + 1)), rest)
  {
    assert ([Open(isObject)] + rest)[1..] == rest;
  }

  lemma RunClose(limits: Limits, rest: seq<Token>, outer: seq<Option<set<string>>>, done: Option<State>)
    requires done.Some? ==> Within(limits, done.value) && |done.value.stack| == |outer| + 1
                            && done.value.stack[..|outer|] == outer
    ensures Then(limits, done, [Close] + rest) == Then(limits, Leave(outer, done), rest)
  {
    assert ([Close] + rest)[1..] == rest;
  }

  lemma RunSeparator(limits: Limits, more: bool, rest: seq<Token>, st: State)
    requires Within(limits, st)
    ensures Run(limits, Separator(more) + rest, st) == Run(limits, rest, st)
  {
    if more {
      assert ([Comma] + rest)[1..] == rest;
    } else {
      assert [] + rest == rest;
    }
  }

  lemma {:induction false} RunItems(limits: Limits, items: seq<Json>, rest: seq<Token>, st: State)
    requires Within(limits, st) && rest != [] && rest[0] == Close
    ensures Run(limits, ItemTokens(items) + rest, st) == Then(limits, EvalItems(limits, items, st), rest)
    decreases items, 0
  {
    if items == [] {
      assert ItemTokens(items) + rest == rest;
    } else {
      var v, others := items[0], items[1..];
      var later := ItemTokens(others) + rest;
      assert ItemTokens(items) + rest == Tokens(v) + (Separator(others != []) + later);
      RunValue(limits, v, Separator(others != []) + later, st);
      var next := Eval(limits, v, st);
      if next.Some? {
        RunSeparator(limits, others != [], later, next.value);
        RunItems(limits, others, rest, next.value);
      }
    }
  }

  lemma {:induction false} RunMembers(limits: Limits, members: seq<Member>, rest: seq<Token>,
                                      outer: seq<Option<set<string>>>, seen: set<string>, nodes: nat)
    requires Within(limits, State(outer + [Some(seen)], nodes)) && rest != [] && rest[0] == Close
    ensures Run(limits, MemberTokens(members) + rest, State(outer + [Some(seen)], nodes)) ==
            Then(limits, EvalMembers(limits, members, outer, seen, nodes), rest)
    decreases members, 0
  {
    if members == [] {
      assert MemberTokens(members) + rest == rest;
    } else {
      var m, others := members[0], members[1..];
      var later := MemberTokens(others) + rest;
      var value := Tokens(m.value) + (Separator(others != []) + later);
      assert MemberTokens(members) + rest == [Str(m.key), Colon] + value;
      RunKey(limits, m.key, value, outer, seen, nodes);
      if m.key !in seen {
        var grown := seen + {m.key};
        var keyed := State(outer + [Some(grown)], nodes);
        RunValue(limits, m.value, Separator(others != []) + later, keyed);
        var next := Eval(limits, m.value, keyed);
        if next.Some? {
          RunSeparator(limits, others != [], later, next.value);
          RunMembers(limits, others, rest, outer, grown, next.value.nodes);
        }
      }
    }
  }

  lemma RunKey(limits: Limits, key: string, rest: seq<Token>, outer: seq<Option<set<string>>>,
               seen: set<string>, nodes: nat)
    requires Within(limits, State(outer + [Some(seen)], nodes))
    ensures Run(limits, [Str(key), Colon] + rest, State(outer + [Some(seen)], nodes)) ==
      if key in seen then None else Run(limits, rest, State(outer + [Some(seen + {key})], nodes))
  {
    var ts := [Str(key), Colon] + rest;
    assert ts[1..] == [Colon] + rest && ts[1..][1..] == rest;
    assert (outer + [Some(seen)])[|outer| := Some(seen + {key})] == outer + [Some(seen + {key})];
  }

  /** The order in which the checker meets keys: each new one is outside those already seen. */
  predicate Fresh(members: seq<Member>, seen: set<string>) {
    members == [] || (members[0].key !in seen && Fresh(members[1..], seen + {members[0].key}))
  }

  lemma {:induction false} FreshIsDistinct(members: seq<Member>, seen: set<string>)
    ensures Fresh(members, seen) <==>
      DistinctKeys(members) && forall i :: 0 <= i < |members| ==> members[i].key !in seen
  {
    if members != [] {
      var k, rest := members[0].key, members[1..];
      FreshIsDistinct(rest, seen + {k});
      assert members == [members[0]] + rest;
      if Fresh(members, seen) {
        assert forall i :: 1 <= i < |members| ==> members[i] == rest[i - 1];
      }
    }
  }

  ghost predicate Room(limits: Limits, st: State, depth: nat, count: nat) {
    |st.stack| + depth <= limits.depth && Within(limits, st.(nodes := st.nodes + count))
  }

  ghost predicate ItemsClean(items: seq<Json>) {
    forall i :: 0 <= i < |items| ==> NoDuplicateKeys(items[i])
  }

  ghost predicate MembersClean(members: seq<Member>) {
    forall i :: 0 <= i < |members| ==> NoDuplicateKeys(members[i].value)
  }

  /** Reading a value succeeds iff its keys are clean and its depth and count fit; only the count remains. */
  lemma {:induction false} EvalIsExact(limits: Limits, v: Json, st: State)
    requires Within(limits, st)
    ensures Eval(limits, v, st) ==
      if NoDuplicateKeys(v) && Room(limits, st, Depth(v), Count(v))
      then Some(st.(nodes := st.nodes + Count(v))) else None
    decreases v, 1
  {
    match v
    case Array(items) =>
      var inner := State(st.stack + [None], st.nodes + 1);
      if Within(limits, inner) {
        ItemsExact(limits, items, inner);
      }
    case Object(members) =>
      var inner := State(st.stack + [Some({})], st.nodes + 1);
      FreshIsDistinct(members, {});
      if Within(limits, inner) {
        MembersExact(limits, members, st.stack, {}, inner.nodes);
      }
    case _ =>
  }

  lemma {:induction false} ItemsExact(limits: Limits, items: seq<Json>, st: State)
    requires Within(limits, st)
    ensures EvalItems(limits, items, st) ==
      if ItemsClean(items) && Room(limits, st, ItemsDepth(items), ItemsCount(items))
      then Some(st.(nodes := st.nodes + ItemsCount(items))) else None
    decreases items, 0
  {
    if items != [] {
      EvalIsExact(limits, items[0], st);
      assert items == [items[0]] + items[1..];
      assert ItemsClean(items) <==> NoDuplicateKeys(items[0]) && ItemsClean(items[1..]);
      var next := st.(nodes := st.nodes + Count(items[0]));
      if Within(limits, next) {
        ItemsExact(limits, items[1..], next);
      }
    }
  }

  lemma FirstMember(members: seq<Member>, seen: set<string>)
    requires members != []
    ensures MembersClean(members) <==> NoDuplicateKeys(members[0].value) && MembersClean(members[1..])
    ensures seen + {members[0].key} + Keys(members[1..]) == seen + Keys(members)
  {
    assert members == [members[0]] + members[1..];
  }

  lemma {:induction false} MembersExact(limits: Limits, members: seq<Member>, outer: seq<Option<set<string>>>,
                                        seen: set<string>, nodes: nat)
    requires Within(limits, State(outer + [Some(seen)], nodes))
    ensures EvalMembers(limits, members, outer, seen, nodes) ==
      if Fresh(members, seen) && MembersClean(members)
         && Room(limits, State(outer + [Some(seen)], nodes), MembersDepth(members), MembersCount(members))
      then Some(State(outer + [Some(seen + Keys(members))], nodes + MembersCount(members))) else None
    decreases members, 0
  {
    if members != [] {
      var m, others := members[0], members[1..];
      var grown := seen + {m.key};
      var keyed := State(outer + [Some(grown)], nodes);
      EvalIsExact(limits, m.value, keyed);
      FirstMember(members, seen);
      var next := keyed.(nodes := nodes + Count(m.value));
      if Within(limits, next) {
        MembersExact(limits, others, outer, grown, next.nodes);
      }
    }
  }

  const START := State([], 0)

  ghost predicate Acceptable(limits: Limits, v: Json) {
    && NoDuplicateKeys(v)
    && Depth(v) <= limits.depth
    && (limits.nodes.None? || Count(v) <= limits.nodes.value)
  }

  /** The stack machine accepts a document's tokens iff the document meets the declarative conditions. */
  lemma CheckerIsExact(limits: Limits, v: Json)
    ensures Run(limits, Tokens(v), START).Some? <==> Acceptable(limits, v)
  {
    assert Tokens(v) + [] == Tokens(v);
    RunValue(limits, v, [], START);
    EvalIsExact(limits, v, START);
  }

  lemma RunNext(limits: Limits, tokens: seq<Token>, i: nat, st: State)
    requires i < |tokens|
    ensures var next := Advance(tokens[i], i + 1 < |tokens| && tokens[i + 1] == Colon, st);
      Run(limits, tokens[i..], st) ==
        if next.Some? && Within(limits, next.value) then Run(limits, tokens[i + 1..], next.value) else None
  {
    assert tokens[i..][1..] == tokens[i + 1..];
  }

  /** The token loop of strictJson, which runs after JSON.parse has accepted the text. */
  method Strict(tokens: seq<Token>) returns (ok: bool)
    ensures ok <==> Run(STRICT, tokens, START).Some?
  {
    var stack: seq<Option<set<string>>> := [];
    ghost var nodes := 0;
    for i := 0 to |tokens|
      invariant |stack| <= 64
      invariant Run(STRICT, tokens[i..], State(stack, nodes)) == Run(STRICT, tokens, START)
    {
      var token := tokens[i];
      RunNext(STRICT, tokens, i, State(stack, nodes));
      ghost var next := Advance(token, i + 1 < |tokens| && tokens[i + 1] == Colon, State(stack, nodes));
      if token.Open? {
        stack := stack + [if token.isObject then Some({}) else None];
      } else if token.Close? {
        if stack != [] {
          stack := stack[..|stack| - 1];
        }
      } else if token.Str? && i + 1 < |tokens| && tokens[i + 1] == Colon {
        if stack == [] || stack[|stack| - 1].None? || token.decoded in stack[|stack| - 1].value {
          return false;
        }
        stack := stack[|stack| - 1 := Some(stack[|stack| - 1].value + {token.decoded})];
      }
      if |stack| > 64 {
        return false;
      }
      nodes := next.value.nodes;
    }
    assert tokens[|tokens|..] == [];
    return true;
  }

  /** The token loop of the bounded parser, which runs before JSON.parse and also counts values. */
  method Bounded(tokens: seq<Token>) returns (ok: bool)
    ensures ok <==> Run(BOUNDED, tokens, START).Some?
  {
    var stack: seq<Option<set<string>>> := [];
    var nodes := 0;
    for i := 0 to |tokens|
      invariant |stack| <= 16 && nodes <= 4096
      invariant Run(BOUNDED, tokens[i..], State(stack, nodes)) == Run(BOUNDED, tokens, START)
    {
      var token := tokens[i];
      RunNext(BOUNDED, tokens, i, State(stack, nodes));
      if token.Open? {
        stack := stack + [if token.isObject then Some({}) else None];
        nodes := nodes + 1;
      } else if token.Close? {
        if stack != [] {
          stack := stack[..|stack| - 1];
        }
      } else if token.Str? && i + 1 < |tokens| && tokens[i + 1] == Colon {
        if stack == [] || stack[|stack| - 1].None? || token.decoded in stack[|stack| - 1].value {
          return false;
        }
        stack := stack[|stack| - 1 := Some(stack[|stack| - 1].value + {token.decoded})];
      } else if token != Colon && token != Comma {
        nodes := nodes + 1;
      }
      if |stack| > 16 || nodes > 4096 {
        return false;
      }
    }
    assert tokens[|tokens|..] == [];
    return true;
  }

  /** What JSON.parse keeps of an object: the last member of each key. */
  function LastWins(members: seq<Member>): map<string, Json> {
    if members == [] then map[]
    else LastWins(members[..|members| - 1])[members[|members| - 1].key := members[|members| - 1].value]
  }

  lemma {:induction false} LastWinsKeys(members: seq<Member>)
    ensures LastWins(members).Keys == (set m | m in members :: m.key)
    ensures |LastWins(members)| <= |members|
  {
    if members != [] {
      var n := |members| - 1;
      LastWinsKeys(members[..n]);
      assert members == members[..n] + [members[n]];
    }
  }

  lemma LastWinsStep(init: seq<Member>, last: Member)
    ensures LastWins(init + [last]) == LastWins(init)[last.key := last.value]
    ensures DistinctKeys(init + [last]) <==> DistinctKeys(init) && last.key !in LastWins(init)
  {
    var members := init + [last];
    assert members[..|init|] == init;
    LastWinsKeys(init);
    if last.key in LastWins(init) {
      var m :| m in init && m.key == last.key;
      var i :| 0 <= i < |init| && init[i] == m;
      assert members[i].key == members[|init|].key;
    }
    assert forall i :: 0 <= i < |init| ==> members[i] == init[i] && init[i] in init;
  }

  /** The parsed object has as many entries as the document has members iff no key repeats,
      so an accepted object loses no member to JSON.parse and a rejected one does. */
  lemma {:induction false} NothingOverwritten(members: seq<Member>)
    ensures |LastWins(members)| == |members| <==> DistinctKeys(members)
    ensures DistinctKeys(members) ==>
      forall m :: m in members ==> m.key in LastWins(members) && LastWins(members)[m.key] == m.value
  {
    if members != [] {
      var init, last := members[..|members| - 1], members[|members| - 1];
      assert members == init + [last];
      NothingOverwritten(init);
      LastWinsKeys(init);
      LastWinsStep(init, last);
    }
  }
}
