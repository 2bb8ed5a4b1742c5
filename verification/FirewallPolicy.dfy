/** The comparisons of scripts/gate1-log-receipt.js: what counts as the baseline policy, as the one owned
    rule, and as the one owned change. */
module FirewallPolicy {
  import opened Wrappers

  datatype Json = Null | Bool(b: bool) | Number(n: int) | Str(s: string) | Arr(items: seq<Json>)
    | Obj(fields: map<string, Json>)

  /** A rule is its id and all its other fields. */
  datatype Rule = Rule(id: string, fields: map<string, Json>)

  /** What a configuration enforces: the project key, the rules in order, and all other fields. */
  datatype Policy = Policy(key: string, rules: seq<Rule>, others: map<string, Json>)

  /** Its four fields of metadata. */
  datatype Meta = Meta(id: string, version: nat, updatedAt: string, changes: seq<Json>)

  datatype Config = Config(meta: Meta, policy: Policy)

  const PROJECT := "prj_b2nMrysMSJtpmqoeGx5g0WGgGuom"

  /** The exact role suffix of an active key: one separator and the word active. */
  predicate ActiveRole(key: string) {
    && PROJECT <= key && |key| == |PROJECT| + 7
    && key[|PROJECT|] in {'#', ':', '/', '.', '_', '-'} && key[|PROJECT| + 1..] == "active"
  }

  function ExpectedKey(key: string, isDraft: bool): string {
    if isDraft && ActiveRole(key) then PROJECT + [key[|PROJECT|]] + "draft" else key
  }

  predicate PolicyMatches(config: Config, baseline: Config, isDraft: bool, rules: seq<Rule>) {
    && config.policy.key == ExpectedKey(baseline.policy.key, isDraft) && config.policy.others == baseline.policy.others
    && rules == baseline.policy.rules
  }

  /** An active configuration matches iff it enforces what the baseline enforces. */
  lemma MatchIsSamePolicy(config: Config, baseline: Config)
    ensures PolicyMatches(config, baseline, false, config.policy.rules) <==> config.policy == baseline.policy
  {
  }

  predicate RuleId(id: string) {
    && "rule_" <= id && 6 <= |id| <= 133
    && forall i :: 5 <= i < |id| ==>
         'A' <= id[i] <= 'Z' || 'a' <= id[i] <= 'z' || '0' <= id[i] <= '9' || id[i] in {'_', '-'}
  }

  const VALIDATION := {"valid", "validationErrors"}

  predicate MatchesRule(rule: Rule, expected: map<string, Json>) {
    && RuleId(rule.id)
    && "valid" in rule.fields && rule.fields["valid"] == Bool(true)
    && ("validationErrors" in rule.fields ==> rule.fields["validationErrors"] in [Null, Arr([])])
    && rule.fields - VALIDATION == expected
  }

  function Keep(keep: Rule -> bool, rules: seq<Rule>): seq<Rule> {
    if rules == [] then []
    else (if keep(rules[0]) then [rules[0]] else []) + Keep(keep, rules[1..])
  }

  predicate HasId(rules: seq<Rule>, id: string) {
    exists i :: 0 <= i < |rules| && rules[i].id == id
  }

  /** Rules whose id the list does not have. */
  function Unknown(rules: seq<Rule>): Rule -> bool { (rule: Rule) => !HasId(rules, rule.id) }

  function OtherThan(id: string): Rule -> bool { (rule: Rule) => rule.id != id }

  /** Exactly one rule the baseline does not have, recognised as ours, and nothing else changed. */
  function AddedRule(config: Config, baseline: Config, expected: map<string, Json>, isDraft: bool): Option<Rule> {
    var additions := Keep(Unknown(baseline.policy.rules), config.policy.rules);
    if |additions| != 1 || !MatchesRule(additions[0], expected) then None
    else if !PolicyMatches(config, baseline, isDraft, Keep(OtherThan(additions[0].id), config.policy.rules)) then None
    else Some(additions[0])
  }

  /** The baseline with one owned rule put in at some place. */
  ghost predicate OwnsWith(policy: Policy, baseline: Config, expected: map<string, Json>, k: nat, rule: Rule) {
    && k <= |baseline.policy.rules| && policy.rules == baseline.policy.rules[..k] + [rule] + baseline.policy.rules[k..]
    && policy.key == baseline.policy.key && policy.others == baseline.policy.others
    && MatchesRule(rule, expected) && !HasId(baseline.policy.rules, rule.id)
  }

  ghost predicate Owns(policy: Policy, baseline: Config, expected: map<string, Json>) {
    exists k, rule :: OwnsWith(policy, baseline, expected, k, rule)
  }

  lemma {:induction false} NothingKept(keep: Rule -> bool, rules: seq<Rule>)
    ensures Keep(keep, rules) == [] <==> forall i :: 0 <= i < |rules| ==> !keep(rules[i])
  {
    if rules != [] {
      NothingKept(keep, rules[1..]);
      if Keep(keep, rules) == [] {
        forall i | 0 <= i < |rules|
          ensures !keep(rules[i])
        {
          if i > 0 {
            assert rules[1..][i - 1] == rules[i];
          }
        }
      }
    }
  }

  lemma {:induction false} AllKept(keep: Rule -> bool, rules: seq<Rule>)
    requires forall i :: 0 <= i < |rules| ==> keep(rules[i])
    ensures Keep(keep, rules) == rules
  {
    if rules != [] {
      AllKept(keep, rules[1..]);
    }
  }

  lemma {:induction false} KeepConcat(keep: Rule -> bool, a: seq<Rule>, b: seq<Rule>)
    ensures Keep(keep, a + b) == Keep(keep, a) + Keep(keep, b)
  {
    if a == [] {
      assert a + b == b;
    } else {
      var head: seq<Rule> := if keep(a[0]) then [a[0]] else [];
      assert (a + b)[1..] == a[1..] + b;
      KeepConcat(keep, a[1..], b);
      assert head + (Keep(keep, a[1..]) + Keep(keep, b)) == (head + Keep(keep, a[1..])) + Keep(keep, b);
    }
  }

  /** The element at k alone is kept. */
  ghost predicate KeptAt(keep: Rule -> bool, rules: seq<Rule>, k: nat) {
    k < |rules| && keep(rules[k]) && forall i :: 0 <= i < |rules| && i != k ==> !keep(rules[i])
  }

  lemma {:induction false} KeptAlone(keep: Rule -> bool, rules: seq<Rule>, rule: Rule) returns (k: nat)
    requires Keep(keep, rules) == [rule]
    ensures KeptAt(keep, rules, k) && rules[k] == rule
  {
    var rest := rules[1..];
    if keep(rules[0]) {
      k := 0;
      assert Keep(keep, rules) == [rules[0]] + Keep(keep, rest);
      assert rule == Keep(keep, rules)[0] == rules[0];
      assert |Keep(keep, rest)| == 0;
      NothingKept(keep, rest);
      forall i | 0 < i < |rules|
        ensures !keep(rules[i])
      {
        assert rules[i] == rest[i - 1];
      }
    } else {
      assert Keep(keep, rules) == Keep(keep, rest);
      var j := KeptAlone(keep, rest, rule);
      k := j + 1;
      forall i | 0 <= i < |rules| && i != k
        ensures !keep(rules[i])
      {
        assert i == 0 || rules[i] == rest[i - 1];
      }
    }
  }

  lemma KeepOne(keep: Rule -> bool, x: Rule)
    ensures Keep(keep, [x]) == if keep(x) then [x] else []
  {
    assert [x][1..] == [];
  }

  lemma KeepAllBut(keep: Rule -> bool, before: seq<Rule>, x: Rule, after: seq<Rule>)
    requires Keep(keep, before) == before && !keep(x) && Keep(keep, after) == after
    ensures Keep(keep, before + ([x] + after)) == before + after
  {
    KeepConcat(keep, before, [x] + after);
    KeepConcat(keep, [x], after);
    KeepOne(keep, x);
    assert [] + after == after;
  }

  ghost predicate NoneWithId(rules: seq<Rule>, id: string) {
    forall i :: 0 <= i < |rules| ==> rules[i].id != id
  }

  lemma NoneLeftOut(rules: seq<Rule>, id: string)
    requires NoneWithId(rules, id)
    ensures Keep(OtherThan(id), rules) == rules
  {
    AllKept(OtherThan(id), rules);
  }

  /** Leaving out the one element with this id leaves the stretches around it. */
  lemma KeepAround(before: seq<Rule>, x: Rule, after: seq<Rule>)
    requires NoneWithId(before, x.id) && NoneWithId(after, x.id)
    ensures Keep(OtherThan(x.id), before + ([x] + after)) == before + after
  {
    NoneLeftOut(before, x.id);
    NoneLeftOut(after, x.id);
    KeepAllBut(OtherThan(x.id), before, x, after);
  }

  /** The recognised addition is an insertion: the rules are the baseline's, in order, with one rule put in. */
  lemma AddedRuleIsInsertion(config: Config, baseline: Config, expected: map<string, Json>, isDraft: bool)
    requires AddedRule(config, baseline, expected, isDraft).Some?
    ensures Owns(Policy(baseline.policy.key, config.policy.rules, config.policy.others), baseline, expected)
  {
    var rules, rule := config.policy.rules, AddedRule(config, baseline, expected, isDraft).value;
    var unknown := Unknown(baseline.policy.rules);
    assert Keep(unknown, rules) == [rule];
    var k := KeptAlone(unknown, rules, rule);
    forall i | 0 <= i < |rules| && i != k
      ensures rules[i].id != rule.id
    {
      assert !unknown(rules[i]);
    }
    KeepAround(rules[..k], rule, rules[k + 1..]);
    assert rules == rules[..k] + ([rule] + rules[k + 1..]);
    assert baseline.policy.rules == rules[..k] + rules[k + 1..];
    assert rules == baseline.policy.rules[..k] + [rule] + baseline.policy.rules[k..];
    assert unknown(rule);
    assert OwnsWith(Policy(baseline.policy.key, rules, config.policy.others), baseline, expected, k, rule);
  }

  lemma NoneUnknown(part: seq<Rule>, rules: seq<Rule>)
    requires forall i :: 0 <= i < |part| ==> HasId(rules, part[i].id)
    ensures Keep(Unknown(rules), part) == []
  {
    NothingKept(Unknown(rules), part);
  }

  lemma KeepOnlyMiddle(keep: Rule -> bool, before: seq<Rule>, x: Rule, after: seq<Rule>)
    requires Keep(keep, before) == [] && keep(x) && Keep(keep, after) == []
    ensures Keep(keep, before + ([x] + after)) == [x]
  {
    KeepConcat(keep, before, [x] + after);
    KeepConcat(keep, [x], after);
    KeepOne(keep, x);
  }

  /** Any insertion of one matching rule with a new id is recognised, wherever it was put. */
  lemma InsertionIsAdded(config: Config, baseline: Config, expected: map<string, Json>, isDraft: bool, k: nat,
                         rule: Rule)
    requires OwnsWith(Policy(baseline.policy.key, config.policy.rules, config.policy.others), baseline, expected, k,
      rule)
    requires config.policy.key == ExpectedKey(baseline.policy.key, isDraft)
    ensures AddedRule(config, baseline, expected, isDraft) == Some(rule)
  {
    var before, after := baseline.policy.rules[..k], baseline.policy.rules[k..];
    assert config.policy.rules == before + ([rule] + after);
    forall i | 0 <= i < |baseline.policy.rules|
      ensures HasId(baseline.policy.rules, baseline.policy.rules[i].id)
    {
    }
    NoneUnknown(before, baseline.policy.rules);
    NoneUnknown(after, baseline.policy.rules);
    KeepOnlyMiddle(Unknown(baseline.policy.rules), before, rule, after);
    KeepAround(before, rule, after);
    assert before + after == baseline.policy.rules;
  }

  /** A policy that owns one rule is not the baseline's. */
  lemma OwningDiffers(policy: Policy, baseline: Config, expected: map<string, Json>)
    requires Owns(policy, baseline, expected)
    ensures policy != baseline.policy
  {
    var k, rule :| OwnsWith(policy, baseline, expected, k, rule);
    assert |policy.rules| == |baseline.policy.rules| + 1;
  }

  // ---- recorded changes

  const LEGACY := {"action", "id", "value"}
  const METADATA := {"action", "id", "value", "createdAt", "userId", "username"}

  predicate Text(value: Json, max: nat) { value.Str? && 1 <= |value.s| <= max }

  /** The recorded shape of the one change, with or without the provider's metadata. */
  predicate ChangeShape(change: map<string, Json>) {
    || change.Keys == LEGACY
    || (change.Keys == METADATA && change["id"].Str? && RuleId(change["id"].s)
        && Text(change["createdAt"], 128) && Text(change["userId"], 512) && Text(change["username"], 512))
  }

  function WholeRule(rule: Rule): Json { Obj(rule.fields["id" := Str(rule.id)]) }

  predicate RequireChange(draft: Config, action: string, rule: Rule, expected: map<string, Json>) {
    && |draft.meta.changes| == 1 && draft.meta.changes[0].Obj?
    && var change := draft.meta.changes[0].fields;
       var legacy := change.Keys == LEGACY;
       && ChangeShape(change) && change["action"] == Str(action)
       && if action == "rules.insert"
          then (change["id"] == Str(rule.id) || (legacy && change["id"] == Null))
               && (change["value"] == Obj(expected) || (legacy && change["value"] == WholeRule(rule)))
          else change["id"] == Str(rule.id) && change["value"] == Null
  }
}
