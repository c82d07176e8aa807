/**
 * The edits the automation studio applies to an agent configuration: the
 * object-spread merges of a partial rule or partial configuration, the
 * rule-list transforms (map, filter, append), the active-rule count and the
 * status label. The studio's state class applies them in place.
 */
module Editor {
  import opened Wrappers
  import opened Types

  // ---------------------------------------------------------------------
  // Partial records and the spread merge
  // ---------------------------------------------------------------------

  /** A partial rule: a field is present (Some) or absent (None). */
  datatype RulePatch = RulePatch(
    id: Option<string>,
    name: Option<string>,
    matchType: Option<MatchType>,
    pattern: Option<string>,
    response: Option<string>,
    active: Option<bool>)

  /** A partial configuration. */
  datatype ConfigPatch = ConfigPatch(
    rules: Option<seq<Rule>>,
    defaultResponse: Option<string>,
    aiEnabled: Option<bool>)

  /** `{ ...rule, ...partial }`: the fields present in the patch overwrite, the others are kept. */
  function MergeRule(r: Rule, p: RulePatch): Rule {
    Rule(p.id.GetOr(r.id), p.name.GetOr(r.name), p.matchType.GetOr(r.matchType),
         p.pattern.GetOr(r.pattern), p.response.GetOr(r.response), p.active.GetOr(r.active))
  }

  /** `{ ...prev, ...partial }` on the configuration. */
  function MergeConfig(c: AgentConfig, p: ConfigPatch): AgentConfig {
    AgentConfig(p.rules.GetOr(c.rules), p.defaultResponse.GetOr(c.defaultResponse), p.aiEnabled.GetOr(c.aiEnabled))
  }

  /** The fields present in `later` win over those in `earlier`. */
  function ThenRule(earlier: RulePatch, later: RulePatch): RulePatch {
    RulePatch(
      if later.id.Some? then later.id else earlier.id,
      if later.name.Some? then later.name else earlier.name,
      if later.matchType.Some? then later.matchType else earlier.matchType,
      if later.pattern.Some? then later.pattern else earlier.pattern,
      if later.response.Some? then later.response else earlier.response,
      if later.active.Some? then later.active else earlier.active)
  }

  /** A merged rule takes each field from the patch when present, from the rule otherwise. */
  lemma MergeRuleFields(r: Rule, p: RulePatch)
    ensures var m := MergeRule(r, p);
            && (p.id.Some? ==> m.id == p.id.value) && (p.id.None? ==> m.id == r.id)
            && (p.name.Some? ==> m.name == p.name.value) && (p.name.None? ==> m.name == r.name)
            && (p.matchType.Some? ==> m.matchType == p.matchType.value) && (p.matchType.None? ==> m.matchType == r.matchType)
            && (p.pattern.Some? ==> m.pattern == p.pattern.value) && (p.pattern.None? ==> m.pattern == r.pattern)
            && (p.response.Some? ==> m.response == p.response.value) && (p.response.None? ==> m.response == r.response)
            && (p.active.Some? ==> m.active == p.active.value) && (p.active.None? ==> m.active == r.active)
  {
  }

  /** Merging twice is merging the combined patch, later fields winning; an empty patch changes nothing. */
  lemma MergeRuleComposes(r: Rule, p: RulePatch, q: RulePatch)
    ensures MergeRule(MergeRule(r, p), q) == MergeRule(r, ThenRule(p, q))
    ensures MergeRule(MergeRule(r, p), p) == MergeRule(r, p)
    ensures MergeRule(r, RulePatch(None, None, None, None, None, None)) == r
  {
  }

  /** handleChange keeps every configuration field the patch does not mention. */
  lemma MergeConfigFields(c: AgentConfig, p: ConfigPatch)
    ensures var m := MergeConfig(c, p);
            && (p.rules.Some? ==> m.rules == p.rules.value) && (p.rules.None? ==> m.rules == c.rules)
            && (p.defaultResponse.Some? ==> m.defaultResponse == p.defaultResponse.value)
            && (p.defaultResponse.None? ==> m.defaultResponse == c.defaultResponse)
            && (p.aiEnabled.Some? ==> m.aiEnabled == p.aiEnabled.value)
            && (p.aiEnabled.None? ==> m.aiEnabled == c.aiEnabled)
            && MergeConfig(m, p) == m
  {
  }

  // ---------------------------------------------------------------------
  // Rule-list transforms
  // ---------------------------------------------------------------------

  /** The rule `addRule` appends, under a freshly generated id. */
  function EmptyRule(id: string): Rule {
    Rule(id, "New rule", Contains, "hello", "Hi! Thanks for your message.", true)
  }

  /** `rules.map(rule => rule.id === id ? { ...rule, ...partial } : rule)`. */
  function UpdateRules(rules: seq<Rule>, id: string, p: RulePatch): (r: seq<Rule>)
    ensures |r| == |rules|
    ensures forall i :: 0 <= i < |rules| && rules[i].id == id ==> r[i] == MergeRule(rules[i], p)
    ensures forall i :: 0 <= i < |rules| && rules[i].id != id ==> r[i] == rules[i]
    decreases |rules|
  {
    if rules == [] then []
    else [if rules[0].id == id then MergeRule(rules[0], p) else rules[0]] + UpdateRules(rules[1..], id, p)
  }

  /** How many rules carry the given id. */
  function CountId(rules: seq<Rule>, id: string): nat
    decreases |rules|
  {
    if rules == [] then 0
    else (if rules[0].id == id then 1 else 0) + CountId(rules[1..], id)
  }

  /** `rules.filter(rule => rule.id !== id)`. */
  function RemoveRules(rules: seq<Rule>, id: string): (r: seq<Rule>)
    ensures forall x :: x in r <==> x in rules && x.id != id
    ensures |r| == |rules| - CountId(rules, id)
    ensures (forall i :: 0 <= i < |rules| ==> rules[i].id != id) ==> r == rules
    decreases |rules|
  {
    if rules == [] then []
    else (if rules[0].id == id then [] else [rules[0]]) + RemoveRules(rules[1..], id)
  }

  predicate UniqueIds(rules: seq<Rule>) {
    forall i, j :: 0 <= i < j < |rules| ==> rules[i].id != rules[j].id
  }

  /** `rules.filter(rule => rule.active)`. */
  function ActiveRules(rules: seq<Rule>): (r: seq<Rule>)
    ensures forall x :: x in r <==> x in rules && x.active
    ensures |r| <= |rules|
    decreases |rules|
  {
    if rules == [] then []
    else (if rules[0].active then [rules[0]] else []) + ActiveRules(rules[1..])
  }

  /** The "N active" figure of the rule list. */
  function ActiveCount(rules: seq<Rule>): (n: nat)
    ensures n <= |rules|
    ensures n == 0 <==> forall i :: 0 <= i < |rules| ==> !rules[i].active
  {
    NoActiveRules(rules);
    |ActiveRules(rules)|
  }

  /** The number of active rules, counted one rule at a time. */
  function CountActive(rules: seq<Rule>): nat
    decreases |rules|
  {
    if rules == [] then 0
    else (if rules[0].active then 1 else 0) + CountActive(rules[1..])
  }

  /** The active-rule figure is the number of active rules. */
  lemma {:induction false} ActiveCountIsCount(rules: seq<Rule>)
    ensures ActiveCount(rules) == CountActive(rules)
    decreases |rules|
  {
    if rules != [] {
      ActiveCountIsCount(rules[1..]);
    }
  }

  /** The active filter is empty exactly when no rule is active. */
  lemma NoActiveRules(rules: seq<Rule>)
    ensures ActiveRules(rules) == [] <==> forall i :: 0 <= i < |rules| ==> !rules[i].active
  {
  }

  /**
   * The footer text: the status message when it is a non-empty string, else
   * "Unsaved changes" while dirty, else "All changes saved"; never empty.
   */
  function StatusLabel(status: Option<string>, dirty: bool): (text: string)
    ensures status.Some? && status.value != "" ==> text == status.value
    ensures status.None? || status.value == "" ==>
              text == (if dirty then "Unsaved changes" else "All changes saved")
    ensures text != ""
  {
    if status.Some? && status.value != "" then status.value
    else if dirty then "Unsaved changes"
    else "All changes saved"
  }

  // ---------------------------------------------------------------------
  // Properties of the transforms
  // ---------------------------------------------------------------------

  /** Updating an id no rule carries leaves the list as it was. */
  lemma UpdateAbsentIdIsNoop(rules: seq<Rule>, id: string, p: RulePatch)
    requires forall i :: 0 <= i < |rules| ==> rules[i].id != id
    ensures UpdateRules(rules, id, p) == rules
  {
  }

  /** An update that does not touch `active` keeps the active-rule count. */
  lemma {:induction false} UpdateKeepsActiveCount(rules: seq<Rule>, id: string, p: RulePatch)
    requires p.active.None?
    ensures |ActiveRules(UpdateRules(rules, id, p))| == |ActiveRules(rules)|
    decreases |rules|
  {
    if rules != [] {
      UpdateKeepsActiveCount(rules[1..], id, p);
      var u := UpdateRules(rules, id, p);
      assert u[1..] == UpdateRules(rules[1..], id, p);
      assert u[0].active == rules[0].active;
    }
  }

  /** With unique ids, a rule carrying `id` is counted once. */
  lemma {:induction false} CountOfUniqueId(rules: seq<Rule>, id: string, i: nat)
    requires UniqueIds(rules) && i < |rules| && rules[i].id == id
    ensures CountId(rules, id) == 1
    decreases |rules|
  {
    if i == 0 {
      CountOfAbsentId(rules[1..], id);
    } else {
      assert rules[0].id != id;
      CountOfUniqueId(rules[1..], id, i - 1);
    }
  }

  lemma {:induction false} CountOfAbsentId(rules: seq<Rule>, id: string)
    requires forall i :: 0 <= i < |rules| ==> rules[i].id != id
    ensures CountId(rules, id) == 0
    decreases |rules|
  {
    if rules != [] {
      CountOfAbsentId(rules[1..], id);
    }
  }

  /** Removing a present id from a list with unique ids shrinks it by exactly one. */
  lemma RemovePresentShrinksByOne(rules: seq<Rule>, id: string, i: nat)
    requires UniqueIds(rules) && i < |rules| && rules[i].id == id
    ensures |RemoveRules(rules, id)| == |rules| - 1
  {
    CountOfUniqueId(rules, id, i);
  }

  /** Removal keeps order: it acts on each part of a list separately. */
  lemma {:induction false} RemoveKeepsOrder(a: seq<Rule>, b: seq<Rule>, id: string)
    ensures RemoveRules(a + b, id) == RemoveRules(a, id) + RemoveRules(b, id)
    decreases |a|
  {
    if a == [] {
      assert a + b == b;
    } else {
      assert (a + b)[0] == a[0];
      assert (a + b)[1..] == a[1..] + b;
      RemoveKeepsOrder(a[1..], b, id);
    }
  }

  /** Removing the same id twice is removing it once. */
  lemma {:induction false} RemoveIsIdempotent(rules: seq<Rule>, id: string)
    ensures RemoveRules(RemoveRules(rules, id), id) == RemoveRules(rules, id)
  {
    var r := RemoveRules(rules, id);
    assert forall i :: 0 <= i < |r| ==> r[i] in r && r[i].id != id;
  }

  /** The active filter acts on each part of a list separately. */
  lemma {:induction false} ActiveRulesConcat(a: seq<Rule>, b: seq<Rule>)
    ensures ActiveRules(a + b) == ActiveRules(a) + ActiveRules(b)
    decreases |a|
  {
    if a == [] {
      assert a + b == b;
    } else {
      assert (a + b)[0] == a[0];
      assert (a + b)[1..] == a[1..] + b;
      ActiveRulesConcat(a[1..], b);
    }
  }

  /**
   * Adding a rule under a fresh id is undone by removing that id, and it
   * raises the active count by one.
   */
  lemma AddRuleAppendsDefault(rules: seq<Rule>, id: string)
    ensures (forall i :: 0 <= i < |rules| ==> rules[i].id != id) ==> RemoveRules(rules + [EmptyRule(id)], id) == rules
    ensures ActiveCount(rules + [EmptyRule(id)]) == ActiveCount(rules) + 1
  {
    ActiveRulesConcat(rules, [EmptyRule(id)]);
    assert [EmptyRule(id)][1..] == [];
    RemoveKeepsOrder(rules, [EmptyRule(id)], id);
    assert RemoveRules([EmptyRule(id)], id) == [] + RemoveRules([], id);
  }

  /** Removing rules never raises the active count. */
  lemma {:induction false} RemoveNeverAddsActive(rules: seq<Rule>, id: string)
    ensures ActiveCount(RemoveRules(rules, id)) <= ActiveCount(rules)
    decreases |rules|
  {
    if rules != [] {
      RemoveNeverAddsActive(rules[1..], id);
      var head := if rules[0].id == id then [] else [rules[0]];
      ActiveRulesConcat(head, RemoveRules(rules[1..], id));
      ActiveRulesConcat([rules[0]], rules[1..]);
      assert rules == [rules[0]] + rules[1..];
    }
  }
}
