/** The rule repository: rule documents and `load_rules`. */
module RuleStore {
  import opened Values
  import Seqs

  /** One rule document of the `alert_rules` collection. `kind` is the
      document's `type` key; `severity` is `None` when the key is absent. */
  datatype Rule = Rule(name: Value, kind: Value, field: string, value: Value,
                       severity: Option<Value>, enabled: Value)

  /** The store query `{"enabled": True}` selects documents whose `enabled` is boolean true. */
  predicate IsEnabled(r: Rule) {
    r.enabled == Bool(true)
  }

  /** `load_rules`: the enabled rule documents, in store order. */
  function LoadRules(store: seq<Rule>): (active: seq<Rule>)
    ensures |active| <= |store|
    ensures forall k :: 0 <= k < |active| ==> active[k] in store && IsEnabled(active[k])
    ensures forall k :: 0 <= k < |store| && IsEnabled(store[k]) ==> store[k] in active
  {
    Seqs.Filter(IsEnabled, store)
  }

  /** Loading keeps store order: the rules of a store split in two are those of each part, in turn. */
  lemma LoadRulesConcat(a: seq<Rule>, b: seq<Rule>)
    ensures LoadRules(a + b) == LoadRules(a) + LoadRules(b)
  {
    Seqs.FilterConcat(IsEnabled, a, b);
  }

  /** A store whose rules are all enabled is loaded unchanged. */
  lemma LoadRulesAllEnabled(store: seq<Rule>)
    requires forall k :: 0 <= k < |store| ==> IsEnabled(store[k])
    ensures LoadRules(store) == store
  {
    Seqs.FilterAll(IsEnabled, store);
  }

  /** A disabled rule never reaches the loaded set, wherever it sits in the store. */
  lemma DisabledRuleNotLoaded(before: seq<Rule>, d: Rule, after: seq<Rule>)
    requires !IsEnabled(d)
    ensures LoadRules(before + [d] + after) == LoadRules(before + after)
  {
    LoadRulesConcat(before + [d], after);
    LoadRulesConcat(before, [d]);
    LoadRulesConcat(before, after);
  }
}
