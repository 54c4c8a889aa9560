/** The rule matcher and alert builder of `process_event`, as pure functions
    of the loaded rules, one decoded event and the wall-clock reading `now`. */
module Matcher {
  import opened Values
  import opened RuleStore
  import Seqs

  const ActionMatch: string := "action_match"
  const DefaultSeverity: string := "CRITICAL"
  const OpenStatus: string := "open"

  /** One document of the `alerts` collection. */
  datatype Alert = Alert(timestamp: Value, username: Value, sourceIp: Value, action: Value,
                         severity: Value, message: string, ruleName: Value, status: string)

  /** The only rule type the engine recognises; every other `type` is skipped. */
  predicate IsActionMatch(r: Rule) {
    r.kind == Str(ActionMatch)
  }

  /** An action-match rule fires when the event's value of the rule's field equals the rule's value. */
  predicate Matches(r: Rule, e: Event) {
    IsActionMatch(r) && Get(e, r.field) == r.value
  }

  /** `event.get("@timestamp") or event.get("timestamp") or now`. */
  function Timestamp(e: Event, now: string): (ts: Value)
    ensures Truthy(Get(e, "@timestamp")) ==> ts == Get(e, "@timestamp")
    ensures !Truthy(Get(e, "@timestamp")) && Truthy(Get(e, "timestamp")) ==> ts == Get(e, "timestamp")
    ensures !Truthy(Get(e, "@timestamp")) && !Truthy(Get(e, "timestamp")) ==> ts == Str(now)
    ensures now != "" ==> Truthy(ts)
  {
    Or(Get(e, "@timestamp"), Or(Get(e, "timestamp"), Str(now)))
  }

  /** `rule.get("severity", "CRITICAL")`: the default applies only when the key is absent. */
  function SeverityOf(r: Rule): Value {
    match r.severity
    case Some(v) => v
    case None => Str(DefaultSeverity)
  }

  function Message(name: Value, e: Event): string {
    "Rule '" + Show(name) + "' matched for user " + Show(Get(e, "username"))
      + " from " + Show(Get(e, "source_ip"))
  }

  /** The alert record built for a rule that matched an event. */
  function MakeAlert(r: Rule, e: Event, now: string): Alert {
    Alert(Timestamp(e, now), Get(e, "username"), Get(e, "source_ip"), Get(e, "action"),
          SeverityOf(r), Message(r.name, e), r.name, OpenStatus)
  }

  /** The alerts one rule contributes for one event: none or one. */
  function AlertsFor(r: Rule, e: Event, now: string): (alerts: seq<Alert>)
    ensures |alerts| <= 1
  {
    if Matches(r, e) then [MakeAlert(r, e, now)] else []
  }

  /** The alerts `process_event` appends for one event, walking the rules in
      load order without stopping at the first match. */
  function Evaluate(rules: seq<Rule>, e: Event, now: string): (alerts: seq<Alert>)
    ensures |alerts| <= |rules|
    decreases |rules|
  {
    if rules == [] then []
    else Evaluate(rules[..|rules| - 1], e, now) + AlertsFor(rules[|rules| - 1], e, now)
  }

  /** Reference definition: the rules that match an event, in load order. */
  function MatchingRules(rules: seq<Rule>, e: Event): seq<Rule> {
    Seqs.Filter((r: Rule) => Matches(r, e), rules)
  }

  /** Evaluating two runs of rules back to back yields the alerts of each, in turn. */
  lemma {:induction false} EvaluateConcat(a: seq<Rule>, b: seq<Rule>, e: Event, now: string)
    ensures Evaluate(a + b, e, now) == Evaluate(a, e, now) + Evaluate(b, e, now)
    decreases |b|
  {
    if b == [] {
      assert a + b == a;
    } else {
      var ab, init, last := a + b, b[..|b| - 1], b[|b| - 1];
      assert ab[..|ab| - 1] == a + init;
      assert ab[|ab| - 1] == last;
      calc {
        Evaluate(ab, e, now);
        Evaluate(a + init, e, now) + AlertsFor(last, e, now);
        { EvaluateConcat(a, init, e, now); }
        Evaluate(a, e, now) + Evaluate(init, e, now) + AlertsFor(last, e, now);
        Evaluate(a, e, now) + Evaluate(b, e, now);
      }
    }
  }

  /** A single rule yields exactly one alert when it is an action-match rule and
      the event's field (null when absent) equals the rule's value, and none otherwise. */
  lemma SingleRule(r: Rule, e: Event, now: string)
    ensures |Evaluate([r], e, now)| == 1 <==> r.kind == Str("action_match") && Get(e, r.field) == r.value
    ensures |Evaluate([r], e, now)| == 0 <==> !(r.kind == Str("action_match") && Get(e, r.field) == r.value)
  {
  }

  /** An event without the rule's field matches exactly the action-match rules whose value is null. */
  lemma AbsentFieldReadsNull(r: Rule, e: Event)
    requires r.field !in e
    ensures Matches(r, e) <==> IsActionMatch(r) && r.value == Null
  {
  }

  /** A rule of an unrecognised type contributes nothing, wherever it sits. */
  lemma UnknownTypeSkipped(before: seq<Rule>, r: Rule, after: seq<Rule>, e: Event, now: string)
    requires !IsActionMatch(r)
    ensures Evaluate(before + [r] + after, e, now) == Evaluate(before + after, e, now)
  {
    var withR := before + [r];
    SingleRule(r, e, now);
    EvaluateConcat(withR, after, e, now);
    EvaluateConcat(before, [r], e, now);
    EvaluateConcat(before, after, e, now);
    assert Evaluate(withR, e, now) == Evaluate(before, e, now);
  }

  /** The alerts for an event are one per matching rule, built from those rules in load order. */
  lemma {:induction false} EvaluateIsMatchingRules(rules: seq<Rule>, e: Event, now: string)
    ensures |Evaluate(rules, e, now)| == |MatchingRules(rules, e)|
    ensures forall k :: 0 <= k < |MatchingRules(rules, e)| ==>
              Evaluate(rules, e, now)[k] == MakeAlert(MatchingRules(rules, e)[k], e, now)
    decreases |rules|
  {
    if rules != [] {
      var init, last := rules[..|rules| - 1], rules[|rules| - 1];
      assert rules == init + [last];
      Seqs.FilterConcat((r: Rule) => Matches(r, e), init, [last]);
      assert [last][1..] == [];
      EvaluateIsMatchingRules(init, e, now);
    }
  }

  /** No short-circuit: when every rule matches, every rule yields its own alert. */
  lemma EveryMatchingRuleAlerts(rules: seq<Rule>, e: Event, now: string)
    requires forall k :: 0 <= k < |rules| ==> Matches(rules[k], e)
    ensures |Evaluate(rules, e, now)| == |rules|
    ensures forall k :: 0 <= k < |rules| ==> Evaluate(rules, e, now)[k] == MakeAlert(rules[k], e, now)
  {
  }

  /** Every alert produced for an event comes from a matching rule among the loaded
      ones and carries the fields `process_event` writes. */
  lemma AlertShape(rules: seq<Rule>, e: Event, now: string, k: nat)
    requires k < |Evaluate(rules, e, now)|
    ensures k < |MatchingRules(rules, e)|
    ensures var a, r := Evaluate(rules, e, now)[k], MatchingRules(rules, e)[k];
      && r in rules && IsActionMatch(r) && Get(e, r.field) == r.value
      && a.status == "open"
      && a.ruleName == r.name
      && a.severity == (if r.severity.Some? then r.severity.value else Str("CRITICAL"))
      && a.username == Get(e, "username")
      && a.sourceIp == Get(e, "source_ip")
      && a.action == Get(e, "action")
      && a.timestamp == Timestamp(e, now)
      && a.message == "Rule '" + Show(r.name) + "' matched for user " + Show(Get(e, "username"))
                      + " from " + Show(Get(e, "source_ip"))
  {
    EvaluateIsMatchingRules(rules, e, now);
  }

  /** A rule disabled in the store never produces an alert: removing it from the
      store leaves every event's alerts unchanged. */
  lemma DisabledRuleNeverAlerts(before: seq<Rule>, d: Rule, after: seq<Rule>, e: Event, now: string)
    requires !IsEnabled(d)
    ensures Evaluate(LoadRules(before + [d] + after), e, now) == Evaluate(LoadRules(before + after), e, now)
  {
    DisabledRuleNotLoaded(before, d, after);
  }

  /** Every alert produced from a loaded store stems from an enabled, matching rule of the store. */
  lemma AlertsOnlyFromEnabledRules(store: seq<Rule>, e: Event, now: string, k: nat)
    requires k < |Evaluate(LoadRules(store), e, now)|
    ensures exists r :: r in store && IsEnabled(r) && Matches(r, e)
                        && Evaluate(LoadRules(store), e, now)[k] == MakeAlert(r, e, now)
  {
    AlertShape(LoadRules(store), e, now, k);
    EvaluateIsMatchingRules(LoadRules(store), e, now);
    var r := MatchingRules(LoadRules(store), e)[k];
    assert r in LoadRules(store);
  }
}
