/** The end-to-end fixture: the seeded "Failed logins rule" and the pushed
    login-failure event, evaluated by the matcher and the loop, with the results proved. */
module Fixtures {
  import opened Values
  import opened RuleStore
  import opened Matcher
  import opened Worker

  const FailedLogins: Rule :=
    Rule(Str("Failed logins rule"), Str("action_match"), "action", Str("login_failure"),
         Some(Str("CRITICAL")), Bool(true))

  const LoginFailure: Event :=
    map["timestamp" := Str("2025-12-23T18:15:00Z"), "username" := Str("alice"),
        "source_ip" := Str("192.168.1.10"), "action" := Str("login_failure"),
        "severity" := Str("ERROR")]

  const ExpectedAlert: Alert :=
    Alert(Str("2025-12-23T18:15:00Z"), Str("alice"), Str("192.168.1.10"), Str("login_failure"),
          Str("CRITICAL"), "Rule 'Failed logins rule' matched for user alice from 192.168.1.10",
          Str("Failed logins rule"), "open")

  /** The attributes of the pushed event as `event.get` reads them. */
  lemma LoginFailureFields()
    ensures Get(LoginFailure, "username") == Str("alice")
    ensures Get(LoginFailure, "source_ip") == Str("192.168.1.10")
    ensures Get(LoginFailure, "action") == Str("login_failure")
    ensures Get(LoginFailure, "@timestamp") == Null
    ensures Get(LoginFailure, "timestamp") == Str("2025-12-23T18:15:00Z")
  {
  }

  /** The message of the pushed event names the rule, the user and the source address. */
  lemma LoginFailureMessage()
    ensures Message(FailedLogins.name, LoginFailure) == ExpectedAlert.message
  {
    LoginFailureFields();
    MessageText();
  }

  lemma MessageText()
    ensures "Rule '" + "Failed logins rule" + "' matched for user " + "alice" + " from " + "192.168.1.10"
         == "Rule 'Failed logins rule' matched for user alice from 192.168.1.10"
  {
    assert "Rule '" + "Failed logins rule" == "Rule 'Failed logins rule";
    assert "Rule 'Failed logins rule" + "' matched for user " == "Rule 'Failed logins rule' matched for user ";
    assert "Rule 'Failed logins rule' matched for user " + "alice"
        == "Rule 'Failed logins rule' matched for user alice";
    assert "Rule 'Failed logins rule' matched for user alice" + " from "
        == "Rule 'Failed logins rule' matched for user alice from ";
    assert "Rule 'Failed logins rule' matched for user alice from " + "192.168.1.10"
        == "Rule 'Failed logins rule' matched for user alice from 192.168.1.10";
  }

  /** The pushed event yields one open CRITICAL alert carrying the event's own timestamp;
      the event's own `severity` plays no part. */
  lemma LoginFailureAlerts(now: string)
    ensures Evaluate(LoadRules([FailedLogins]), LoginFailure, now) == [ExpectedAlert]
  {
    LoadRulesAllEnabled([FailedLogins]);
    assert [FailedLogins][..0] == [];
    LoginFailureFields();
    assert Matches(FailedLogins, LoginFailure);
    assert Timestamp(LoginFailure, now) == Str("2025-12-23T18:15:00Z");
    LoginFailureMessage();
    assert MakeAlert(FailedLogins, LoginFailure, now) == ExpectedAlert;
  }

  /** The same rule ignores a successful login. */
  lemma LoginSuccessIgnored(now: string)
    ensures Evaluate([FailedLogins], LoginFailure["action" := Str("login_success")], now) == []
  {
  }

  const Anonymous: Event := map["action" := Str("login_failure"), "timestamp" := Str("")]

  /** Without username and source address the message shows Python's `None`. */
  lemma AnonymousMessage()
    ensures Message(FailedLogins.name, Anonymous) == "Rule 'Failed logins rule' matched for user None from None"
  {
    assert "username" !in Anonymous && "source_ip" !in Anonymous;
    AnonymousText();
  }

  lemma AnonymousText()
    ensures "Rule '" + "Failed logins rule" + "' matched for user " + "None" + " from " + "None"
         == "Rule 'Failed logins rule' matched for user None from None"
  {
    assert "Rule '" + "Failed logins rule" == "Rule 'Failed logins rule";
    assert "Rule 'Failed logins rule" + "' matched for user " == "Rule 'Failed logins rule' matched for user ";
    assert "Rule 'Failed logins rule' matched for user " + "None"
        == "Rule 'Failed logins rule' matched for user None";
    assert "Rule 'Failed logins rule' matched for user None" + " from "
        == "Rule 'Failed logins rule' matched for user None from ";
    assert "Rule 'Failed logins rule' matched for user None from " + "None"
        == "Rule 'Failed logins rule' matched for user None from None";
  }

  /** An empty `timestamp` is falsy, so the clock reading is used; absent fields are copied as null. */
  lemma AnonymousEventAlerts(now: string)
    ensures Evaluate([FailedLogins], Anonymous, now)
         == [Alert(Str(now), Null, Null, Str("login_failure"), Str("CRITICAL"),
                   "Rule 'Failed logins rule' matched for user None from None",
                   Str("Failed logins rule"), "open")]
  {
    assert [FailedLogins][..0] == [];
    assert "@timestamp" !in Anonymous && "username" !in Anonymous && "source_ip" !in Anonymous;
    assert Matches(FailedLogins, Anonymous);
    assert Timestamp(Anonymous, now) == Str(now);
    AnonymousMessage();
  }

  /** The loop on the fixture: a store holding the seeded rule and a disabled copy, and a
      queue holding an empty entry, a malformed one and the pushed event. Four iterations
      sleep, drop, process and sleep again, leaving the one expected alert in the store. */
  method LoginFailureScenario() returns (outcomes: seq<Outcome>, stored: seq<Alert>)
    ensures outcomes == [Slept, Dropped, Processed(1), Slept]
    ensures stored == [ExpectedAlert]
  {
    var disabled := FailedLogins.(name := Str("Disabled rule"), enabled := Bool(false));
    var engine := new Engine([FailedLogins, disabled], [Blank, Malformed, Decoded(Object(LoginFailure))], []);
    assert engine.rules == [FailedLogins] by {
      assert [FailedLogins, disabled] == [FailedLogins] + [disabled];
      LoadRulesConcat([FailedLogins], [disabled]);
      assert LoadRules([disabled]) == [];
    }
    var o1 := engine.Step("2026-01-01T00:00:00Z");
    assert o1 == Slept && engine.alerts == [];
    var o2 := engine.Step("2026-01-01T00:00:01Z");
    assert o2 == Dropped && engine.alerts == [];
    var o3 := engine.Step("2026-01-01T00:00:02Z");
    LoginFailureAlerts("2026-01-01T00:00:02Z");
    assert o3 == Processed(1) && engine.alerts == [ExpectedAlert];
    var o4 := engine.Step("2026-01-01T00:00:03Z");
    assert o4 == Slept && engine.alerts == [ExpectedAlert] && engine.queue == [];
    outcomes := [o1, o2, o3, o4];
    stored := engine.alerts;
  }
}
