# Alert rule engine of the security-monitoring worker

This project models the alert worker of a small security-monitoring web
application. The worker loads the enabled detection rules from the
`alert_rules` collection once. It then pops serialized events from the head
of the `log_events` queue, one at a time. Each decoded event is matched
against every loaded rule, and one alert document goes into the `alerts`
collection for each match.

Modules:

- `Values` (values.dfy): the attribute values of decoded events and rule
  documents, plus the Python operations the worker relies on: `dict.get`
  (an absent key reads as null), truthiness, `or`, and `str()` inside an
  f-string.
- `Seqs` (seqs.dfy): an order-preserving filter, which is what a store
  query with a filter returns.
- `RuleStore` (rules.dfy): rule documents and `load_rules`.
- `Matcher` (matcher.dfy): the matching test, the timestamp fallback, the
  alert record, and `Evaluate`. `Evaluate` is the pure function giving the
  alerts one event produces for a rule list. It sits next to an independent
  reference definition, `MatchingRules`, and lemmas connect the two.
- `Worker` (worker.dfy): queue entries, loop outcomes, and the pure
  transition `Next` for one loop iteration and `Run` for several. The class
  `Engine` holds the loaded rules, the queue and the alert store as fields.
  Its methods `ProcessEvent` (the rule loop of `process_event`), `Step` (one
  iteration of `main`) and `Poll` (the loop itself) are proved against
  `Process`, `Next` and `Run`.
- `Fixtures` (fixtures.dfy): the seeded "Failed logins rule" and the pushed
  login-failure event, evaluated by the matcher and the engine, with the
  results proved.

The model follows the code where it departs from what its comments or a
reader would expect:

- Timestamp. The comment at `webapp/alert_worker.py:28` speaks of preferring
  `@timestamp` and falling back to `timestamp` or now, as if only a missing
  value fell through. The code uses Python `or`, so an empty string, `0` or
  `false` falls through too.
- Severity. `rule.get("severity", "CRITICAL")` applies `CRITICAL` only when
  the rule has no `severity` key. An explicit null is copied as null.
- Non-object events. Only JSON decoding errors are caught. A payload that
  decodes to something other than an object (a number, an array, a string,
  `null`) makes `event.get` raise at the first `action_match` rule. The
  exception leaves `main` and the worker stops. The model has this as
  `Crashed`, with `halted` set.
- Storage errors. There is no handler around `insert_one`, so a failed write
  is not recovered from.
- Empty entries. An entry that is the empty string is falsy. It is consumed
  and then treated like an empty pop: the worker sleeps.

## Model

| member | source | states |
|---|---|---|
| `Values.Or` | webapp/alert_worker.py:29-33 | Python `a or b` yields one of its operands, and the result is truthy exactly when either operand is |
| `Values.Get` | webapp/alert_worker.py:27 | `event.get(key)`, an absent key reading as null; its behaviour is stated by `Matcher.AbsentFieldReadsNull` and `Matcher.AlertShape` |
| `Values.Truthy` | webapp/alert_worker.py:29-33 | Python truthiness of the timestamp candidates; its effect is stated by `Values.Or` and `Matcher.Timestamp` |
| `Values.Decimal` | webapp/alert_worker.py:42-43 | `str()` of an integer that the message embeds is a non-empty string of decimal digits with no leading zero |
| `Values.DecimalRoundTrip` | webapp/alert_worker.py:42-43 | the digits `str()` prints for an integer denote that integer |
| `Values.Show` | webapp/alert_worker.py:42-43 | `str()` of a value inside the f-string; the message it builds is stated by `Matcher.AlertShape`, `Fixtures.LoginFailureMessage` and `Fixtures.AnonymousMessage` |
| `Seqs.Filter` | webapp/alert_worker.py:19 | the query result keeps only elements that pass the test, each from the input, and keeps every element that passes |
| `Seqs.FilterConcat` | webapp/alert_worker.py:19 | filtering keeps input order: filtering a concatenation gives the concatenation of the filtered parts |
| `RuleStore.LoadRules` | webapp/alert_worker.py:17-19 | the loaded rules are exactly the store's rules whose `enabled` is boolean true |
| `RuleStore.LoadRulesConcat` | webapp/alert_worker.py:17-19 | loading keeps store order |
| `RuleStore.LoadRulesAllEnabled` | webapp/alert_worker.py:17-19 | a store of enabled rules loads unchanged |
| `RuleStore.DisabledRuleNotLoaded` | webapp/alert_worker.py:17-19 | a disabled rule, wherever it sits in the store, does not reach the loaded set |
| `Matcher.Timestamp` | webapp/alert_worker.py:29-33 | the alert time is `@timestamp` if truthy, else `timestamp` if truthy, else the clock reading; empty strings fall through; with a non-empty clock reading the result is always truthy |
| `Matcher.Matches` | webapp/alert_worker.py:25-27 | the match test; stated by `Matcher.SingleRule` and `Matcher.AbsentFieldReadsNull` |
| `Matcher.SeverityOf` | webapp/alert_worker.py:40 | `rule.get("severity", "CRITICAL")`; stated by `Matcher.AlertShape` |
| `Matcher.Message` | webapp/alert_worker.py:41-44 | the alert message; stated by `Matcher.AlertShape` and `Fixtures.LoginFailureMessage` |
| `Matcher.MakeAlert` | webapp/alert_worker.py:35-47 | the alert record; every field stated by `Matcher.AlertShape` |
| `Matcher.AlertsFor` | webapp/alert_worker.py:25-48 | one rule contributes at most one alert per event |
| `Matcher.Evaluate` | webapp/alert_worker.py:24-48 | one event never yields more alerts than there are rules |
| `Matcher.EvaluateConcat` | webapp/alert_worker.py:24 | rules are evaluated independently and in load order: the alerts of a concatenated rule list are those of each part, in turn |
| `Matcher.SingleRule` | webapp/alert_worker.py:25-27 | a rule yields one alert exactly when its type is `action_match` and `event.get(field)` equals its value, and none otherwise |
| `Matcher.AbsentFieldReadsNull` | webapp/alert_worker.py:27 | an event lacking the rule's field matches exactly the action-match rules whose value is null |
| `Matcher.UnknownTypeSkipped` | webapp/alert_worker.py:25 | a rule of any other type contributes no alert, wherever it sits among the rules |
| `Matcher.EvaluateIsMatchingRules` | webapp/alert_worker.py:24-48 | there are as many alerts as matching rules, and the k-th alert is built from the k-th matching rule in load order |
| `Matcher.EveryMatchingRuleAlerts` | webapp/alert_worker.py:24-48 | no short-circuit: when every rule matches, every rule yields its own alert, in order |
| `Matcher.AlertShape` | webapp/alert_worker.py:35-47 | every alert comes from a loaded matching rule, has status `open`, that rule's name and severity (`CRITICAL` when the rule has no severity key), the event's username, source_ip and action, the fallback timestamp, and the message `Rule '<name>' matched for user <username> from <source_ip>` with each part printed by `str()` |
| `Matcher.DisabledRuleNeverAlerts` | webapp/alert_worker.py:17-27 | a disabled rule in the store changes no event's alerts |
| `Matcher.AlertsOnlyFromEnabledRules` | webapp/alert_worker.py:17-48 | every alert stems from an enabled rule of the store that matches the event |
| `Worker.Start` | webapp/alert_worker.py:53-54 | the state before the loop, rules loaded once; stated by `Worker.Engine.constructor` |
| `Worker.Process` | webapp/alert_worker.py:22-27 | processing a decoded document raises exactly when it is not an object and some rule is an action-match rule; a non-object that does not raise adds nothing |
| `Worker.Next` | webapp/alert_worker.py:56-68 | one iteration keeps the rules, removes exactly the head of a non-empty queue, changes nothing on an empty queue, keeps the earlier alerts as a prefix, leaves the alerts unchanged unless it processed an event, sleeps on an empty entry, drops a malformed one, appends exactly the matcher's alerts for a decoded object without stopping, stops on a decoded non-object exactly when an action-match rule is loaded, and stops the loop only on an exception |
| `Worker.Run` | webapp/alert_worker.py:52-68 | over any number of iterations the rules stay as loaded, the alert store only grows at its end, and the queue never grows |
| `Worker.EmptyQueueIdles` | webapp/alert_worker.py:57-60 | polling an empty queue any number of times changes nothing |
| `Worker.DuplicateEventAlertsTwice` | webapp/alert_worker.py:56-68 | no deduplication: an event queued twice appends its alerts twice |
| `Worker.MalformedThenValid` | webapp/alert_worker.py:62-68 | a malformed entry is dropped without requeue, and the valid event behind it still produces its alerts |
| `Worker.NonObjectStopsLoop` | webapp/alert_worker.py:62-68 | a decoded non-object with an action-match rule loaded stops the loop with nothing appended, and no later entry is read |
| `Worker.RunInQueueOrder` | webapp/alert_worker.py:56-68 | a queue of valid events is drained in FIFO order, and the store grows by each event's alerts, in turn |
| `Worker.Engine.constructor` | webapp/alert_worker.py:52-54 | the engine starts with the enabled rules loaded once, the given queue and alert store, running |
| `Worker.Engine.ProcessEvent` | webapp/alert_worker.py:22-48 | the rule loop appends exactly `Process`'s alerts to the store, or raises with the store unchanged |
| `Worker.Engine.Step` | webapp/alert_worker.py:57-68 | one pop, decode and dispatch changes the engine exactly as `Next` says and reports its outcome |
| `Worker.Engine.Poll` | webapp/alert_worker.py:56-68 | the loop changes the engine exactly as `Run` says |
| `Fixtures.LoginFailureAlerts` | webapp/push_test_event.py:6-12 | the seeded rule and the pushed event yield exactly one open CRITICAL alert with the event's timestamp, user, address and action; the event's own `severity` is ignored |
| `Fixtures.LoginFailureMessage` | webapp/alert_worker.py:41-44 | the fixture's message reads `Rule 'Failed logins rule' matched for user alice from 192.168.1.10` |
| `Fixtures.LoginSuccessIgnored` | webapp/alert_worker.py:27 | the same rule yields no alert for a successful login |
| `Fixtures.AnonymousMessage` | webapp/alert_worker.py:41-44 | absent username and source address print as `None` in the message |
| `Fixtures.LoginFailureScenario` | webapp/alert_worker.py:52-68 | with the seeded rule and a disabled copy loaded, an empty entry, a malformed one and the pushed event make four iterations sleep, drop, process one alert and sleep, leaving exactly the expected alert in the store |
| `Fixtures.AnonymousEventAlerts` | webapp/alert_worker.py:29-47 | an empty `timestamp` falls through to the clock reading, and absent attributes are copied as null |

## Left out

- Redis and MongoDB clients. The queue is a `seq<Payload>` field and the alert store a `seq<Alert>` field. The rule collection is a sequence passed to the constructor.
- JSON decoding. It is abstracted as the `Payload` and `Document` datatypes: the empty string, malformed text, an object, or any other JSON value.
- Event values and rule documents. Only strings, integers, booleans and null are represented, both as event attribute values and as a rule's `name`, `type`, `value`, `severity` and `enabled`. Floats, arrays and nested objects are not.
- Value equality is structural. Python's `1 == True` and `1 == 1.0` are not modelled.
- `print` and `time.sleep`. Sleeping is a step that changes nothing.
- The wall clock. The time is a parameter read once per loop iteration. The source calls `datetime.utcnow()` separately for each matching rule, and only when neither event timestamp is truthy, so the model assumes those readings are equal within one event.
- The `while True` loop. It is modelled as `Poll` over a finite sequence of clock readings, one per iteration. The loop has no exit besides an exception or the process being killed.
- Producers pushing onto the queue between iterations. These are `rpush` calls from other processes.
- Rule documents lacking `type`, `field`, `value` or `name`. The source raises `KeyError` on them. Here these keys are mandatory fields of `Rule`.
- A rule's `field` is a string. A non-string `field` would read as absent from a decoded event, or raise when it is unhashable.
- `enabled` matching. MongoDB's `{"enabled": True}` also matches an array containing true, which is not modelled.
- `insert_one`: the identifier it assigns, and its failures. The source does not handle failures.
- Process shutdown and a crash between pop and insert.
