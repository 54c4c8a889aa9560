/** The polling loop of `main`: pop the head of the event queue, decode it and
    hand it to `process_event` with the rules loaded once at start-up. */
module Worker {
  import opened Values
  import opened RuleStore
  import opened Matcher

  /** What JSON decoding of a queue entry yields: an object, or any other JSON
      value (an array, a number, a string, true, false or null). */
  datatype Document = Object(fields: Event) | NonObject

  /** One queue entry: the empty string (falsy, handled like an empty pop),
      text that does not decode, or a decoded document. */
  datatype Payload = Blank | Malformed | Decoded(doc: Document)

  /** What one loop iteration did. `Crashed` is an exception leaving `main`. */
  datatype Outcome = Slept | Dropped | Processed(created: nat) | Crashed

  /** The loaded rules, the pending queue, the alert store and whether `main` has exited. */
  datatype WorkerState = WorkerState(rules: seq<Rule>, queue: seq<Payload>, alerts: seq<Alert>, halted: bool)

  datatype StepResult = StepResult(state: WorkerState, outcome: Outcome)

  /** `main` before its loop: the rules are loaded once. */
  function Start(store: seq<Rule>, pending: seq<Payload>, stored: seq<Alert>): WorkerState {
    WorkerState(LoadRules(store), pending, stored, false)
  }

  predicate HasActionMatch(rules: seq<Rule>) {
    exists k :: 0 <= k < |rules| && IsActionMatch(rules[k])
  }

  /** The alerts `process_event` appends for a decoded document, or `None` when it
      raises: `event.get` on a non-object fails at the first action-match rule. */
  function Process(rules: seq<Rule>, doc: Document, now: string): (r: Option<seq<Alert>>)
    ensures r.None? <==> doc.NonObject? && HasActionMatch(rules)
    ensures doc.NonObject? && r.Some? ==> r.value == []
  {
    match doc
    case Object(e) => Some(Evaluate(rules, e, now))
    case NonObject => if HasActionMatch(rules) then None else Some([])
  }

  /** One iteration of the loop. */
  function Next(s: WorkerState, now: string): (r: StepResult)
    requires !s.halted
    ensures r.state.rules == s.rules
    ensures s.queue == [] ==> r == StepResult(s, Slept)
    ensures s.queue != [] ==> r.state.queue == s.queue[1..]
    ensures |s.alerts| <= |r.state.alerts| && r.state.alerts[..|s.alerts|] == s.alerts
    ensures r.state.halted <==> r.outcome == Crashed
    ensures r.outcome.Processed? ==> |r.state.alerts| == |s.alerts| + r.outcome.created
    ensures !r.outcome.Processed? ==> r.state.alerts == s.alerts
    ensures s.queue != [] && s.queue[0].Blank? ==> r.outcome == Slept
    ensures s.queue != [] && s.queue[0].Malformed? ==> r.outcome == Dropped
    ensures s.queue != [] && s.queue[0].Decoded? && s.queue[0].doc.Object? ==>
              && r.outcome == Processed(|Evaluate(s.rules, s.queue[0].doc.fields, now)|)
              && r.state.alerts == s.alerts + Evaluate(s.rules, s.queue[0].doc.fields, now)
    ensures s.queue != [] && s.queue[0] == Decoded(NonObject) ==>
              if HasActionMatch(s.rules) then r.outcome == Crashed else r.outcome == Processed(0)
  {
    if s.queue == [] then StepResult(s, Slept)
    else
      var rest := s.queue[1..];
      match s.queue[0]
      case Blank => StepResult(s.(queue := rest), Slept)
      case Malformed => StepResult(s.(queue := rest), Dropped)
      case Decoded(doc) =>
        match Process(s.rules, doc, now)
        case None => StepResult(s.(queue := rest, halted := true), Crashed)
        case Some(created) =>
          StepResult(s.(queue := rest, alerts := s.alerts + created), Processed(|created|))
  }

  /** The loop run for one iteration per clock reading in `nows`; it stops once `main` has exited. */
  function Run(s: WorkerState, nows: seq<string>): (r: WorkerState)
    ensures r.rules == s.rules
    ensures |s.alerts| <= |r.alerts| && r.alerts[..|s.alerts|] == s.alerts
    ensures |r.queue| <= |s.queue|
    ensures s.halted ==> r == s
    decreases |nows|
  {
    if nows == [] || s.halted then s
    else Run(Next(s, nows[0]).state, nows[1..])
  }

  /** Polling an empty queue never changes anything: the loop sleeps and retries. */
  lemma {:induction false} EmptyQueueIdles(s: WorkerState, nows: seq<string>)
    requires s.queue == [] && !s.halted
    ensures Run(s, nows) == s
    decreases |nows|
  {
    if nows != [] {
      EmptyQueueIdles(s, nows[1..]);
    }
  }

  /** No deduplication: the same event queued twice is matched twice, and each copy
      appends its own alerts. */
  lemma DuplicateEventAlertsTwice(s: WorkerState, e: Event, rest: seq<Payload>, now1: string, now2: string)
    requires !s.halted
    requires s.queue == [Decoded(Object(e)), Decoded(Object(e))] + rest
    ensures Run(s, [now1, now2]).alerts == s.alerts + Evaluate(s.rules, e, now1) + Evaluate(s.rules, e, now2)
    ensures Run(s, [now1, now2]).queue == rest
    ensures now1 == now2 ==> |Run(s, [now1, now2]).alerts| == |s.alerts| + 2 * |Evaluate(s.rules, e, now1)|
  {
    var s1 := Next(s, now1).state;
    assert s1.queue == [Decoded(Object(e))] + rest;
    assert s1.alerts == s.alerts + Evaluate(s.rules, e, now1);
    var s2 := Next(s1, now2).state;
    assert s2.queue == rest;
    assert Run(s, [now1, now2]) == Run(s1, [now2]);
    assert [now1, now2][1..] == [now2];
    assert Run(s1, [now2]) == Run(s2, []);
  }

  /** A malformed entry is dropped without requeue and the loop goes on: the valid
      event behind it still produces its alerts. */
  lemma MalformedThenValid(s: WorkerState, e: Event, rest: seq<Payload>, now1: string, now2: string)
    requires !s.halted
    requires s.queue == [Malformed, Decoded(Object(e))] + rest
    ensures Run(s, [now1, now2]) == s.(queue := rest, alerts := s.alerts + Evaluate(s.rules, e, now2))
  {
    var s1 := Next(s, now1).state;
    assert s1 == s.(queue := [Decoded(Object(e))] + rest);
    assert [now1, now2][1..] == [now2];
    assert Run(s, [now1, now2]) == Run(s1, [now2]);
  }

  /** A decoded entry that is not an object stops the loop when some loaded rule is an
      action-match rule: nothing is appended and no later entry is ever read. */
  lemma NonObjectStopsLoop(s: WorkerState, rest: seq<Payload>, now: string, later: seq<string>)
    requires !s.halted && HasActionMatch(s.rules)
    requires s.queue == [Decoded(NonObject)] + rest
    ensures Run(s, [now] + later) == s.(queue := rest, halted := true)
  {
  }

  /** The alerts of a run of valid events, each matched with its own clock reading, in queue order. */
  function AlertsOf(rules: seq<Rule>, events: seq<Event>, nows: seq<string>): seq<Alert>
    requires |events| == |nows|
    decreases |events|
  {
    if events == [] then []
    else Evaluate(rules, events[0], nows[0]) + AlertsOf(rules, events[1..], nows[1..])
  }

  /** The queue entries for a run of valid events. */
  function Queued(events: seq<Event>): seq<Payload> {
    if events == [] then [] else [Decoded(Object(events[0]))] + Queued(events[1..])
  }

  /** Events are processed in the order the queue delivers them: a queue of valid
      events is drained and the store grows by each event's alerts, in turn. */
  lemma {:induction false} RunInQueueOrder(s: WorkerState, events: seq<Event>, nows: seq<string>)
    requires !s.halted && |events| == |nows|
    requires s.queue == Queued(events)
    ensures Run(s, nows) == s.(queue := [], alerts := s.alerts + AlertsOf(s.rules, events, nows))
    decreases |events|
  {
    if events != [] {
      var e, now := events[0], nows[0];
      assert s.queue[0] == Decoded(Object(e)) && s.queue[1..] == Queued(events[1..]);
      var created := Evaluate(s.rules, e, now);
      var r := Next(s, now);
      assert r.state.alerts == s.alerts + created && !r.state.halted;
      var s1 := s.(queue := Queued(events[1..]), alerts := s.alerts + created);
      assert r.state == s1;
      assert Run(s, nows) == Run(s1, nows[1..]);
      RunInQueueOrder(s1, events[1..], nows[1..]);
      assert s.alerts + created + AlertsOf(s.rules, events[1..], nows[1..])
          == s.alerts + AlertsOf(s.rules, events, nows);
    } else {
      EmptyQueueIdles(s, nows);
    }
  }

  /** The worker process: the rules it loaded, the Redis list it pops and the alerts collection. */
  class Engine {
    var rules: seq<Rule>
    var queue: seq<Payload>
    var alerts: seq<Alert>
    var halted: bool

    function State(): WorkerState
      reads this
    {
      WorkerState(rules, queue, alerts, halted)
    }

    /** `main` up to its loop: load the enabled rules once. */
    constructor (store: seq<Rule>, pending: seq<Payload>, stored: seq<Alert>)
      ensures State() == Start(store, pending, stored)
      ensures rules == LoadRules(store) && !halted
    {
      rules := LoadRules(store);
      queue := pending;
      alerts := stored;
      halted := false;
    }

    /** `process_event`: walk every rule and append an alert for each match.
        `raised` reports the exception `event.get` throws on a non-object. */
    method ProcessEvent(doc: Document, now: string) returns (created: nat, raised: bool)
      modifies this`alerts
      ensures raised <==> Process(rules, doc, now).None?
      ensures raised ==> alerts == old(alerts) && created == 0
      ensures !raised ==> alerts == old(alerts) + Process(rules, doc, now).value
                          && created == |Process(rules, doc, now).value|
    {
      created, raised := 0, false;
      var i := 0;
      while i < |rules|
        invariant 0 <= i <= |rules|
        invariant doc.Object? ==> alerts == old(alerts) + Evaluate(rules[..i], doc.fields, now)
                                  && created == |Evaluate(rules[..i], doc.fields, now)|
        invariant doc.NonObject? ==> alerts == old(alerts) && created == 0 && !HasActionMatch(rules[..i])
      {
        var rule := rules[i];
        assert rules[..i + 1][..i] == rules[..i];
        if rule.kind == Str(ActionMatch) {
          match doc
          case NonObject =>
            raised := true;
            return;
          case Object(event) =>
            if Get(event, rule.field) == rule.value {
              alerts := alerts + [MakeAlert(rule, event, now)];
              created := created + 1;
            }
        }
        i := i + 1;
      }
      assert rules[..i] == rules;
    }

    /** One iteration of `main`'s loop: pop the head, sleep on an empty pop, drop an
        undecodable entry, otherwise run `process_event`. */
    method Step(now: string) returns (outcome: Outcome)
      requires !halted
      modifies this
      ensures StepResult(State(), outcome) == Next(old(State()), now)
    {
      if queue == [] {
        outcome := Slept;
        return;
      }
      var data := queue[0];
      queue := queue[1..];
      match data
      case Blank =>
        outcome := Slept;
      case Malformed =>
        outcome := Dropped;
      case Decoded(doc) =>
        var created, raised := ProcessEvent(doc, now);
        if raised {
          halted := true;
          outcome := Crashed;
        } else {
          outcome := Processed(created);
        }
    }

    /** `main`'s `while True` loop, run for one iteration per clock reading. */
    method Poll(nows: seq<string>)
      modifies this
      ensures State() == Run(old(State()), nows)
    {
      var i := 0;
      while i < |nows| && !halted
        invariant 0 <= i <= |nows|
        invariant Run(old(State()), nows) == Run(State(), nows[i..])
      {
        ghost var before := State();
        var _ := Step(nows[i]);
        assert nows[i..][1..] == nows[i + 1..];
        assert Run(before, nows[i..]) == Run(State(), nows[i + 1..]);
        i := i + 1;
      }
    }
  }
}
