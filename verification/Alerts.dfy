/** The alert engine: threshold rules held in a growing slice that evaluations read without the lock. */
module Alerts {
  import opened Models
  import opened Sequences

  predicate Breached(value: real, operator: string, threshold: real) {
    if operator == ">" then value > threshold
    else if operator == ">=" then value >= threshold
    else if operator == "<" then value < threshold
    else if operator == "<=" then value <= threshold
    else if operator == "==" then value == threshold
    else false
  }

  predicate Triggers(rule: AlertRule, t: Telemetry) {
    rule.metric in t.metrics && Breached(t.metrics[rule.metric], rule.operator, rule.threshold)
  }

  function AlertFor(rule: AlertRule, t: Telemetry): Alert
    requires rule.metric in t.metrics
  {
    Alert(t.deviceId, rule.metric, t.metrics[rule.metric], rule.threshold, rule.severity)
  }

  /** The alerts of the rules a sample breaches, in rule order. */
  function Breaches(rules: seq<AlertRule>, t: Telemetry): seq<Alert> {
    if rules == [] then []
    else Breaches(Front(rules), t) + if Triggers(Last(rules), t) then [AlertFor(Last(rules), t)] else []
  }

  lemma {:induction false} BreachesBound(rules: seq<AlertRule>, t: Telemetry)
    ensures |Breaches(rules, t)| <= |rules|
  {
    if rules != [] {
      BreachesBound(Front(rules), t);
    }
  }

  lemma {:induction false} BreachesDevice(rules: seq<AlertRule>, t: Telemetry)
    ensures forall a :: a in Breaches(rules, t) ==> a.deviceId == t.deviceId
  {
    if rules != [] {
      BreachesDevice(Front(rules), t);
    }
  }

  // ---------------------------------------------------------------- what the operators mean

  /** Below the threshold, at it, or above. */
  function Side(value: real, threshold: real): int {
    if value < threshold then -1 else if value > threshold then 1 else 0
  }

  /** The sides on which each operator alerts. */
  const ALARMING: map<string, set<int>> :=
    map[">" := {1}, ">=" := {0, 1}, "<" := {-1}, "<=" := {-1, 0}, "==" := {0}]

  /** One rule alerts if and only if the sample has the metric, the operator is one of the five, and the value lies on a
      side it alerts on; the alert is about that device, metric, value, threshold and severity. */
  lemma RuleAlertsExactly(r: AlertRule, t: Telemetry)
    ensures Breaches([r], t)
         == if r.metric in t.metrics && r.operator in ALARMING
                && Side(t.metrics[r.metric], r.threshold) in ALARMING[r.operator]
            then [Alert(t.deviceId, r.metric, t.metrics[r.metric], r.threshold, r.severity)] else []
  {
    assert Front([r]) == [] && Breaches(Front([r]), t) == [];
  }

  /** Each rule of a list alerts as it would alone, in the order of the list. */
  lemma {:induction false} BreachesAppend(a: seq<AlertRule>, b: seq<AlertRule>, t: Telemetry)
    ensures Breaches(a + b, t) == Breaches(a, t) + Breaches(b, t)
  {
    if b == [] {
      assert a + b == a;
    } else {
      assert Front(a + b) == a + Front(b) && Last(a + b) == Last(b);
      BreachesAppend(a, Front(b), t);
    }
  }

  /** Raising the value silences no rule that alerts upwards and sets off none that alerts downwards. */
  lemma RaisingValue(r: AlertRule, t: Telemetry, value: real)
    requires r.metric in t.metrics && t.metrics[r.metric] <= value
    ensures var raised := t.(metrics := t.metrics[r.metric := value]);
            && (r.operator in [">", ">="] && Breaches([r], t) != [] ==> Breaches([r], raised) != [])
            && (r.operator in ["<", "<="] && Breaches([r], raised) != [] ==> Breaches([r], t) != [])
  {
    RuleAlertsExactly(r, t);
    RuleAlertsExactly(r, t.(metrics := t.metrics[r.metric := value]));
  }

  /** Of the three strict operators exactly one alerts at any value; the other two alert besides at equality. */
  lemma OperatorsPartition(r: AlertRule, t: Telemetry)
    requires r.metric in t.metrics
    ensures var over, at, under := Breaches([r.(operator := ">")], t), Breaches([r.(operator := "==")], t),
                                   Breaches([r.(operator := "<")], t);
            && |over| + |at| + |under| == 1
            && Breaches([r.(operator := ">=")], t) == over + at && Breaches([r.(operator := "<=")], t) == at + under
            && (t.metrics[r.metric] == r.threshold <==> at != [])
  {
    forall op ensures r.(operator := op).metric == r.metric {
      RuleAlertsExactly(r.(operator := op), t);
    }
  }

  function AlertEvents(alerts: seq<Alert>): seq<Event> {
    seq(|alerts|, i requires 0 <= i < |alerts| => AlertEvent(alerts[i]))
  }

  /** What processing a stored sample publishes: the sample, then its alerts in rule order. */
  function JobEvents(rules: seq<AlertRule>, t: Telemetry): seq<Event> {
    [TelemetryEvent(t)] + AlertEvents(Breaches(rules, t))
  }

  const NO_RULE: AlertRule := AlertRule("", "", 0.0, "")

  /** What another goroutine does between two reads of an evaluation: append rules, growing by some spare capacity. */
  datatype Append = Append(rule: AlertRule, spare: nat)

  function Appended(log: seq<Append>): seq<AlertRule> {
    seq(|log|, i requires 0 <= i < |log| => log[i].rule)
  }

  class Engine {
    /** A Go slice: a backing array, whose length is the capacity, and a length. */
    var backing: array<AlertRule>
    var length: nat

    ghost predicate Valid()
      reads this
    {
      length <= backing.Length
    }

    function Rules(): seq<AlertRule>
      requires Valid()
      reads this, backing
    {
      backing[..length]
    }

    constructor (rules: seq<AlertRule>)
      ensures Valid() && fresh(backing) && Rules() == rules
    {
      backing := new AlertRule[|rules|](i requires 0 <= i < |rules| => rules[i]);
      length := |rules|;
    }

    /** `append`: in place while there is capacity, otherwise into a larger copy. */
    method AddRule(r: AlertRule, spare: nat)
      requires Valid()
      modifies this, backing
      ensures Valid() && Rules() == old(Rules()) + [r]
      ensures backing == old(backing) || fresh(backing)
      ensures length == old(length) + 1
      ensures old(backing)[..old(length)] == old(backing[..length])
    {
      if length < backing.Length {
        backing[length] := r;
      } else {
        var old' := backing[..length];
        backing := new AlertRule[length + 1 + spare]
          (i requires 0 <= i => if i < |old'| then old'[i] else if i == |old'| then r else NO_RULE);
        assert backing[..length] == old';
      }
      length := length + 1;
    }

    method AddRules(log: seq<Append>)
      requires Valid()
      modifies this, backing
      ensures Valid() && Rules() == old(Rules()) + Appended(log)
      ensures backing == old(backing) || fresh(backing)
      ensures length >= old(length)
      ensures old(backing)[..old(length)] == old(backing[..length])
    {
      for k := 0 to |log|
        invariant Valid() && Rules() == old(Rules()) + Appended(log[..k])
        invariant backing == old(backing) || fresh(backing)
        invariant length >= old(length)
        invariant old(backing)[..old(length)] == old(backing[..length])
      {
        AddRule(log[k].rule, log[k].spare);
        assert Appended(log[..k + 1]) == Appended(log[..k]) + [log[k].rule];
      }
      assert log[..|log|] == log;
    }

    /** Evaluate with every possible interference: before its i-th read, others perform the appends `others[i]`. The
        answer is that of the rules at the snapshot, a prefix of the final rules, although appends may have written into
        the very array being read. */
    method Evaluate(t: Telemetry, others: seq<seq<Append>>) returns (triggered: seq<Alert>)
      requires Valid()
      modifies this, backing
      ensures Valid() && old(Rules()) <= Rules()
      ensures triggered == Breaches(old(Rules()), t)
      ensures others == [] ==> Rules() == old(Rules())
    {
      var rules, n := backing, length;
      ghost var snapshot := Rules();
      triggered := [];
      for i := 0 to n
        invariant Valid() && snapshot <= Rules() && |snapshot| == n
        invariant backing == rules || fresh(backing)
        invariant rules == old(backing) && rules.Length >= n && rules[..n] == snapshot
        invariant triggered == Breaches(snapshot[..i], t)
        invariant others == [] ==> Rules() == snapshot
      {
        if i < |others| {
          AddRules(others[i]);
        }
        assert Front(snapshot[..i + 1]) == snapshot[..i];
        var rule := rules[i];
        assert rule == rules[..n][i] == Last(snapshot[..i + 1]);
        if rule.metric in t.metrics {
          var value := t.metrics[rule.metric];
          if Breached(value, rule.operator, rule.threshold) {
            triggered := triggered + [Alert(t.deviceId, rule.metric, value, rule.threshold, rule.severity)];
          }
        }
      }
      assert snapshot[..n] == snapshot;
    }
  }
}
