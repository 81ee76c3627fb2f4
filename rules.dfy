/**
  Rule evaluation of matchRuleAndExecuteCallback: which rule rows fire for one
  event, in what order, and where the pass stops. The rule rows are given as a
  sequence (the SQLite query is not modelled); the effects of a pass are the
  alerts appended to the log and the callbacks dispatched, one of each per firing.
 */
module Rules {
  import opened Wrappers
  import opened Messages
  import AlertLog
  import Callbacks
  import Registry

  /** One row of the `rules` table. The bounds are float64 in the source, only compared. */
  datatype Rule = Rule(ruleId: int, clientId: string, parameterName: string,
                       minRange: real, maxRange: real, trigger: string, callback: string)

  const Wildcard := "*"
  const InsideRange := "inside_range_trigger"
  const OutsideRange := "outside_range_trigger"
  const RuleTrigger := "rule trigger"

  /** A rule applies to the wildcard client "*" or to exactly one client id. */
  predicate AppliesTo(rule: Rule, sender: string)
  {
    rule.clientId == Wildcard || rule.clientId == sender
  }

  /** What one rule row does for one event. `data` is None when the event's `data`
      is not a JSON object, where the type assertion of the source panics. */
  datatype Verdict = Skip | Fire(value: real) | BadTrigger | Crash

  function Judge(rule: Rule, sender: string, data: Option<Object>): Verdict
  {
    if !AppliesTo(rule, sender) then Skip
    else match data
      case None => Crash
      case Some(fields) =>
        if rule.parameterName !in fields then Skip
        else
          var value := fields[rule.parameterName];
          if rule.trigger == InsideRange then
            if value.Num? && value.n >= rule.minRange && value.n <= rule.maxRange then Fire(value.n) else Skip
          else if rule.trigger == OutsideRange then
            if value.Num? && (value.n < rule.minRange || value.n > rule.maxRange) then Fire(value.n) else Skip
          else BadTrigger
  }

  /**
    A rule fires exactly when it applies to the sender, the payload has its
    parameter with a numeric value, and that value is inside the inclusive bounds
    (inside_range_trigger) or outside them (outside_range_trigger).
   */
  lemma FiresExactly(rule: Rule, sender: string, data: Option<Object>)
    ensures Judge(rule, sender, data).Fire? <==>
              && AppliesTo(rule, sender)
              && data.Some? && rule.parameterName in data.value
              && data.value[rule.parameterName].Num?
              && var v := data.value[rule.parameterName].n;
                 || (rule.trigger == InsideRange && rule.minRange <= v <= rule.maxRange)
                 || (rule.trigger == OutsideRange && (v < rule.minRange || v > rule.maxRange))
    ensures Judge(rule, sender, data).Fire? ==>
              Judge(rule, sender, data).value == data.value[rule.parameterName].n
    ensures Judge(rule, sender, data) == BadTrigger <==>
              && AppliesTo(rule, sender) && data.Some? && rule.parameterName in data.value
              && rule.trigger != InsideRange && rule.trigger != OutsideRange
  {
  }

  /** On a numeric parameter, the two trigger kinds over the same bounds are complementary. */
  lemma TriggersComplementary(rule: Rule, sender: string, fields: Object)
    requires AppliesTo(rule, sender) && rule.parameterName in fields && fields[rule.parameterName].Num?
    ensures Judge(rule.(trigger := InsideRange), sender, Some(fields)).Fire?
            != Judge(rule.(trigger := OutsideRange), sender, Some(fields)).Fire?
  {
  }

  /** A firing: the rule and the numeric value that made it fire. */
  datatype Firing = Firing(rule: Rule, value: real)

  datatype Status = Completed | InvalidTrigger(trigger: string) | Crashed

  /** A pass over the rule rows: the firings in order, and how the pass ended. */
  datatype Pass = Pass(fired: seq<Firing>, status: Status)

  /**
    The pass over `rules`: every firing rule in row order, stopping at the first
    row with an unknown trigger whose parameter is present (the source returns an
    error there) or at the first applicable row when the payload is not an object.
   */
  function Evaluate(rules: seq<Rule>, sender: string, data: Option<Object>): Pass
    decreases |rules|
  {
    if rules == [] then Pass([], Completed)
    else
      var before := Evaluate(rules[..|rules| - 1], sender, data);
      var last := rules[|rules| - 1];
      if !before.status.Completed? then before
      else match Judge(last, sender, data)
        case Skip => before
        case Fire(v) => Pass(before.fired + [Firing(last, v)], Completed)
        case BadTrigger => Pass(before.fired, InvalidTrigger(last.trigger))
        case Crash => Pass(before.fired, Crashed)
  }

  /** The index of the first row that ends the pass early, or |rules|. */
  function StopIndex(rules: seq<Rule>, sender: string, data: Option<Object>): (k: nat)
    ensures k <= |rules|
    ensures forall j :: 0 <= j < k ==> Judge(rules[j], sender, data) !in {BadTrigger, Crash}
    ensures k < |rules| ==> Judge(rules[k], sender, data) in {BadTrigger, Crash}
    decreases |rules|
  {
    if rules == [] then 0
    else if Judge(rules[0], sender, data) in {BadTrigger, Crash} then 0
    else 1 + StopIndex(rules[1..], sender, data)
  }

  /** The firings of every row, in order, with no early stop (a plain filter). */
  function AllFirings(rules: seq<Rule>, sender: string, data: Option<Object>): seq<Firing>
    decreases |rules|
  {
    if rules == [] then []
    else
      var rest := AllFirings(rules[1..], sender, data);
      match Judge(rules[0], sender, data)
      case Fire(v) => [Firing(rules[0], v)] + rest
      case _ => rest
  }

  lemma {:induction false} AllFiringsAppend(rules: seq<Rule>, r: Rule, sender: string, data: Option<Object>)
    ensures AllFirings(rules + [r], sender, data) ==
            AllFirings(rules, sender, data) +
            (match Judge(r, sender, data) case Fire(v) => [Firing(r, v)] case _ => [])
    decreases |rules|
  {
    if rules != [] {
      assert (rules + [r])[1..] == rules[1..] + [r];
      AllFiringsAppend(rules[1..], r, sender, data);
    }
  }

  lemma {:induction false} StopIndexAppend(rules: seq<Rule>, r: Rule, sender: string, data: Option<Object>)
    ensures StopIndex(rules, sender, data) < |rules| ==>
              StopIndex(rules + [r], sender, data) == StopIndex(rules, sender, data)
    ensures StopIndex(rules, sender, data) == |rules| ==>
              StopIndex(rules + [r], sender, data) ==
              if Judge(r, sender, data) in {BadTrigger, Crash} then |rules| else |rules| + 1
    decreases |rules|
  {
    if rules != [] {
      assert (rules + [r])[1..] == rules[1..] + [r];
      StopIndexAppend(rules[1..], r, sender, data);
    }
  }

  /**
    The pass is the plain filter of firings over the rows before the stopping row,
    and it ends the way the stopping row says: with an error naming its trigger, with
    a crash, or completed when no row stops it.
   */
  lemma {:induction false} EvaluateCharacterized(rules: seq<Rule>, sender: string, data: Option<Object>)
    ensures var stop := StopIndex(rules, sender, data);
            && Evaluate(rules, sender, data).fired == AllFirings(rules[..stop], sender, data)
            && Evaluate(rules, sender, data).status ==
                 if stop == |rules| then Completed
                 else if Judge(rules[stop], sender, data) == BadTrigger then InvalidTrigger(rules[stop].trigger)
                 else Crashed
    decreases |rules|
  {
    if rules != [] {
      var init, last := rules[..|rules| - 1], rules[|rules| - 1];
      assert rules == init + [last];
      EvaluateCharacterized(init, sender, data);
      StopIndexAppend(init, last, sender, data);
      var stop := StopIndex(init, sender, data);
      assert init[..stop] == rules[..stop];
      if stop == |init| && Judge(last, sender, data) !in {BadTrigger, Crash} {
        AllFiringsAppend(init, last, sender, data);
        assert rules[..|rules|] == init + [last];
      }
    }
  }

  /** Every firing is a row that fires, and the rows fire in the order of the rows. */
  lemma {:induction false} FiringsAreFiringRows(rules: seq<Rule>, sender: string, data: Option<Object>)
    ensures var fired := AllFirings(rules, sender, data);
            |fired| <= |rules| &&
            forall k :: 0 <= k < |fired| ==>
              fired[k].rule in rules && Judge(fired[k].rule, sender, data) == Fire(fired[k].value)
    decreases |rules|
  {
    if rules != [] {
      FiringsAreFiringRows(rules[1..], sender, data);
    }
  }

  /** A crash happens only before anything fired: a crashed pass leaves no effect. */
  lemma {:induction false} CrashLeavesNoFirings(rules: seq<Rule>, sender: string, data: Option<Object>)
    ensures Evaluate(rules, sender, data).status == Crashed ==> Evaluate(rules, sender, data).fired == []
    ensures data.None? ==> Evaluate(rules, sender, data).fired == []
    decreases |rules|
  {
    if rules != [] {
      CrashLeavesNoFirings(rules[..|rules| - 1], sender, data);
    }
  }

  /**
    A row that does nothing for this event (it applies to another client, or its
    parameter is absent) may be dropped from the rows without changing the pass;
    in particular a row with an unknown trigger is harmless when its parameter is absent.
   */
  lemma {:induction false} SkippedRowIrrelevant(xs: seq<Rule>, r: Rule, ys: seq<Rule>,
                                                 sender: string, data: Option<Object>)
    requires Judge(r, sender, data) == Skip
    ensures Evaluate(xs + [r] + ys, sender, data) == Evaluate(xs + ys, sender, data)
    decreases |ys|
  {
    if ys == [] {
      assert (xs + [r] + ys)[..|xs + [r] + ys| - 1] == xs;
      assert xs + ys == xs;
    } else {
      var init, last := ys[..|ys| - 1], ys[|ys| - 1];
      SkippedRowIrrelevant(xs, r, init, sender, data);
      assert (xs + [r] + ys)[..|xs + [r] + ys| - 1] == xs + [r] + init;
      assert (xs + ys)[..|xs + ys| - 1] == xs + init;
    }
  }

  /** Once a prefix of the rows ends the pass, further rows change nothing. */
  lemma {:induction false} EvaluateStops(rules: seq<Rule>, i: nat, sender: string, data: Option<Object>)
    requires i <= |rules|
    requires !Evaluate(rules[..i], sender, data).status.Completed?
    ensures Evaluate(rules, sender, data) == Evaluate(rules[..i], sender, data)
    decreases |rules| - i
  {
    if i < |rules| {
      assert rules[..i + 1][..i] == rules[..i];
      EvaluateStops(rules, i + 1, sender, data);
    } else {
      assert rules[..i] == rules;
    }
  }

  /** The one-row pass: what the row's verdict says, with at most one firing. */
  lemma EvaluateOneRow(rule: Rule, sender: string, data: Option<Object>)
    ensures Evaluate([rule], sender, data) ==
            match Judge(rule, sender, data)
            case Skip => Pass([], Completed)
            case Fire(v) => Pass([Firing(rule, v)], Completed)
            case BadTrigger => Pass([], InvalidTrigger(rule.trigger))
            case Crash => Pass([], Crashed)
  {
    assert [rule][..0] == [];
  }

  /** One more row after a completed prefix: the pass continues with that row's own one-row pass. */
  lemma EvaluatePrefixStep(rules: seq<Rule>, i: nat, sender: string, data: Option<Object>)
    requires i < |rules|
    requires Evaluate(rules[..i], sender, data).status == Completed
    ensures var row := Evaluate([rules[i]], sender, data);
            Evaluate(rules[..i + 1], sender, data) == Pass(Evaluate(rules[..i], sender, data).fired + row.fired, row.status)
  {
    assert rules[..i + 1][..i] == rules[..i];
    assert [rules[i]][..0] == [];
  }

  /** The alert a firing appends; `now` and `render` stand for the clock and number formatting. */
  function AlertFor(f: Firing, sender: string, now: string, render: real -> string): (a: AlertLog.Alert)
  {
    AlertLog.Alert(0, RuleTrigger, sender, now,
                   f.rule.parameterName + " detected (confidence: " + render(f.value) + ") - alert triggered.")
  }

  /** The dispatch a firing records: the rule's callback with the sender as its only argument. */
  function DispatchFor(f: Firing, sender: string): Callbacks.Dispatch
  {
    Callbacks.Dispatch(f.rule.callback, [sender])
  }

  function AlertsOf(fired: seq<Firing>, sender: string, now: string, render: real -> string): seq<AlertLog.Alert>
    decreases |fired|
  {
    if fired == [] then []
    else AlertsOf(fired[..|fired| - 1], sender, now, render) + [AlertFor(fired[|fired| - 1], sender, now, render)]
  }

  function DispatchesOf(fired: seq<Firing>, sender: string): seq<Callbacks.Dispatch>
    decreases |fired|
  {
    if fired == [] then []
    else DispatchesOf(fired[..|fired| - 1], sender) + [DispatchFor(fired[|fired| - 1], sender)]
  }

  lemma AppendAssociative<T>(a: seq<T>, b: seq<T>, c: seq<T>)
    ensures a + b + c == a + (b + c)
  {
  }

  /** The effects of two runs of firings are the effects of the first followed by those of the second. */
  lemma {:induction false} EffectsConcat(xs: seq<Firing>, ys: seq<Firing>, sender: string, now: string, render: real -> string)
    ensures AlertsOf(xs + ys, sender, now, render) == AlertsOf(xs, sender, now, render) + AlertsOf(ys, sender, now, render)
    ensures DispatchesOf(xs + ys, sender) == DispatchesOf(xs, sender) + DispatchesOf(ys, sender)
    decreases |ys|
  {
    if ys == [] {
      assert xs + ys == xs;
    } else {
      var init, last := ys[..|ys| - 1], ys[|ys| - 1];
      assert (xs + ys)[..|xs + ys| - 1] == xs + init;
      EffectsConcat(xs, init, sender, now, render);
    }
  }

  /**
    Firing k appends alert k and dispatch k: an alert of type "rule trigger" for
    the sender whose message starts with the parameter name, and a dispatch of the
    rule's callback with the sender id as its only argument.
   */
  lemma {:induction false} EffectsOfFirings(fired: seq<Firing>, sender: string, now: string, render: real -> string)
    ensures |AlertsOf(fired, sender, now, render)| == |fired| == |DispatchesOf(fired, sender)|
    ensures forall k :: 0 <= k < |fired| ==>
              var alert := AlertsOf(fired, sender, now, render)[k];
              && alert.alertType == RuleTrigger && alert.clientId == sender && alert.timestamp == now
              && fired[k].rule.parameterName <= alert.message
    ensures forall k :: 0 <= k < |fired| ==>
              DispatchesOf(fired, sender)[k] == Callbacks.Dispatch(fired[k].rule.callback, [sender])
    decreases |fired|
  {
    if fired != [] {
      var init, last := fired[..|fired| - 1], fired[|fired| - 1];
      EffectsOfFirings(init, sender, now, render);
      var alerts, dispatches := AlertsOf(fired, sender, now, render), DispatchesOf(fired, sender);
      assert alerts == AlertsOf(init, sender, now, render) + [AlertFor(last, sender, now, render)];
      assert dispatches == DispatchesOf(init, sender) + [DispatchFor(last, sender)];
      forall k | 0 <= k < |fired|
        ensures && alerts[k].alertType == RuleTrigger && alerts[k].clientId == sender && alerts[k].timestamp == now
                && fired[k].rule.parameterName <= alerts[k].message
        ensures dispatches[k] == Callbacks.Dispatch(fired[k].rule.callback, [sender])
      {
        if k < |init| {
          assert fired[k] == init[k];
          assert alerts[k] == AlertsOf(init, sender, now, render)[k];
          assert dispatches[k] == DispatchesOf(init, sender)[k];
        } else {
          assert fired[k] == last;
          assert alerts[k] == AlertFor(last, sender, now, render);
        }
      }
    }
  }

  /**
    Every dispatch from a rule pass carries exactly the sender id, so it never
    fails the arity check: it runs when the rule names a registered handler and
    panics otherwise.
   */
  lemma RuleDispatchesPassArity(fired: seq<Firing>, sender: string, k: nat, clients: Registry.Clients,
                                classify: string -> Option<string>)
    requires k < |fired|
    ensures |DispatchesOf(fired, sender)| == |fired|
    ensures var d := DispatchesOf(fired, sender)[k];
            && d == Callbacks.Dispatch(fired[k].rule.callback, [sender])
            && !Callbacks.Execute(d.name, d.args, clients, classify).ArityMismatch?
            && (Callbacks.Execute(d.name, d.args, clients, classify).Ran? <==> d.name in Callbacks.Handlers)
  {
    EffectsOfFirings(fired, sender, "", x => "");
  }

  /** A wildcard inside-range rule on a value within its bounds: one firing, one fox dispatch. */
  lemma InsideRangeExample()
    ensures var rule := Rule(1, Wildcard, "temperature", 0.0, 50.0, InsideRange, Callbacks.FoxCallback);
            var pass := Evaluate([rule], "AA:BB:CC:DD:EE:FF", Some(map["temperature" := Num(25.0)]));
            && pass == Pass([Firing(rule, 25.0)], Completed)
            && DispatchesOf(pass.fired, "AA:BB:CC:DD:EE:FF")
               == [Callbacks.Dispatch(Callbacks.FoxCallback, ["AA:BB:CC:DD:EE:FF"])]
  {
    var rule := Rule(1, Wildcard, "temperature", 0.0, 50.0, InsideRange, Callbacks.FoxCallback);
    assert [rule][..0] == [];
  }

  /** The same rule on a value above its bounds: nothing fires. */
  lemma OutOfBoundsExample()
    ensures var rule := Rule(1, Wildcard, "temperature", 0.0, 50.0, InsideRange, Callbacks.FoxCallback);
            Evaluate([rule], "AA:BB:CC:DD:EE:FF", Some(map["temperature" := Num(99.0)])) == Pass([], Completed)
  {
    var rule := Rule(1, Wildcard, "temperature", 0.0, 50.0, InsideRange, Callbacks.FoxCallback);
    assert [rule][..0] == [];
  }
}
