/**
  The gateway process: its shared state (the client registry `clientData`, the
  alert log `activeAlerts`, and a log of the `go executeCallback(...)` calls it
  spawns) and the handlers that change that state: the MQTT publish handler,
  handleRegistration, checkClients, matchRuleAndExecuteCallback, and the
  `/_alerts` and `/_dismiss_alert` HTTP handlers.
 */
module Gateway {
  import opened Wrappers
  import opened Messages
  import Registry
  import AlertLog
  import Strconv
  import Rules
  import Callbacks

  /** How the publish handler branches on a decoded message (None: json.Unmarshal failed). */
  datatype Route =
    | Unparsable                    // logged and dropped
    | NoEventField                  // `eventPayload["event"].(string)` panics
    | Telemetry(payload: Object)    // event "telemetry" or "intrusion"
    | Registration(payload: Object) // event "registration"
    | Unknown(event: string)        // printed and dropped

  function RouteOf(msg: Option<Object>): Route
  {
    match msg
    case None => Unparsable
    case Some(m) =>
      match StringField(m, "event")
      case None => NoEventField
      case Some(event) =>
        if event == "telemetry" || event == "intrusion" then Telemetry(m)
        else if event == "registration" then Registration(m)
        else Unknown(event)
  }

  /** The record handleRegistration stores, None where one of its type assertions panics. */
  function RegistrationRecord(m: Object): (r: Option<Registry.ClientInfo>)
    ensures r.Some? <==> && StringField(m, "client_id").Some? && StringField(m, "device_type").Some?
                         && ObjectField(m, "data").Some? && StringField(ObjectField(m, "data").value, "ip").Some?
    ensures r.Some? ==> && r.value.id == StringField(m, "client_id").value
                        && r.value.deviceType == StringField(m, "device_type").value
                        && StringField(ObjectField(m, "data").value, "ip") == Some(r.value.ip)
  {
    match (StringField(m, "client_id"), StringField(m, "device_type"), ObjectField(m, "data"))
    case (Some(id), Some(deviceType), Some(data)) =>
      (match StringField(data, "ip")
       case Some(ip) => Some(Registry.ClientInfo(id, ip, deviceType))
       case None => None)
    case _ => None
  }

  /**
    The sender id of a telemetry event, None where one of saveTelemetryData's
    type assertions (client_id, device_type, a numeric local_timestamp) panics.
   */
  function TelemetrySender(m: Object): Option<string>
  {
    if StringField(m, "device_type").Some? && NumberField(m, "local_timestamp").Some?
    then StringField(m, "client_id")
    else None
  }

  /** What became of one inbound message. */
  datatype Handled =
    | Dropped                                   // payload was not JSON
    | Panicked                                  // an unchecked assertion failed: the process dies
    | Ignored(event: string)                    // unknown event kind
    | Registered
    | Ingested(saved: bool, status: Rules.Status)  // saved or not, the rules were matched

  class Gateway {
    var clients: Registry.Clients
    var alerts: seq<AlertLog.Alert>
    var dispatched: seq<Callbacks.Dispatch>

    constructor ()
      ensures clients == map[] && alerts == [] && dispatched == []
    {
      clients, alerts, dispatched := map[], [], [];
    }

    /**
      The default publish handler. The store write is an oracle `saveOk`; rule rows
      are given as `rules`; `now` and `render` stand for the clock and the float
      formatting of alert messages.
     */
    method HandleMessage(msg: Option<Object>, rules: seq<Rules.Rule>, saveOk: bool,
                         now: string, render: real -> string) returns (r: Handled)
      modifies this
      ensures RouteOf(msg).Telemetry? && TelemetrySender(RouteOf(msg).payload).Some? ==>
                var sender := TelemetrySender(RouteOf(msg).payload).value;
                var pass := Rules.Evaluate(rules, sender, ObjectField(RouteOf(msg).payload, "data"));
                && clients == old(clients)
                && alerts == old(alerts) + Rules.AlertsOf(pass.fired, sender, now, render)
                && dispatched == old(dispatched) + Rules.DispatchesOf(pass.fired, sender)
                && r == if pass.status == Rules.Crashed then Panicked else Ingested(saveOk, pass.status)
      ensures RouteOf(msg).Registration? && RegistrationRecord(RouteOf(msg).payload).Some? ==>
                && clients == Registry.Upsert(old(clients), RegistrationRecord(RouteOf(msg).payload).value)
                && alerts == old(alerts) && dispatched == old(dispatched)
                && r == Registered
      ensures || (RouteOf(msg).Telemetry? && TelemetrySender(RouteOf(msg).payload).None?)
              || (RouteOf(msg).Registration? && RegistrationRecord(RouteOf(msg).payload).None?)
              || RouteOf(msg).NoEventField?
              ==> r == Panicked && clients == old(clients) && alerts == old(alerts) && dispatched == old(dispatched)
      ensures RouteOf(msg).Unparsable? ==>
                r == Dropped && clients == old(clients) && alerts == old(alerts) && dispatched == old(dispatched)
      ensures RouteOf(msg).Unknown? ==>
                r == Ignored(RouteOf(msg).event)
                && clients == old(clients) && alerts == old(alerts) && dispatched == old(dispatched)
    {
      match RouteOf(msg)
      case Unparsable =>
        r := Dropped;
      case NoEventField =>
        r := Panicked;
      case Unknown(event) =>
        r := Ignored(event);
      case Registration(payload) =>
        var panicked := HandleRegistration(payload);
        r := if panicked then Panicked else Registered;
      case Telemetry(payload) =>
        var sender := TelemetrySender(payload);
        if sender.None? {
          r := Panicked;
          return;
        }
        // saveTelemetryData's failure is only logged: the rules are matched either way
        var data := ObjectField(payload, "data");
        var status := MatchRules(rules, sender.value, data, now, render);
        Rules.CrashLeavesNoFirings(rules, sender.value, data);
        r := if status == Rules.Crashed then Panicked else Ingested(saveOk, status);
    }

    /** handleRegistration: overwrite the entry of the registering client. */
    method HandleRegistration(payload: Object) returns (panicked: bool)
      modifies this`clients
      ensures panicked <==> RegistrationRecord(payload).None?
      ensures !panicked ==> clients == Registry.Upsert(old(clients), RegistrationRecord(payload).value)
      ensures panicked ==> clients == old(clients)
    {
      var clientId := StringField(payload, "client_id");
      var deviceType := StringField(payload, "device_type");
      var data := ObjectField(payload, "data");
      if clientId.None? || deviceType.None? || data.None? {
        return true;
      }
      var ip := StringField(data.value, "ip");
      if ip.None? {
        return true;
      }
      clients := clients[clientId.value := Registry.ClientInfo(clientId.value, ip.value, deviceType.value)];
      panicked := false;
    }

    /**
      checkClients: probe every registered client once, in the map's arbitrary
      order, deleting each one whose probe fails or answers other than 200.
     */
    method CheckClients(probe: Registry.Probe)
      modifies this`clients
      ensures clients == Registry.Survivors(old(clients), probe)
      ensures forall id :: id in clients <==> id in old(clients) && Registry.Survives(probe, id, old(clients)[id])
      ensures forall id :: id in clients ==> clients[id] == old(clients)[id]
    {
      var pending := clients.Keys;
      while pending != {}
        invariant pending <= old(clients).Keys
        invariant forall id :: id in pending ==> id in clients && clients[id] == old(clients)[id]
        invariant forall id :: id in clients ==> id in old(clients) && clients[id] == old(clients)[id]
        invariant forall id :: id in old(clients) && id !in pending ==>
                    (id in clients <==> Registry.Survives(probe, id, old(clients)[id]))
        decreases pending
      {
        var id :| id in pending;
        var info := clients[id];
        match probe(id, Registry.HealthUrl(info.ip)) {
          case TransportError =>
            clients := clients - {id};
          case Status(code) =>
            if code != Registry.StatusOK {
              clients := clients - {id};
            }
        }
        pending := pending - {id};
      }
    }

    /**
      matchRuleAndExecuteCallback: match every rule row in order, stopping at the
      first row that returns an error or panics.
     */
    method MatchRules(rules: seq<Rules.Rule>, sender: string, data: Option<Object>,
                      now: string, render: real -> string) returns (status: Rules.Status)
      modifies this`alerts, this`dispatched
      ensures var pass := Rules.Evaluate(rules, sender, data);
              && status == pass.status
              && alerts == old(alerts) + Rules.AlertsOf(pass.fired, sender, now, render)
              && dispatched == old(dispatched) + Rules.DispatchesOf(pass.fired, sender)
    {
      var i := 0;
      ghost var fired: seq<Rules.Firing> := [];
      while i < |rules|
        invariant 0 <= i <= |rules|
        invariant Rules.Evaluate(rules[..i], sender, data) == Rules.Pass(fired, Rules.Completed)
        invariant alerts == old(alerts) + Rules.AlertsOf(fired, sender, now, render)
        invariant dispatched == old(dispatched) + Rules.DispatchesOf(fired, sender)
      {
        ghost var row := Rules.Evaluate([rules[i]], sender, data);
        Rules.EvaluatePrefixStep(rules, i, sender, data);
        Rules.EffectsConcat(fired, row.fired, sender, now, render);
        Rules.AppendAssociative(old(alerts), Rules.AlertsOf(fired, sender, now, render), Rules.AlertsOf(row.fired, sender, now, render));
        Rules.AppendAssociative(old(dispatched), Rules.DispatchesOf(fired, sender), Rules.DispatchesOf(row.fired, sender));
        var rowStatus := MatchRow(rules[i], sender, data, now, render);
        if rowStatus != Rules.Completed {
          Rules.EvaluateStops(rules, i + 1, sender, data);
          return rowStatus;
        }
        fired := fired + row.fired;
        i := i + 1;
      }
      assert rules[..i] == rules;
      status := Rules.Completed;
    }

    /**
      One iteration of the rule loop: skip a rule for another client, panic when
      the payload's data is not an object, otherwise match the rule against it.
     */
    method MatchRow(rule: Rules.Rule, sender: string, data: Option<Object>,
                    now: string, render: real -> string) returns (status: Rules.Status)
      modifies this`alerts, this`dispatched
      ensures var row := Rules.Evaluate([rule], sender, data);
              && status == row.status
              && alerts == old(alerts) + Rules.AlertsOf(row.fired, sender, now, render)
              && dispatched == old(dispatched) + Rules.DispatchesOf(row.fired, sender)
    {
      Rules.EvaluateOneRow(rule, sender, data);
      if rule.clientId != Rules.Wildcard && rule.clientId != sender {
        return Rules.Completed;
      }
      if data.None? {
        return Rules.Crashed;
      }
      assert data == Some(data.value);
      var invalid := MatchRule(rule, sender, data.value, now, render);
      if invalid {
        return Rules.InvalidTrigger(rule.trigger);
      }
      match Rules.Judge(rule, sender, data) {
        case Fire(v) => Rules.EffectsConcat([], [Rules.Firing(rule, v)], sender, now, render);
        case _ =>
      }
      status := Rules.Completed;
    }

    /**
      The body of the rule loop for one applicable rule: look at every payload key
      in the map's arbitrary order and, on the rule's parameter, fire or report an
      unknown trigger (`invalid`) by the rule's trigger.
     */
    method MatchRule(rule: Rules.Rule, sender: string, fields: Object,
                     now: string, render: real -> string) returns (invalid: bool)
      requires Rules.AppliesTo(rule, sender)
      modifies this`alerts, this`dispatched
      ensures var verdict := Rules.Judge(rule, sender, Some(fields));
              && (invalid <==> verdict == Rules.BadTrigger)
              && (verdict.Fire? ==>
                    && alerts == old(alerts) + [Rules.AlertFor(Rules.Firing(rule, verdict.value), sender, now, render)]
                    && dispatched == old(dispatched) + [Rules.DispatchFor(Rules.Firing(rule, verdict.value), sender)])
              && (!verdict.Fire? ==> alerts == old(alerts) && dispatched == old(dispatched))
    {
      ghost var verdict := Rules.Judge(rule, sender, Some(fields));
      var keys := fields.Keys;
      while keys != {}
        invariant keys <= fields.Keys
        invariant rule.parameterName in keys ==> alerts == old(alerts) && dispatched == old(dispatched)
        invariant rule.parameterName !in keys ==> verdict != Rules.BadTrigger
        invariant rule.parameterName !in keys && verdict.Fire? ==>
                    && alerts == old(alerts) + [Rules.AlertFor(Rules.Firing(rule, verdict.value), sender, now, render)]
                    && dispatched == old(dispatched) + [Rules.DispatchFor(Rules.Firing(rule, verdict.value), sender)]
        invariant rule.parameterName !in keys && !verdict.Fire? ==> alerts == old(alerts) && dispatched == old(dispatched)
        decreases keys
      {
        var key :| key in keys;
        if key == rule.parameterName {
          var value := fields[key];
          if rule.trigger == Rules.InsideRange {
            if value.Num? && value.n >= rule.minRange && value.n <= rule.maxRange {
              alerts := alerts + [AlertLog.Alert(0, Rules.RuleTrigger, sender, now,
                                    key + " detected (confidence: " + render(value.n) + ") - alert triggered.")];
              dispatched := dispatched + [Callbacks.Dispatch(rule.callback, [sender])];
            }
          } else if rule.trigger == Rules.OutsideRange {
            if value.Num? && (value.n < rule.minRange || value.n > rule.maxRange) {
              alerts := alerts + [AlertLog.Alert(0, Rules.RuleTrigger, sender, now,
                                    key + " detected (confidence: " + render(value.n) + ") - alert triggered.")];
              dispatched := dispatched + [Callbacks.Dispatch(rule.callback, [sender])];
            }
          } else {
            return true;
          }
        }
        keys := keys - {key};
      }
      invalid := false;
    }

    /** `/_alerts`: set every alert's Id to its index, then answer with the whole log. */
    method ListAlerts() returns (view: seq<AlertLog.Alert>)
      modifies this`alerts
      ensures alerts == AlertLog.Renumbered(old(alerts))
      ensures view == alerts
    {
      var i := 0;
      while i < |alerts|
        invariant 0 <= i <= |alerts| == |old(alerts)|
        invariant forall k :: 0 <= k < i ==> alerts[k] == old(alerts)[k].(id := k)
        invariant forall k :: i <= k < |alerts| ==> alerts[k] == old(alerts)[k]
      {
        alerts := alerts[i := alerts[i].(id := i)];
        i := i + 1;
      }
      view := alerts;
    }

    /** `/_dismiss_alert?index=...`: `indexParam` is the query value, "" when absent. */
    method DismissAlert(indexParam: string) returns (status: int, reason: string)
      modifies this`alerts
      ensures match AlertLog.Decide(old(alerts), indexParam)
              case Rejected(why) => status == AlertLog.StatusBadRequest && reason == why && alerts == old(alerts)
              case Remove(i) => status == AlertLog.StatusOK && reason == "" && alerts == AlertLog.RemoveAt(old(alerts), i)
    {
      if indexParam == "" {
        return AlertLog.StatusBadRequest, AlertLog.MissingIndex;
      }
      var parsed := Strconv.Atoi(indexParam);
      if parsed.None? {
        return AlertLog.StatusBadRequest, AlertLog.InvalidIndex;
      }
      var index := parsed.value;
      if index < 0 || index >= |alerts| {
        return AlertLog.StatusBadRequest, AlertLog.InvalidIndex;
      }
      alerts := alerts[..index] + alerts[index + 1..];
      status, reason := AlertLog.StatusOK, "";
    }
  }
}
