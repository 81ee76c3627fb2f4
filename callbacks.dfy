/**
  The callback registry `StubStorage`, the reflective dispatcher `executeCallback`,
  the five species callbacks that publish an alert back to a device, and the
  classifier bridge `yolo_post_classification` with its label switch.

  Reflection is replaced by a table from handler name to parameter count. Running a
  handler is described by the actions it takes (publish, call the classifier,
  spawn a further dispatch) rather than by performing them.
 */
module Callbacks {
  import opened Wrappers
  import Registry

  const YoloPostClassification := "yolo_post_classification"
  const FoxCallback := "fox_callback"
  const BearCallback := "bear_callback"
  const WolfCallback := "wolf_callback"
  const DeerCallback := "deer_callback"
  const CrocodileCallback := "crocodile_callback"

  /** StubStorage: every registered handler with its number of parameters (all take a client id). */
  const Handlers: map<string, nat> := map[
    YoloPostClassification := 1,
    FoxCallback := 1,
    BearCallback := 1,
    WolfCallback := 1,
    DeerCallback := 1,
    CrocodileCallback := 1
  ]

  /** One `go executeCallback(name, args...)`, as recorded in the dispatch log. */
  datatype Dispatch = Dispatch(name: string, args: seq<string>)

  /** What a handler does when it runs. */
  datatype Action =
    | Publish(topic: string, payload: string)   // mqttClient.Publish, QoS 0, not retained
    | RequestInference(ipAddress: string)       // POST {"ip_address": ...} to the classifier
    | Spawn(call: Dispatch)                     // a further asynchronous executeCallback

  /**
    Result of executeCallback: the handler ran, the argument count did not match,
    or the name is not in StubStorage, where `reflect.ValueOf(nil).Type()` panics.
   */
  datatype Outcome = Ran(actions: seq<Action>) | ArityMismatch | Panicked

  const AlertTopicPrefix := "uol/uol-cm3070-mod11/sub/"

  /** The per-client sub-topic the species callbacks publish to. */
  function AlertTopic(clientId: string): string
  {
    AlertTopicPrefix + clientId
  }

  /** Recovers the client id from a per-client alert topic. */
  function ClientOfTopic(topic: string): Option<string>
  {
    if |AlertTopicPrefix| <= |topic| && topic[..|AlertTopicPrefix|] == AlertTopicPrefix
    then Some(topic[|AlertTopicPrefix|..])
    else None
  }

  lemma ClientOfAlertTopic(clientId: string)
    ensures ClientOfTopic(AlertTopic(clientId)) == Some(clientId)
  {
    assert AlertTopic(clientId)[..|AlertTopicPrefix|] == AlertTopicPrefix;
    assert AlertTopic(clientId)[|AlertTopicPrefix|..] == clientId;
  }

  /** The payload string a species callback publishes, character for character. */
  function AlertPayload(species: string, clientId: string): string
  {
    "{\"event\": \"" + species + "_alert\", \"client_id\": \"" + clientId + "\", \"data\": {}} }"
  }

  /** The species each species callback announces. */
  function Species(name: string): string
    requires name in Handlers && name != YoloPostClassification
  {
    if name == FoxCallback then "fox"
    else if name == BearCallback then "bear"
    else if name == WolfCallback then "wolf"
    else if name == CrocodileCallback then "crocodile"
    else "deer"
  }

  /** The label switch of yolo_post_classification; None where it only logs. */
  function LabelCallback(topLabel: string): (r: Option<string>)
    ensures r.Some? <==> topLabel in {"fox", "bear", "wolf", "timber_wolf", "crocodile", "deer"}
    ensures r.Some? ==> r.value in Handlers && r.value != YoloPostClassification && Handlers[r.value] == 1
    ensures topLabel == "timber_wolf" ==> r == Some(WolfCallback)
    ensures r.Some? ==> Species(r.value) == if topLabel == "timber_wolf" then "wolf" else topLabel
  {
    match topLabel
    case "fox" => Some(FoxCallback)
    case "bear" => Some(BearCallback)
    case "wolf" => Some(WolfCallback)
    case "timber_wolf" => Some(WolfCallback)
    case "crocodile" => Some(CrocodileCallback)
    case "deer" => Some(DeerCallback)
    case _ => None
  }

  /**
    yolo_post_classification(clientID). The classifier is an oracle from the posted
    IP address to the decoded top label, None when the request or the decoding
    fails. An unregistered client is looked up as Go's zero ClientInfo (IP "").
    The label switch calls executeCallback with the callback name alone.
   */
  function Classification(clientId: string, clients: Registry.Clients,
                          classify: string -> Option<string>): seq<Action>
  {
    var ip := if clientId in clients then clients[clientId].ip else "";
    [RequestInference(ip)] +
    match classify(ip)
    case None => []
    case Some(topLabel) =>
      match LabelCallback(topLabel)
      case None => []
      case Some(name) => [Spawn(Dispatch(name, []))]
  }

  /** executeCallback(funcName, params...): arity check first, then the handler. */
  function Execute(name: string, args: seq<string>, clients: Registry.Clients,
                   classify: string -> Option<string>): (r: Outcome)
    ensures r.Panicked? <==> name !in Handlers
    ensures r.ArityMismatch? <==> name in Handlers && |args| != Handlers[name]
    ensures r.Ran? ==> |args| == 1
  {
    if name !in Handlers then Panicked
    else if |args| != Handlers[name] then ArityMismatch
    else if name == YoloPostClassification then Ran(Classification(args[0], clients, classify))
    else Ran([Publish(AlertTopic(args[0]), AlertPayload(Species(name), args[0]))])
  }

  /** A species callback publishes one alert, on the topic of the client it was given. */
  lemma SpeciesCallbackPublishes(name: string, clientId: string, clients: Registry.Clients,
                                 classify: string -> Option<string>)
    requires name in Handlers && name != YoloPostClassification
    ensures Execute(name, [clientId], clients, classify).Ran?
    ensures var actions := Execute(name, [clientId], clients, classify).actions;
            |actions| == 1 && actions[0].Publish? && ClientOfTopic(actions[0].topic) == Some(clientId)
  {
    ClientOfAlertTopic(clientId);
  }

  /**
    Every dispatch the classifier bridge spawns carries no argument, while every
    handler takes one: each of them fails the arity check, so the bridge never
    leads to a publish.
   */
  lemma ClassifierFollowUpsFail(clientId: string, clients: Registry.Clients,
                                classify: string -> Option<string>)
    ensures Execute(YoloPostClassification, [clientId], clients, classify).Ran?
    ensures forall a :: a in Execute(YoloPostClassification, [clientId], clients, classify).actions ==>
              !a.Publish? && (a.Spawn? ==> Execute(a.call.name, a.call.args, clients, classify) == ArityMismatch)
  {
  }

  const PayloadKey := "\"event\": \""
  const PayloadMiddle := "_alert\", \"client_id\": \""
  const PayloadData := "\", \"data\": "

  lemma PayloadPiecesBraceFree()
    ensures '{' !in PayloadKey && '}' !in PayloadKey
    ensures '{' !in PayloadMiddle && '}' !in PayloadMiddle
    ensures '{' !in PayloadData && '}' !in PayloadData
  {
  }

  lemma PayloadPieces(species: string, clientId: string)
    ensures AlertPayload(species, clientId)
            == "{" + PayloadKey + species + PayloadMiddle + clientId + PayloadData + "{" + "}" + "}" + " " + "}"
  {
  }

  /** Brace counts of the payload shape, for brace-free pieces. */
  lemma ShapeBraces(key: string, species: string, middle: string, clientId: string, data: string)
    requires '{' !in key && '}' !in key && '{' !in species && '}' !in species
    requires '{' !in middle && '}' !in middle && '{' !in clientId && '}' !in clientId
    requires '{' !in data && '}' !in data
    ensures var shape := "{" + key + species + middle + clientId + data + "{" + "}" + "}" + " " + "}";
            multiset(shape)['{'] == 2 && multiset(shape)['}'] == 3
  {
  }

  /**
    The published payload opens two braces and closes three (for a species and a
    client id without braces), one more closing brace than a JSON object has.
   */
  lemma AlertPayloadBraces(species: string, clientId: string)
    requires '{' !in species && '}' !in species && '{' !in clientId && '}' !in clientId
    ensures multiset(AlertPayload(species, clientId))['{'] == 2
    ensures multiset(AlertPayload(species, clientId))['}'] == 3
  {
    PayloadPieces(species, clientId);
    PayloadPiecesBraceFree();
    ShapeBraces(PayloadKey, species, PayloadMiddle, clientId, PayloadData);
  }
}
