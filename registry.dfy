/**
  The client registry `clientData` (a `map[string]ClientInfo` keyed by client id)
  and the pure part of the liveness monitor `checkClients`.
 */
module Registry {

  /** ClientInfo: the device id, its declared IP address and its device type. */
  datatype ClientInfo = ClientInfo(id: string, ip: string, deviceType: string)

  type Clients = map<string, ClientInfo>

  /**
    The assignment `clientData[clientID] = ClientInfo{...}` of handleRegistration:
    overwrite, never merge.
   */
  function Upsert(m: Clients, info: ClientInfo): (r: Clients)
    ensures info.id in r && r[info.id] == info
    ensures forall id :: id in m && id != info.id ==> id in r && r[id] == m[id]
    ensures r.Keys == m.Keys + {info.id}
    ensures |r| == if info.id in m then |m| else |m| + 1
  {
    m[info.id := info]
  }

  /** Outcome of `client.Get(url)`: a transport error, or a response with a status code. */
  datatype ProbeResult = TransportError | Status(code: int)

  /**
    The health probe, an oracle from a client id and the URL requested for it to the
    request's outcome (HTTP is not modelled). One request is made per client, so
    clients sharing an IP address may still get different answers.
   */
  type Probe = (string, string) -> ProbeResult

  const StatusOK: int := 200

  /** The URL `http://<ip>/healthz` that checkClients requests for a client. */
  function HealthUrl(ip: string): string
  {
    "http://" + ip + "/healthz"
  }

  /** The client under key `id` is kept exactly when its probe answered with status 200. */
  predicate Survives(probe: Probe, id: string, info: ClientInfo)
  {
    probe(id, HealthUrl(info.ip)) == Status(StatusOK)
  }

  /** The registry after one pass of checkClients (no registration interleaved). */
  function Survivors(m: Clients, probe: Probe): Clients
  {
    map id | id in m && Survives(probe, id, m[id]) :: m[id]
  }

  /** The registry after one monitor cycle per probe snapshot in `probes`, in order. */
  function AfterCycles(m: Clients, probes: seq<Probe>): Clients
    decreases |probes|
  {
    if probes == [] then m else AfterCycles(Survivors(m, probes[0]), probes[1..])
  }

  /**
    Over consecutive monitor cycles with no registration in between, a client is
    still registered exactly when every cycle's probe answered 200; a surviving
    entry is the one originally registered.
   */
  lemma {:induction false} AfterCyclesExactly(m: Clients, probes: seq<Probe>, id: string)
    ensures id in AfterCycles(m, probes) <==>
              id in m && forall k :: 0 <= k < |probes| ==> Survives(probes[k], id, m[id])
    ensures id in AfterCycles(m, probes) ==> AfterCycles(m, probes)[id] == m[id]
    decreases |probes|
  {
    if probes != [] {
      var m' := Survivors(m, probes[0]);
      AfterCyclesExactly(m', probes[1..], id);
      if id in m && forall k :: 0 <= k < |probes| ==> Survives(probes[k], id, m[id]) {
        assert Survives(probes[0], id, m[id]);
        forall k | 0 <= k < |probes[1..]| ensures Survives(probes[1..][k], id, m'[id]) {
          assert probes[1..][k] == probes[k + 1];
        }
      }
      if id in AfterCycles(m, probes) {
        assert id in m' && forall k :: 0 <= k < |probes[1..]| ==> Survives(probes[1..][k], id, m'[id]);
        forall k | 0 <= k < |probes| ensures Survives(probes[k], id, m[id]) {
          if k > 0 { assert probes[k] == probes[1..][k - 1]; }
        }
      }
    }
  }

  /** A client whose probe always answers 200 stays registered indefinitely. */
  lemma AlwaysHealthyStays(m: Clients, probes: seq<Probe>, id: string)
    requires id in m
    requires forall k :: 0 <= k < |probes| ==> Survives(probes[k], id, m[id])
    ensures id in AfterCycles(m, probes) && AfterCycles(m, probes)[id] == m[id]
  {
    AfterCyclesExactly(m, probes, id);
  }

  /** One failed probe in any cycle removes the client for good (absent re-registration). */
  lemma OneFailureEvicts(m: Clients, probes: seq<Probe>, id: string, k: nat)
    requires id in m && k < |probes|
    requires !Survives(probes[k], id, m[id])
    ensures id !in AfterCycles(m, probes)
  {
    AfterCyclesExactly(m, probes, id);
  }
}
