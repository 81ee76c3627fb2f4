/**
  The in-memory alert log `activeAlerts` and the two HTTP handlers that act on it:
  `/_alerts`, which renumbers every alert's Id to its position before answering, and
  `/_dismiss_alert`, which removes the alert at a positional index.
 */
module AlertLog {
  import opened Wrappers
  import Strconv

  /** ActiveAlerts: the Id is only meaningful right after a renumbering read. */
  datatype Alert = Alert(id: int, alertType: string, clientId: string, timestamp: string, message: string)

  /** The log as `/_alerts` leaves it: every Id set to its index, nothing else touched. */
  function Renumbered(log: seq<Alert>): (r: seq<Alert>)
    ensures |r| == |log|
    ensures forall k :: 0 <= k < |r| ==> r[k].id == k
    ensures forall k :: 0 <= k < |r| ==> r[k].(id := log[k].id) == log[k]
  {
    seq(|log|, k requires 0 <= k < |log| => log[k].(id := k))
  }

  /** Reading twice gives what reading once gives. */
  lemma RenumberedIdempotent(log: seq<Alert>)
    ensures Renumbered(Renumbered(log)) == Renumbered(log)
  {
  }

  const StatusOK: int := 200
  const StatusBadRequest: int := 400
  const MissingIndex := "Missing index parameter"
  const InvalidIndex := "Invalid index parameter"

  /** What `/_dismiss_alert` decides for a given `index` query value ("" when absent). */
  datatype Decision = Rejected(reason: string) | Remove(index: nat)

  function Decide(log: seq<Alert>, indexParam: string): (d: Decision)
    ensures d.Rejected? ==> d.reason == MissingIndex || d.reason == InvalidIndex
    ensures d.Rejected? && d.reason == MissingIndex <==> indexParam == ""
  {
    if indexParam == "" then Rejected(MissingIndex)
    else match Strconv.Atoi(indexParam)
      case None => Rejected(InvalidIndex)
      case Some(i) => if i < 0 || i >= |log| then Rejected(InvalidIndex) else Remove(i)
  }

  /** A dismissal goes through exactly when the parameter parses to an index of the log. */
  lemma DecideRemovesExactlyValidIndices(log: seq<Alert>, indexParam: string)
    ensures Decide(log, indexParam).Remove? <==>
              Strconv.Atoi(indexParam).Some? && 0 <= Strconv.Atoi(indexParam).value < |log|
    ensures Decide(log, indexParam).Remove? ==> Decide(log, indexParam).index == Strconv.Atoi(indexParam).value
  {
  }

  /** `append(a[:i], a[i+1:]...)`. */
  function RemoveAt(log: seq<Alert>, i: nat): (r: seq<Alert>)
    requires i < |log|
    ensures |r| == |log| - 1
    ensures forall k :: 0 <= k < i ==> r[k] == log[k]
    ensures forall k :: i <= k < |r| ==> r[k] == log[k + 1]
    ensures multiset(r) + multiset{log[i]} == multiset(log)
  {
    assert log == log[..i] + [log[i]] + log[i + 1..];
    log[..i] + log[i + 1..]
  }

  /** After dismissing position i, the next read shows the later alerts one position lower. */
  lemma DismissShiftsLaterIds(log: seq<Alert>, i: nat, k: nat)
    requires i <= k < |log| - 1
    ensures Renumbered(RemoveAt(log, i))[k] == log[k + 1].(id := k)
  {
  }
}
