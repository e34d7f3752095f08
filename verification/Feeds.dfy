/** What IB status codes say about the feed, as a state folded over time. Both the
    live tracker and the offline analyser are measured against it. */
module Feeds {

  const CONNECTIVITY_LOST: int := 1100
  const CONNECTIVITY_RESTORED_DATA_LOST: int := 1101
  const CONNECTIVITY_RESTORED_DATA_KEPT: int := 1102
  const REALTIME_FARM_BROKEN: int := 2103
  const REALTIME_FARM_OK: int := 2104
  const HISTORICAL_FARM_BROKEN: int := 2105
  const HISTORICAL_FARM_OK: int := 2106
  const FARM_INACTIVE: int := 2108
  const SECDEF_FARM_BROKEN: int := 2157
  const SECDEF_FARM_OK: int := 2158
  const REALTIME_BARS_RESET: int := 10225

  /** One status row: what its message says is the farm it names, and whether it is
      about market data permissions. */
  datatype StatusEvent = StatusEvent(wall: int, code: int, farm: string, permissions: bool)

  /** Whether connectivity is lost, and which real-time farms are degraded. */
  datatype FeedState = FeedState(lost: bool, farms: set<string>)

  const CLEAR: FeedState := FeedState(false, {})

  predicate Fatal(s: StatusEvent) {
    s.code == 354 || s.code == 10089 || s.code == 10189 || s.code == 10197 || (s.code == 420 && s.permissions)
  }

  predicate Relevant(code: int) {
    || code == CONNECTIVITY_LOST || code == CONNECTIVITY_RESTORED_DATA_LOST || code == CONNECTIVITY_RESTORED_DATA_KEPT
    || code == REALTIME_FARM_BROKEN || code == REALTIME_FARM_OK
  }

  predicate Restores(code: int) {
    code == CONNECTIVITY_RESTORED_DATA_LOST || code == CONNECTIVITY_RESTORED_DATA_KEPT
  }

  function ApplyStatus(f: FeedState, s: StatusEvent): FeedState {
    if s.code == CONNECTIVITY_LOST then f.(lost := true)
    else if Restores(s.code) then f.(lost := false)
    else if s.code == REALTIME_FARM_BROKEN then f.(farms := f.farms + {s.farm})
    else if s.code == REALTIME_FARM_OK then f.(farms := f.farms - {s.farm})
    else f
  }

  function FeedAfter(statuses: seq<StatusEvent>): FeedState {
    if statuses == [] then CLEAR
    else ApplyStatus(FeedAfter(statuses[..|statuses| - 1]), statuses[|statuses| - 1])
  }

  predicate Ordered(statuses: seq<StatusEvent>) {
    forall i, j :: 0 <= i < j < |statuses| ==> statuses[i].wall <= statuses[j].wall
  }

  /** The state at an instant: every status up to and including it. */
  function StateAt(statuses: seq<StatusEvent>, t: int): FeedState {
    if statuses == [] then CLEAR
    else
      var last := statuses[|statuses| - 1];
      var before := StateAt(statuses[..|statuses| - 1], t);
      if last.wall <= t then ApplyStatus(before, last) else before
  }

  /** After the last status of a list, the state is the fold over all of it. */
  lemma {:induction false} StateAfterAll(statuses: seq<StatusEvent>, t: int)
    requires forall i :: 0 <= i < |statuses| ==> statuses[i].wall <= t
    ensures StateAt(statuses, t) == FeedAfter(statuses)
  {
    if statuses != [] {
      StateAfterAll(statuses[..|statuses| - 1], t);
    }
  }

  /** Statuses after an instant do not matter to it. */
  lemma {:induction false} StateIgnoresLater(statuses: seq<StatusEvent>, k: nat, t: int)
    requires k <= |statuses|
    requires forall i :: k <= i < |statuses| ==> statuses[i].wall > t
    ensures StateAt(statuses, t) == StateAt(statuses[..k], t)
  {
    if k == |statuses| {
      assert statuses[..k] == statuses;
    } else {
      var m := |statuses| - 1;
      assert statuses[..m][..k] == statuses[..k];
      StateIgnoresLater(statuses[..m], k, t);
    }
  }

  /** Between two relevant statuses the state does not change. */
  lemma {:induction false} StateIsSteady(statuses: seq<StatusEvent>, t: int, u: int)
    requires t <= u
    requires forall i :: 0 <= i < |statuses| && t < statuses[i].wall <= u ==> !Relevant(statuses[i].code)
    ensures StateAt(statuses, t) == StateAt(statuses, u)
  {
    if statuses != [] {
      var m := |statuses| - 1;
      assert forall i :: 0 <= i < m ==> statuses[..m][i] == statuses[i];
      StateIsSteady(statuses[..m], t, u);
    }
  }
}
