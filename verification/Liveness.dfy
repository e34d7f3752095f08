/** Live feed health: what the evidence means at each poll, and how polls become
    bracketed incident records. Times are monotonic seconds. */
module Liveness {
  import opened Wrappers
  import opened Feeds

  datatype Kind = FEED_OUTAGE | EXPECTED_SILENCE | GAP_SUSPECTED

  datatype Action = CONTINUE | WAIT | RECOVER_SUBSCRIPTION

  datatype Hint = BARS_ONLY | ALL_MARKET_STREAMS

  datatype Silence = InstrumentHalted(tick: int) | Disconnected | Calendar(reason: string) | FarmsDown(farms: map<string, string>)

  datatype Pending = Pending(kind: Kind, hint: Option<Hint>)

  /** One assessment. */
  datatype Assessment = Assessment(
    action: Action,
    heartbeatAge: Option<real>,
    heartbeatLost: bool,
    silence: Option<Silence>,
    kind: Option<Kind>,
    heartbeatLast: Option<real>,
    hint: Option<Hint>)

  function MaxReal(a: real, b: real): real {
    if a < b then b else a
  }

  // ---- incidents -----------------------------------------------------------

  datatype Signature = Signature(action: Action, silence: Option<Silence>)

  datatype Incident = Incident(id: nat, kind: Kind, started: real, lastEmitted: real, signature: Signature, maxAge: Option<real>)

  datatype Phase = START | UPDATE | CHECKPOINT | END

  datatype Marker = Marker(phase: Phase, id: nat, kind: Kind, duration: real)

  /** Where a stream of markers stands: between incidents, inside one, or ill-formed. */
  datatype Standing = Closed(last: nat) | Opened(id: nat, kind: Kind) | Broken

  function Next(s: Standing, m: Marker): Standing {
    match m.phase
    case START => if s.Closed? && m.id == s.last + 1 then Opened(m.id, m.kind) else Broken
    case UPDATE => if s == Opened(m.id, m.kind) then s else Broken
    case CHECKPOINT => if s == Opened(m.id, m.kind) then s else Broken
    case END => if s == Opened(m.id, m.kind) then Closed(m.id) else Broken
  }

  /** Incidents are START (UPDATE | CHECKPOINT)* END, numbered from one. */
  function Standings(trace: seq<Marker>): Standing {
    if trace == [] then Closed(0) else Next(Standings(trace[..|trace| - 1]), trace[|trace| - 1])
  }

  function CountOf(trace: seq<Marker>, phase: Phase, kind: Kind): nat {
    if trace == [] then 0
    else CountOf(trace[..|trace| - 1], phase, kind) +
         (if trace[|trace| - 1].phase == phase && trace[|trace| - 1].kind == kind then 1 else 0)
  }

  /** The duration of all completed incidents. */
  function Completed(trace: seq<Marker>): real {
    if trace == [] then 0.0
    else Completed(trace[..|trace| - 1]) + (if trace[|trace| - 1].phase.END? then trace[|trace| - 1].duration else 0.0)
  }

  /** The duration, in all and at most, of the completed incidents of one kind. */
  function CompletedOf(trace: seq<Marker>, kind: Kind): real {
    if trace == [] then 0.0
    else CompletedOf(trace[..|trace| - 1], kind) +
         (if trace[|trace| - 1].phase.END? && trace[|trace| - 1].kind == kind then trace[|trace| - 1].duration else 0.0)
  }

  function LongestOf(trace: seq<Marker>, kind: Kind): real {
    if trace == [] then 0.0
    else
      var before := LongestOf(trace[..|trace| - 1], kind);
      if trace[|trace| - 1].phase.END? && trace[|trace| - 1].kind == kind
      then MaxReal(before, trace[|trace| - 1].duration) else before
  }

  lemma {:induction false} KindsAddUp(trace: seq<Marker>)
    ensures Completed(trace) ==
            CompletedOf(trace, FEED_OUTAGE) + CompletedOf(trace, EXPECTED_SILENCE) + CompletedOf(trace, GAP_SUSPECTED)
  {
    if trace != [] {
      KindsAddUp(trace[..|trace| - 1]);
    }
  }

  /** Checkpoints since the last START. */
  function Checkpoints(trace: seq<Marker>): nat {
    if trace == [] then 0
    else
      match trace[|trace| - 1].phase
      case START => 0
      case CHECKPOINT => Checkpoints(trace[..|trace| - 1]) + 1
      case _ => Checkpoints(trace[..|trace| - 1])
  }

  /** Every completed incident was long enough for its checkpoints. */
  predicate CheckpointsFit(trace: seq<Marker>, seconds: real) {
    trace == [] ||
    (CheckpointsFit(trace[..|trace| - 1], seconds) &&
     (trace[|trace| - 1].phase.END? ==>
        (Checkpoints(trace[..|trace| - 1]) as real) * seconds <= trace[|trace| - 1].duration))
  }

  lemma TraceSnoc(trace: seq<Marker>, m: Marker, seconds: real)
    ensures var t := trace + [m];
      && Standings(t) == Next(Standings(trace), m)
      && (forall p, k :: CountOf(t, p, k) == CountOf(trace, p, k) + (if m.phase == p && m.kind == k then 1 else 0))
      && Completed(t) == Completed(trace) + (if m.phase.END? then m.duration else 0.0)
      && (forall k :: CompletedOf(t, k) == CompletedOf(trace, k) + (if m.phase.END? && m.kind == k then m.duration else 0.0))
      && (forall k :: LongestOf(t, k) ==
            (if m.phase.END? && m.kind == k then MaxReal(LongestOf(trace, k), m.duration) else LongestOf(trace, k)))
      && Checkpoints(t) == (if m.phase.START? then 0
                            else if m.phase.CHECKPOINT? then Checkpoints(trace) + 1 else Checkpoints(trace))
      && (CheckpointsFit(t, seconds) <==>
            (CheckpointsFit(trace, seconds) && (m.phase.END? ==> (Checkpoints(trace) as real) * seconds <= m.duration)))
  {
    assert (trace + [m])[..|trace|] == trace;
  }

  function Tally(m: map<Kind, nat>, k: Kind): nat {
    if k in m then m[k] else 0
  }

  function Seconds(m: map<Kind, real>, k: Kind): real {
    if k in m then m[k] else 0.0
  }

  /** The markers so far, and the counters, say the same as the open incident. */
  ghost predicate Consistent(trace: seq<Marker>, open: Option<Incident>, nextId: nat, incidents: map<Kind, nat>,
                             completed: map<Kind, nat>, totals: map<Kind, real>, longest: map<Kind, real>)
  {
    && Standings(trace) == (if open.Some? then Opened(open.value.id, open.value.kind) else Closed(nextId))
    && (open.Some? ==> open.value.id == nextId)
    && (forall k :: Tally(incidents, k) == CountOf(trace, START, k))
    && (forall k :: Tally(completed, k) == CountOf(trace, END, k))
    && (forall k :: CountOf(trace, START, k) - CountOf(trace, END, k) == if open.Some? && open.value.kind == k then 1 else 0)
    && (forall k :: Seconds(totals, k) == CompletedOf(trace, k))
    && (forall k :: Seconds(longest, k) == LongestOf(trace, k))
  }

  /** While time goes forward, incidents do not overlap and checkpoints are spaced. */
  ghost predicate Spaced(trace: seq<Marker>, open: Option<Incident>, since: real, latest: real, seconds: real) {
    && since <= latest
    && CheckpointsFit(trace, seconds)
    && (open.None? ==> Completed(trace) <= latest - since)
    && (open.Some? ==>
          && Completed(trace) <= open.value.started - since
          && open.value.started <= open.value.lastEmitted <= latest
          && (Checkpoints(trace) as real) * seconds <= open.value.lastEmitted - open.value.started)
  }

  lemma EndKeeps(trace: seq<Marker>, o: Incident, nextId: nat, incidents: map<Kind, nat>, completed: map<Kind, nat>,
                 totals: map<Kind, real>, longest: map<Kind, real>, duration: real)
    requires Consistent(trace, Some(o), nextId, incidents, completed, totals, longest)
    ensures Consistent(trace + [Marker(END, o.id, o.kind, duration)], None, nextId, incidents,
                       completed[o.kind := Tally(completed, o.kind) + 1],
                       totals[o.kind := Seconds(totals, o.kind) + duration],
                       longest[o.kind := MaxReal(Seconds(longest, o.kind), duration)])
  {
    TraceSnoc(trace, Marker(END, o.id, o.kind, duration), 1.0);
    hide Standings, CountOf, Completed, CompletedOf, LongestOf, Checkpoints, CheckpointsFit;
  }

  lemma StartKeeps(trace: seq<Marker>, o: Incident, nextId: nat, incidents: map<Kind, nat>, completed: map<Kind, nat>,
                   totals: map<Kind, real>, longest: map<Kind, real>)
    requires Consistent(trace, None, nextId, incidents, completed, totals, longest) && o.id == nextId + 1
    ensures Consistent(trace + [Marker(START, o.id, o.kind, 0.0)], Some(o), o.id,
                       incidents[o.kind := Tally(incidents, o.kind) + 1], completed, totals, longest)
  {
    TraceSnoc(trace, Marker(START, o.id, o.kind, 0.0), 1.0);
    hide Standings, CountOf, Completed, CompletedOf, LongestOf, Checkpoints, CheckpointsFit;
  }

  lemma NoteKeeps(trace: seq<Marker>, o: Incident, o': Incident, phase: Phase, duration: real, nextId: nat,
                  incidents: map<Kind, nat>, completed: map<Kind, nat>, totals: map<Kind, real>, longest: map<Kind, real>)
    requires Consistent(trace, Some(o), nextId, incidents, completed, totals, longest)
    requires o'.id == o.id && o'.kind == o.kind && (phase.UPDATE? || phase.CHECKPOINT?)
    ensures Consistent(trace + [Marker(phase, o.id, o.kind, duration)], Some(o'), nextId, incidents, completed, totals, longest)
    ensures Consistent(trace, Some(o'), nextId, incidents, completed, totals, longest)
  {
    TraceSnoc(trace, Marker(phase, o.id, o.kind, duration), 1.0);
    hide Standings, CountOf, Completed, CompletedOf, LongestOf, Checkpoints, CheckpointsFit;
  }

  lemma EndSpaced(trace: seq<Marker>, o: Incident, since: real, latest: real, now: real, seconds: real)
    requires Spaced(trace, Some(o), since, latest, seconds) && latest <= now
    ensures Spaced(trace + [Marker(END, o.id, o.kind, MaxReal(0.0, now - o.started))], None, since, now, seconds)
  {
    TraceSnoc(trace, Marker(END, o.id, o.kind, MaxReal(0.0, now - o.started)), seconds);
    hide Standings, CountOf, Completed, CompletedOf, LongestOf, Checkpoints, CheckpointsFit;
  }

  lemma StartSpaced(trace: seq<Marker>, o: Incident, since: real, latest: real, seconds: real)
    requires Spaced(trace, None, since, latest, seconds) && latest <= o.started == o.lastEmitted
    ensures Spaced(trace + [Marker(START, o.id, o.kind, 0.0)], Some(o), since, o.started, seconds)
  {
    TraceSnoc(trace, Marker(START, o.id, o.kind, 0.0), seconds);
    hide Standings, CountOf, Completed, CompletedOf, LongestOf, Checkpoints, CheckpointsFit;
  }

  /** An update may be emitted at any time, a checkpoint only when one is due. */
  lemma NoteSpaced(trace: seq<Marker>, o: Incident, o': Incident, phase: Phase, duration: real, since: real,
                   latest: real, now: real, seconds: real)
    requires Spaced(trace, Some(o), since, latest, seconds) && latest <= now
    requires o' == o.(lastEmitted := now, maxAge := o'.maxAge, signature := o'.signature)
    requires phase.UPDATE? || (phase.CHECKPOINT? && now - o.lastEmitted >= seconds)
    ensures Spaced(trace + [Marker(phase, o.id, o.kind, duration)], Some(o'), since, now, seconds)
  {
    TraceSnoc(trace, Marker(phase, o.id, o.kind, duration), seconds);
    hide Standings, CountOf, Completed, CompletedOf, LongestOf, Checkpoints, CheckpointsFit;
  }

  lemma TimeSpaced(trace: seq<Marker>, open: Option<Incident>, since: real, latest: real, now: real, seconds: real)
    requires Spaced(trace, open, since, latest, seconds) && latest <= now
    ensures Spaced(trace, open, since, now, seconds)
    ensures open.Some? ==> forall age, sig ::
              Spaced(trace, Some(open.value.(maxAge := age, signature := sig)), since, now, seconds)
  {
  }

  class LivenessIncidentTracker {
    const checkpointSeconds: real
    var open: Option<Incident>
    var nextId: nat
    var incidents: map<Kind, nat>
    var completed: map<Kind, nat>
    var totalSeconds: map<Kind, real>
    var maxSeconds: map<Kind, real>
    ghost var trace: seq<Marker>       // every marker ever returned
    ghost var since: real              // the first observation
    ghost var latest: real             // the latest
    ghost var forward: bool            // time never went back

    ghost predicate Valid()
      reads this
    {
      checkpointSeconds > 0.0 && Consistent(trace, open, nextId, incidents, completed, totalSeconds, maxSeconds)
    }

    ghost predicate Timed()
      reads this
    {
      forward ==> Spaced(trace, open, since, latest, checkpointSeconds)
    }

    constructor (checkpointSeconds: real, ghost now: real)
      requires checkpointSeconds > 0.0
      ensures Valid() && Timed() && trace == [] && forward && since == now && latest == now
      ensures this.checkpointSeconds == checkpointSeconds
    {
      this.checkpointSeconds := checkpointSeconds;
      open, nextId := None, 0;
      incidents, completed, totalSeconds, maxSeconds := map[], map[], map[], map[];
      trace, since, latest, forward := [], now, now, true;
    }

    /** Close the open incident. */
    method Finish(now: real) returns (marker: Marker)
      requires Valid() && Timed() && open.Some? && (forward ==> latest <= now)
      modifies `open, `completed, `totalSeconds, `maxSeconds, `trace, `latest
      ensures Valid() && Timed() && open.None?
      ensures trace == old(trace) + [marker] && latest == now
      ensures marker == Marker(END, old(open).value.id, old(open).value.kind, MaxReal(0.0, now - old(open).value.started))
    {
      hide Consistent, Spaced;
      var incident := open.value;
      var duration := MaxReal(0.0, now - incident.started);
      EndKeeps(trace, incident, nextId, incidents, completed, totalSeconds, maxSeconds, duration);
      if forward {
        EndSpaced(trace, incident, since, latest, now, checkpointSeconds);
      }
      completed := completed[incident.kind := Tally(completed, incident.kind) + 1];
      totalSeconds := totalSeconds[incident.kind := Seconds(totalSeconds, incident.kind) + duration];
      maxSeconds := maxSeconds[incident.kind := MaxReal(Seconds(maxSeconds, incident.kind), duration)];
      marker := Marker(END, incident.id, incident.kind, duration);
      trace := trace + [marker];
      open := None;
      latest := now;
    }

    /** Open the next incident. */
    method Begin(kind: Kind, signature: Signature, age: Option<real>, now: real) returns (marker: Marker)
      requires Valid() && Timed() && open.None? && (forward ==> latest <= now)
      modifies `open, `nextId, `incidents, `trace, `latest
      ensures Valid() && Timed()
      ensures trace == old(trace) + [marker] && latest == now && nextId == old(nextId) + 1
      ensures marker == Marker(START, nextId, kind, 0.0)
      ensures open == Some(Incident(nextId, kind, now, now, signature, age))
    {
      hide Consistent, Spaced;
      var incident := Incident(nextId + 1, kind, now, now, signature, age);
      StartKeeps(trace, incident, nextId, incidents, completed, totalSeconds, maxSeconds);
      if forward {
        StartSpaced(trace, incident, since, latest, checkpointSeconds);
      }
      nextId := nextId + 1;
      open := Some(incident);
      incidents := incidents[kind := Tally(incidents, kind) + 1];
      marker := Marker(START, nextId, kind, 0.0);
      trace := trace + [marker];
      latest := now;
    }

    /** A material change or a due checkpoint of the open incident. */
    method Continue(signature: Signature, age: Option<real>, now: real) returns (markers: seq<Marker>)
      requires Valid() && Timed() && open.Some? && (forward ==> latest <= now)
      modifies `open, `trace, `latest
      ensures Valid() && Timed() && trace == old(trace) + markers && latest == now
      ensures open.Some? && open.value.id == old(open).value.id && open.value.kind == old(open).value.kind
              && open.value.started == old(open).value.started && open.value.signature == signature
      ensures |markers| <= 1
      ensures markers != [] <==> signature != old(open).value.signature
                                 || now - old(open).value.lastEmitted >= checkpointSeconds
    {
      hide Consistent, Spaced;
      ghost var before := open.value;
      var incident := open.value.(maxAge := MaxAge(open.value.maxAge, age));
      var duration := MaxReal(0.0, now - incident.started);
      var changed := signature != incident.signature;
      if changed || now - incident.lastEmitted >= checkpointSeconds {
        incident := incident.(signature := signature, lastEmitted := now);
        var phase := if changed then UPDATE else CHECKPOINT;
        markers := [Marker(phase, incident.id, incident.kind, duration)];
        NoteKeeps(trace, before, incident, phase, duration, nextId, incidents, completed, totalSeconds, maxSeconds);
        if forward {
          NoteSpaced(trace, before, incident, phase, duration, since, latest, now, checkpointSeconds);
        }
      } else {
        markers := [];
        assert trace + [] == trace;
        NoteKeeps(trace, before, incident, UPDATE, duration, nextId, incidents, completed, totalSeconds, maxSeconds);
        if forward {
          TimeSpaced(trace, open, since, latest, now, checkpointSeconds);
        }
      }
      open := Some(incident);
      trace := trace + markers;
      latest := now;
    }

    static function MaxAge(current: Option<real>, candidate: Option<real>): Option<real> {
      if candidate.None? then current
      else if current.None? then candidate
      else Some(MaxReal(current.value, candidate.value))
    }

    /** A poll that changes nothing but the oldest heartbeat of the open incident. */
    method KeepOpen(age: Option<real>, now: real)
      requires Valid() && Timed() && open.Some? && (forward ==> latest <= now)
      modifies `open, `latest
      ensures Valid() && Timed() && latest == now
      ensures open == Some(old(open).value.(maxAge := MaxAge(old(open).value.maxAge, age)))
    {
      hide Consistent, Spaced;
      var incident := open.value.(maxAge := MaxAge(open.value.maxAge, age));
      NoteKeeps(trace, open.value, incident, UPDATE, 0.0, nextId, incidents, completed, totalSeconds, maxSeconds);
      if forward {
        TimeSpaced(trace, open, since, latest, now, checkpointSeconds);
      }
      open := Some(incident);
      latest := now;
    }

    /** A poll between incidents. */
    ghost method Idle(now: real)
      requires Valid() && Timed() && (forward ==> latest <= now)
      modifies `latest
      ensures Valid() && Timed() && latest == now
    {
      if forward {
        TimeSpaced(trace, open, since, latest, now, checkpointSeconds);
      }
      latest := now;
    }

    /** No recovery without a BAR at or after the start of the incident. */
    predicate Unproven(state: Assessment)
      reads this
    {
      open.Some? && state.kind.None? && (state.heartbeatLast.None? || state.heartbeatLast.value < open.value.started)
    }

    /** Turn one assessment into zero or more lifecycle markers. */
    method Observe(state: Assessment, now: real) returns (markers: seq<Marker>)
      requires Valid() && Timed()
      modifies this
      ensures Valid() && Timed() && trace == old(trace) + markers
      ensures latest == now && forward == (old(forward) && old(latest) <= now) && since == old(since)
      ensures old(Unproven(state)) ==>
                markers == [] && open.Some? && open == Some(old(open).value.(maxAge := open.value.maxAge))
      ensures old(open).Some? && state.kind.None? && !old(Unproven(state)) ==>
                open.None? && markers ==
                  [Marker(END, old(open).value.id, old(open).value.kind, MaxReal(0.0, now - old(open).value.started))]
      ensures state.kind.Some? ==> open.Some? && open.value.kind == state.kind.value
      ensures state.kind.None? && old(open).None? ==> markers == [] && open.None?
      ensures old(open).Some? && state.kind == Some(old(open).value.kind) ==>
                open.value.id == old(open).value.id && |markers| <= 1
      ensures state.kind.Some? && (old(open).None? || old(open).value.kind != state.kind.value) ==>
                open.value.id == old(nextId) + 1
    {
      hide Consistent, Spaced;
      forward := forward && latest <= now;
      markers := [];
      if Unproven(state) {
        KeepOpen(state.heartbeatAge, now);
        assert trace + [] == trace;
        return;
      }
      if open.Some? && Some(open.value.kind) != state.kind {
        var ended := Finish(now);
        markers := [ended];
      }
      if state.kind.None? {
        Idle(now);
        assert old(trace) + [] == old(trace);
        return;
      }
      var signature := Signature(state.action, state.silence);
      if open.None? {
        var begun := Begin(state.kind.value, signature, state.heartbeatAge, now);
        assert old(trace) + (markers + [begun]) == old(trace) + markers + [begun];
        markers := markers + [begun];
        return;
      }
      markers := Continue(signature, state.heartbeatAge, now);
    }

    /** A clean boundary, such as the end of the session. */
    method Close(now: real) returns (markers: seq<Marker>)
      requires Valid() && Timed()
      modifies this
      ensures Valid() && Timed() && open.None? && trace == old(trace) + markers
      ensures markers == if old(open).None? then []
                         else [Marker(END, old(open).value.id, old(open).value.kind, MaxReal(0.0, now - old(open).value.started))]
      ensures forward == (old(forward) && old(latest) <= now)
    {
      hide Consistent, Spaced;
      forward := forward && latest <= now;
      if open.None? {
        Idle(now);
        assert trace + [] == trace;
        return [];
      }
      var ended := Finish(now);
      return [ended];
    }
  }

  // ---- a whole run of polls ----------------------------------------------------

  datatype Reading = Reading(state: Assessment, at: real)

  predicate Forward(polls: seq<Reading>) {
    forall i, j :: 0 <= i <= j < |polls| ==> polls[i].at <= polls[j].at
  }

  function OpenFor(open: Option<Incident>, now: real): real {
    if open.Some? then now - open.value.started else 0.0
  }

  /** The incidents of any sequence of polls whose time does not go back: the markers
      are bracketed and numbered; of each kind one more was started than completed
      exactly while it is open; and incidents do not overlap, so all of them together
      last no longer than the polls, each at least its checkpoints. */
  method Track(polls: seq<Reading>, checkpointSeconds: real) returns (markers: seq<Marker>, open: Option<Incident>)
    requires polls != [] && Forward(polls) && checkpointSeconds > 0.0
    ensures open.Some? ==> Standings(markers) == Opened(open.value.id, open.value.kind)
    ensures open.None? ==> Standings(markers).Closed?
    ensures forall k :: CountOf(markers, START, k) - CountOf(markers, END, k)
                        == if open.Some? && open.value.kind == k then 1 else 0
    ensures var now := polls[|polls| - 1].at;
      && Completed(markers) + OpenFor(open, now) <= now - polls[0].at
      && (open.Some? ==> (Checkpoints(markers) as real) * checkpointSeconds <= OpenFor(open, now))
    ensures CheckpointsFit(markers, checkpointSeconds)
  {
    hide Standings, CountOf, Completed, CompletedOf, LongestOf, Checkpoints, CheckpointsFit;
    var tracker := new LivenessIncidentTracker(checkpointSeconds, polls[0].at);
    markers := [];
    for k := 0 to |polls|
      invariant tracker.Valid() && tracker.Timed() && fresh(tracker)
      invariant tracker.checkpointSeconds == checkpointSeconds && tracker.trace == markers
      invariant tracker.forward && tracker.since == polls[0].at
      invariant tracker.latest == if k == 0 then polls[0].at else polls[k - 1].at
    {
      var more := tracker.Observe(polls[k].state, polls[k].at);
      markers := markers + more;
    }
    open := tracker.open;
  }

  // ---- the question ----------------------------------------------------------

  const BAR_PERIOD: real := 5.0

  class MarketLiveness {
    const barTimeout: real
    var started: Option<real>
    var lastBar: Option<real>
    var lastEvent: map<string, real>             // the event-driven streams
    var halted: Option<int>
    var lost: bool
    var farms: map<string, string>
    var advisories: map<string, string>
    var calendarSilence: Option<string>
    var pending: Option<Pending>
    var transport: bool
    var suppressed: nat
    var heartbeatLosses: nat

    constructor (barTimeout: real)
      requires barTimeout >= 2.0 * BAR_PERIOD
      ensures Feed() == CLEAR && started.None? && pending.None? && halted.None? && calendarSilence.None?
      ensures this.barTimeout == barTimeout
    {
      this.barTimeout := barTimeout;
      started, lastBar, lastEvent, halted := None, None, map[], None;
      lost, farms, advisories, calendarSilence, pending := false, map[], map[], None, None;
      transport, suppressed, heartbeatLosses := false, 0, 0;
    }

    /** What the statuses so far say about the feed. */
    function Feed(): FeedState
      reads this
    {
      FeedState(lost, farms.Keys)
    }

    method SubscriptionStarted(now: real)
      modifies this
      ensures Feed() == old(Feed()) && started == Some(now) && lastBar.None? && pending.None?
    {
      started, lastBar, lastEvent, pending, transport := Some(now), None, map[], None, true;
    }

    /** Only BAR stamps are a heartbeat. */
    method NoteBar(now: real)
      modifies `lastBar, `transport
      ensures lastBar == Some(now)
    {
      lastBar, transport := Some(now), true;
    }

    method NoteEvent(stream: string, now: real)
      modifies `lastEvent, `transport
      ensures lastEvent == old(lastEvent)[stream := now]
    {
      lastEvent, transport := lastEvent[stream := now], true;
    }

    method NoteHalted(tick: int)
      modifies `halted
      ensures halted == Some(tick)
    {
      halted := Some(tick);
    }

    /** Classify one status by the data domain it describes. Farms of other domains
        are recorded and change nothing about the feed. */
    method NoteStatus(s: StatusEvent, detail: string)
      modifies `lost, `farms, `advisories, `pending, `transport
      ensures Feed() == ApplyStatus(old(Feed()), s)
      ensures !Relevant(s.code) && s.code != REALTIME_BARS_RESET ==> pending == old(pending) && Feed() == old(Feed())
      ensures s.code == CONNECTIVITY_RESTORED_DATA_LOST ==> pending == Some(Pending(FEED_OUTAGE, Some(ALL_MARKET_STREAMS)))
      ensures s.code == CONNECTIVITY_RESTORED_DATA_KEPT ==> pending.None?
      ensures s.code == REALTIME_BARS_RESET ==> pending == Some(Pending(GAP_SUSPECTED, Some(BARS_ONLY))) && Feed() == old(Feed())
    {
      transport := true;
      if s.code == CONNECTIVITY_LOST {
        lost := true;
      } else if s.code == CONNECTIVITY_RESTORED_DATA_LOST {
        lost := false;
        pending := Some(Pending(FEED_OUTAGE, Some(ALL_MARKET_STREAMS)));
      } else if s.code == CONNECTIVITY_RESTORED_DATA_KEPT {
        lost := false;
        pending := None;
      } else if s.code == REALTIME_BARS_RESET {
        pending := Some(Pending(GAP_SUSPECTED, Some(BARS_ONLY)));
      } else if s.code == REALTIME_FARM_BROKEN {
        farms := farms[s.farm := detail];
      } else if s.code == REALTIME_FARM_OK {
        farms := farms - {s.farm};
      } else if s.code == HISTORICAL_FARM_BROKEN || s.code == HISTORICAL_FARM_OK {
        advisories := advisories["historical" := detail];
      } else if s.code == SECDEF_FARM_BROKEN || s.code == SECDEF_FARM_OK {
        advisories := advisories["security_definition" := detail];
      } else if s.code == FARM_INACTIVE {
        advisories := advisories["inactive" := detail];
      }
    }

    /** Nothing at all arrived: the transport itself is suspect. */
    method NoteTransportIdle()
      modifies `transport, `pending
      ensures pending == Some(Pending(GAP_SUSPECTED, None)) && !transport
    {
      transport, pending := false, Some(Pending(GAP_SUSPECTED, None));
    }

    method CalendarSilence(reason: Option<string>)
      modifies `calendarSilence
      ensures calendarSilence == reason
    {
      calendarSilence := reason;
    }

    /** Why silence is legitimate right now: a halt outranks a lost connection, which
        outranks the calendar. */
    function ExpectedSilence(): Option<(Kind, Silence)>
      reads this
    {
      if halted == Some(1) || halted == Some(2) then Some((EXPECTED_SILENCE, InstrumentHalted(halted.value)))
      else if lost then Some((FEED_OUTAGE, Disconnected))
      else if calendarSilence.Some? && calendarSilence.value != "" then Some((EXPECTED_SILENCE, Calendar(calendarSilence.value)))
      else None
    }

    /** Seconds since the last BAR, or since the subscription. */
    function HeartbeatAge(now: real): Option<real>
      reads this
    {
      if started.None? then None
      else Some(MaxReal(0.0, now - (if lastBar.Some? then lastBar.value else started.value)))
    }

    /** Combine connection, BAR cadence, and farm evidence. Quiet quotes alone never
        make an incident, a degraded farm alone never does, and a recovery asked for
        by IB is handed out once. */
    method Assess(now: real) returns (r: Assessment)
      modifies `pending, `suppressed, `heartbeatLosses
      ensures old(started).None? ==> r.action.CONTINUE? && r.kind.None? && pending == old(pending)
      ensures r.kind.Some? ==>
                || old(ExpectedSilence()).Some?
                || old(pending).Some?
                || (old(HeartbeatAge(now)).Some? && old(HeartbeatAge(now)).value > barTimeout)
      ensures r.kind.None? <==> r.action.CONTINUE?
      ensures r.action.RECOVER_SUBSCRIPTION? ==> old(ExpectedSilence()).None?
      ensures r.kind == Some(FEED_OUTAGE) && old(pending).None? ==> lost || farms.Keys != {}
      ensures started.Some? && lost && halted != Some(1) && halted != Some(2) ==> r.kind == Some(FEED_OUTAGE) && r.action.WAIT?
      ensures pending == old(pending)
           || (pending.None? && r.action.RECOVER_SUBSCRIPTION? && r.kind == Some(old(pending).value.kind))
      ensures started.Some? && old(pending).Some? && old(ExpectedSilence()).None? ==>
                pending.None? && r.hint == old(pending).value.hint
      ensures suppressed == old(suppressed) + (if r.action.WAIT? then 1 else 0)
      ensures heartbeatLosses == old(heartbeatLosses) +
                (if r.heartbeatLost && old(ExpectedSilence()).None? then 1 else 0)
      ensures r.heartbeatLast == if started.Some? then lastBar else None
    {
      if started.None? {
        return Assessment(CONTINUE, None, false, None, None, None, None);
      }
      var age := HeartbeatAge(now);
      var late := age.value > barTimeout;
      var silence := ExpectedSilence();
      if silence.Some? {
        suppressed := suppressed + 1;
        return Assessment(WAIT, age, late, Some(silence.value.1), Some(silence.value.0), lastBar, None);
      }
      if pending.Some? {
        var recover := pending.value;
        pending := None;
        return Assessment(RECOVER_SUBSCRIPTION, age, false, None, Some(recover.kind), lastBar, recover.hint);
      }
      if late {
        heartbeatLosses := heartbeatLosses + 1;
        if farms.Keys != {} {
          suppressed := suppressed + 1;
          return Assessment(WAIT, age, true, Some(FarmsDown(farms)), Some(FEED_OUTAGE), lastBar, None);
        }
        return Assessment(RECOVER_SUBSCRIPTION, age, true, None, Some(GAP_SUSPECTED), lastBar, None);
      }
      return Assessment(CONTINUE, age, false, None, None, lastBar, None);
    }
  }

  /** Live and offline agree: after any statuses, in the order they were recorded, the
      live tracker holds exactly the state the analyser finds at that time. */
  method Follow(live: MarketLiveness, statuses: seq<StatusEvent>, details: seq<string>, ghost now: int)
    requires live.Feed() == CLEAR && |details| == |statuses|
    requires forall k :: 0 <= k < |statuses| ==> statuses[k].wall <= now
    modifies live
    ensures live.Feed() == StateAt(statuses, now)
  {
    for k := 0 to |statuses|
      invariant live.Feed() == FeedAfter(statuses[..k])
    {
      assert statuses[..k + 1][..k] == statuses[..k];
      live.NoteStatus(statuses[k], details[k]);
    }
    assert statuses[..|statuses|] == statuses;
    StateAfterAll(statuses, now);
  }

  /** One poll of the recorder loop. */
  method Poll(live: MarketLiveness, tracker: LivenessIncidentTracker, now: real) returns (r: Assessment, markers: seq<Marker>)
    requires tracker.Valid() && tracker.Timed()
    modifies live, tracker
    ensures tracker.Valid() && tracker.Timed() && tracker.trace == old(tracker.trace) + markers
    ensures r.kind.Some? ==> tracker.open.Some? && tracker.open.value.kind == r.kind.value
    ensures live.started.Some? && live.lost && live.halted != Some(1) && live.halted != Some(2) ==>
              tracker.open.Some? && tracker.open.value.kind.FEED_OUTAGE?
    ensures old(tracker.open).Some? && tracker.open.None? ==>
              live.lastBar.Some? && live.lastBar.value >= old(tracker.open).value.started
  {
    r := live.Assess(now);
    markers := tracker.Observe(r, now);
  }
}
