/** The offline health of a recorded session: gaps between BAR stamps, partitioned by
    what IB said about the feed at the time. Times are integer nanoseconds. */
module RecorderHealth {
  import opened Wrappers
  import opened Feeds

  const BAR_GAP: int := 15_000_000_000

  datatype Interval = Interval(start: int, end: int) {
    predicate Contains(t: int) {
      start <= t < end
    }

    function Length(): int {
      end - start
    }
  }

  datatype Class = FEED_OUTAGE | GAP_SUSPECTED

  datatype Finding = Finding(class_: Class, span: Interval)

  predicate InSome(spans: seq<Interval>, t: int) {
    exists i :: 0 <= i < |spans| && spans[i].Contains(t)
  }

  function TotalLength(spans: seq<Interval>): int {
    if spans == [] then 0 else TotalLength(spans[..|spans| - 1]) + spans[|spans| - 1].Length()
  }

  // ---- gaps --------------------------------------------------------------

  function Clip(stamp: int, open: int, close: int): int {
    var low := if stamp > open then stamp else open;
    if low < close then low else close
  }

  predicate OrderedStamps(stamps: seq<int>) {
    forall i, j :: 0 <= i < j < |stamps| ==> stamps[i] <= stamps[j]
  }

  /** Consecutive, non-empty, and exactly from `from` to `to`. */
  predicate Tiles(gaps: seq<Interval>, from: int, to: int) {
    && (forall i :: 0 <= i < |gaps| ==> gaps[i].start < gaps[i].end)
    && (forall i :: 0 <= i < |gaps| - 1 ==> gaps[i].end == gaps[i + 1].start)
    && (if gaps == [] then from == to else gaps[0].start == from && gaps[|gaps| - 1].end == to)
  }

  predicate NoStampInside(gaps: seq<Interval>, stamps: seq<int>, open: int, close: int) {
    forall i, k :: 0 <= i < |gaps| && 0 <= k < |stamps| ==> !(gaps[i].start < Clip(stamps[k], open, close) < gaps[i].end)
  }

  predicate StartAtStamps(gaps: seq<Interval>, stamps: seq<int>, open: int, close: int) {
    forall i :: 0 <= i < |gaps| && gaps[i].start != open ==>
      exists k :: 0 <= k < |stamps| && Clip(stamps[k], open, close) == gaps[i].start
  }

  /** A clipped stamp is at every boundary inside the session, and inside no gap. */
  predicate GapsOf(gaps: seq<Interval>, stamps: seq<int>, open: int, close: int) {
    NoStampInside(gaps, stamps, open, close) && StartAtStamps(gaps, stamps, open, close)
  }

  lemma NoGapsYet(open: int, close: int)
    ensures Tiles([], open, open) && GapsOf([], [], open, close)
  {
  }

  lemma ClipInside(stamps: seq<int>, open: int, close: int)
    requires open < close
    ensures forall k :: 0 <= k < |stamps| ==> open <= Clip(stamps[k], open, close) <= close
  {
  }

  /** Appending the stretch from the last stamp to a later point keeps the tiling. */
  lemma TileOn(gaps: seq<Interval>, from: int, last: int, next: int)
    requires Tiles(gaps, from, last) && last < next
    ensures Tiles(gaps + [Interval(last, next)], from, next)
  {
  }

  lemma ClipKeepsOrder(a: int, b: int, open: int, close: int)
    requires a <= b && open <= close
    ensures Clip(a, open, close) <= Clip(b, open, close)
  {
  }

  /** One more stamp, in order: a gap up to it if it is later than the last one. */
  lemma NextStamp(gaps: seq<Interval>, stamps: seq<int>, open: int, close: int, last: int, r: nat)
    requires r < |stamps| && open <= close && OrderedStamps(stamps) && Tiles(gaps, open, last)
    requires GapsOf(gaps, stamps[..r], open, close)
    requires last == if r == 0 then open else Clip(stamps[r - 1], open, close)
    ensures var clipped := Clip(stamps[r], open, close);
      && last <= clipped
      && (clipped == last ==> GapsOf(gaps, stamps[..r + 1], open, close))
      && (clipped > last ==> GapsOf(gaps + [Interval(last, clipped)], stamps[..r + 1], open, close))
  {
    var clipped := Clip(stamps[r], open, close);
    var gaps' := if clipped > last then gaps + [Interval(last, clipped)] else gaps;
    NextIsOutside(gaps, stamps, open, close, last, r);
    hide Clip, Tiles, OrderedStamps, NoStampInside;
    var seen, before := stamps[..r + 1], stamps[..r];
    forall i | 0 <= i < |gaps'| && gaps'[i].start != open
      ensures exists k :: 0 <= k < |seen| && Clip(seen[k], open, close) == gaps'[i].start
    {
      if i < |gaps| {
        var k :| 0 <= k < |before| && Clip(before[k], open, close) == gaps[i].start;
        assert seen[k] == before[k];
      } else {
        assert seen[r - 1] == stamps[r - 1];
      }
    }
  }

  lemma NextIsOutside(gaps: seq<Interval>, stamps: seq<int>, open: int, close: int, last: int, r: nat)
    requires r < |stamps| && open <= close && OrderedStamps(stamps) && Tiles(gaps, open, last)
    requires NoStampInside(gaps, stamps[..r], open, close)
    requires last == if r == 0 then open else Clip(stamps[r - 1], open, close)
    ensures var clipped := Clip(stamps[r], open, close);
      && last <= clipped
      && NoStampInside(gaps, stamps[..r + 1], open, close)
      && NoStampInside(gaps + [Interval(last, clipped)], stamps[..r + 1], open, close)
  {
    var clipped := Clip(stamps[r], open, close);
    var seen := stamps[..r + 1];
    if r > 0 {
      ClipKeepsOrder(stamps[r - 1], stamps[r], open, close);
    }
    forall k | 0 <= k < |seen|
      ensures k < r ==> Clip(seen[k], open, close) <= last
    {
      if k < r {
        ClipKeepsOrder(stamps[k], stamps[r - 1], open, close);
      }
    }
    var gaps' := gaps + [Interval(last, clipped)];
    forall i | 0 <= i < |gaps|
      ensures gaps[i].end <= last
    {
      TileEnds(gaps, open, last, i);
    }
    hide Clip, Tiles, OrderedStamps;
    forall i, k | 0 <= i < |gaps'| && 0 <= k < |seen|
      ensures !(gaps'[i].start < Clip(seen[k], open, close) < gaps'[i].end)
    {
      if k < r {
        assert seen[k] == stamps[..r][k];
      }
    }
    forall i, k | 0 <= i < |gaps| && 0 <= k < |seen|
      ensures !(gaps[i].start < Clip(seen[k], open, close) < gaps[i].end)
    {
      if k < r {
        assert seen[k] == stamps[..r][k];
      }
    }
  }

  lemma {:induction false} TileEnds(gaps: seq<Interval>, from: int, to: int, i: nat)
    requires Tiles(gaps, from, to) && i < |gaps|
    ensures gaps[i].end <= to
    decreases |gaps| - i
  {
    if i < |gaps| - 1 {
      TileEnds(gaps, from, to, i + 1);
    }
  }

  /** After the last stamp, the rest of the session is one more gap. */
  lemma CloseGaps(gaps: seq<Interval>, stamps: seq<int>, open: int, close: int, last: int)
    requires open < close && OrderedStamps(stamps) && GapsOf(gaps, stamps, open, close)
    requires last == if stamps == [] then open else Clip(stamps[|stamps| - 1], open, close)
    requires last < close
    ensures GapsOf(gaps + [Interval(last, close)], stamps, open, close)
  {
    forall k | 0 <= k < |stamps|
      ensures Clip(stamps[k], open, close) <= last
    {
      assert stamps[k] <= stamps[|stamps| - 1];
    }
  }

  /** The loop of the analyser, over stamps that come sorted from its store. */
  method Gaps(stamps: seq<int>, open: int, close: int) returns (rows: nat, maxGap: int, gaps: seq<Interval>)
    requires open < close
    ensures rows == |stamps|
    ensures OrderedStamps(stamps) ==> Tiles(gaps, open, close) && GapsOf(gaps, stamps, open, close)
    ensures forall i :: 0 <= i < |gaps| ==> gaps[i].Length() <= maxGap
    ensures maxGap == 0 || exists i :: 0 <= i < |gaps| && gaps[i].Length() == maxGap
  {
    hide Tiles, GapsOf, Clip, OrderedStamps;
    var first: bool := true;
    var last := open;
    gaps := [];
    rows := 0;
    NoGapsYet(open, close);
    assert stamps[..0] == [];
    while rows < |stamps|
      invariant 0 <= rows <= |stamps|
      invariant first <==> rows == 0
      invariant last == if rows == 0 then open else Clip(stamps[rows - 1], open, close)
      invariant OrderedStamps(stamps) ==> Tiles(gaps, open, last) && GapsOf(gaps, stamps[..rows], open, close)
    {
      var clipped := Clip(stamps[rows], open, close);
      if OrderedStamps(stamps) {
        NextStamp(gaps, stamps, open, close, last, rows);
        if clipped > last {
          TileOn(gaps, open, last, clipped);
        }
      }
      if (first && clipped > open) || (!first && clipped > last) {
        gaps := gaps + [Interval(last, clipped)];
      }
      first := false;
      last := clipped;
      rows := rows + 1;
    }
    assert stamps[..rows] == stamps;
    if last < close {
      if OrderedStamps(stamps) {
        CloseGaps(gaps, stamps, open, close, last);
        TileOn(gaps, open, last, close);
      }
      gaps := gaps + [Interval(last, close)];
    }
    ClipInside(stamps, open, close);
    maxGap := MaxLength(gaps);
  }

  method MaxLength(gaps: seq<Interval>) returns (longest: int)
    ensures forall i :: 0 <= i < |gaps| ==> gaps[i].Length() <= longest
    ensures longest == 0 || exists i :: 0 <= i < |gaps| && gaps[i].Length() == longest
  {
    longest := 0;
    for k := 0 to |gaps|
      invariant forall i :: 0 <= i < k ==> gaps[i].Length() <= longest
      invariant longest == 0 || exists i :: 0 <= i < k && gaps[i].Length() == longest
    {
      if gaps[k].Length() > longest {
        longest := gaps[k].Length();
      }
    }
  }

  /** The gaps of a session add up to the session. */
  lemma {:induction false} GapsAddUp(gaps: seq<Interval>, from: int, to: int)
    requires Tiles(gaps, from, to)
    ensures TotalLength(gaps) == to - from
  {
    if gaps != [] {
      var m := |gaps| - 1;
      if m > 0 {
        assert gaps[..m][|gaps[..m]| - 1] == gaps[m - 1];
        GapsAddUp(gaps[..m], from, gaps[m - 1].end);
      }
    }
  }

  /** If no gap is longer than `limit`, every longer stretch of the session holds a
      stamp: the gap list is as good as looking at every instant. */
  lemma NoLongGapMeansDense(gaps: seq<Interval>, stamps: seq<int>, open: int, close: int, limit: int, a: int, b: int)
    requires Tiles(gaps, open, close) && GapsOf(gaps, stamps, open, close)
    requires forall i :: 0 <= i < |gaps| ==> gaps[i].Length() <= limit
    requires open <= a && b <= close && b - a > limit && 0 <= limit
    ensures exists k :: 0 <= k < |stamps| && a <= stamps[k] <= b
  {
    var i := TileOf(gaps, open, close, a);
    assert gaps[i].end < b;
    var next := gaps[i].end;
    assert i + 1 < |gaps| && gaps[i + 1].start == next && next != open;
    var k :| 0 <= k < |stamps| && Clip(stamps[k], open, close) == next;
    assert open < next < close;
    assert stamps[k] == next;
  }

  lemma {:induction false} TileOf(gaps: seq<Interval>, from: int, to: int, t: int) returns (i: nat)
    requires Tiles(gaps, from, to) && from <= t < to
    ensures i < |gaps| && gaps[i].Contains(t)
  {
    var m := |gaps| - 1;
    if gaps[m].start <= t {
      i := m;
    } else {
      assert gaps[..m][|gaps[..m]| - 1] == gaps[m - 1];
      i := TileOf(gaps[..m], from, gaps[m].start, t);
    }
  }

  // ---- the feed at an instant ------------------------------------------------

  /** The analyser's own loop: walk the statuses up to an instant. */
  method StatusStateAt(statuses: seq<StatusEvent>, target: int) returns (lost: bool, farms: set<string>)
    requires Ordered(statuses)
    ensures FeedState(lost, farms) == StateAt(statuses, target)
  {
    lost, farms := false, {};
    var k := 0;
    while k < |statuses| && statuses[k].wall <= target
      invariant 0 <= k <= |statuses|
      invariant forall i :: 0 <= i < k ==> statuses[i].wall <= target
      invariant FeedState(lost, farms) == FeedAfter(statuses[..k])
    {
      assert statuses[..k + 1][..k] == statuses[..k];
      var s := statuses[k];
      if s.code == CONNECTIVITY_LOST {
        lost := true;
      } else if s.code == CONNECTIVITY_RESTORED_DATA_LOST || s.code == CONNECTIVITY_RESTORED_DATA_KEPT {
        lost := false;
      } else if s.code == REALTIME_FARM_BROKEN {
        farms := farms + {s.farm};
      } else if s.code == REALTIME_FARM_OK {
        farms := farms - {s.farm};
      }
      k := k + 1;
    }
    StateAfterAll(statuses[..k], target);
    StateIgnoresLater(statuses, k, target);
  }

  // ---- connectivity outages ----------------------------------------------------

  /** Instants of the session inside a recorded outage, or after one still open. */
  predicate Covered(spans: seq<Interval>, since: Option<int>, t: int) {
    InSome(spans, t) || (since.Some? && since.value <= t)
  }

  /** What the pairing loop has established about a prefix of the statuses. */
  ghost predicate Paired(statuses: seq<StatusEvent>, spans: seq<Interval>, since: Option<int>, open: int, close: int) {
    && (forall t :: open <= t < close ==> (StateAt(statuses, t).lost <==> Covered(spans, since, t)))
    && (since.Some? <==> FeedAfter(statuses).lost)
    && (forall i :: 0 <= i < |spans| ==> open <= spans[i].start < spans[i].end <= close)
    && (statuses == [] ==> spans == [])
    && (statuses != [] ==> forall i :: 0 <= i < |spans| ==> spans[i].end <= statuses[|statuses| - 1].wall)
    && (since.Some? ==> statuses != [] && since.value <= statuses[|statuses| - 1].wall)
    && (since.Some? ==> forall i :: 0 <= i < |spans| ==> spans[i].end <= since.value)
    && (forall i, j :: 0 <= i < j < |spans| ==> spans[i].end <= spans[j].start)
  }

  lemma InSomeSnoc(spans: seq<Interval>, last: Interval, t: int)
    ensures InSome(spans + [last], t) <==> InSome(spans, t) || last.Contains(t)
  {
    var longer := spans + [last];
    if i :| 0 <= i < |spans| && spans[i].Contains(t) {
      assert longer[i].Contains(t);
    }
    if last.Contains(t) {
      assert longer[|spans|].Contains(t);
    }
  }

  /** One more status, in order. */
  lemma PairNext(statuses: seq<StatusEvent>, s: StatusEvent, spans: seq<Interval>, since: Option<int>,
                 spans': seq<Interval>, since': Option<int>, open: int, close: int)
    requires Paired(statuses, spans, since, open, close) && (statuses != [] ==> statuses[|statuses| - 1].wall <= s.wall)
    requires s.wall <= close
    requires if s.code == CONNECTIVITY_LOST then
               spans' == spans && since' == (if since.None? then Some(s.wall) else since)
             else if Restores(s.code) && since.Some? then
               since' == None &&
               var start := if since.value > open then since.value else open;
               spans' == if s.wall > start then spans + [Interval(start, s.wall)] else spans
             else spans' == spans && since' == since
    ensures Paired(statuses + [s], spans', since', open, close)
  {
    var longer := statuses + [s];
    assert longer[..|longer| - 1] == statuses;
    forall t | open <= t < close
      ensures StateAt(longer, t).lost <==> Covered(spans', since', t)
    {
      PairAt(statuses, s, spans, since, spans', since', open, close, t);
    }
  }

  lemma PairAt(statuses: seq<StatusEvent>, s: StatusEvent, spans: seq<Interval>, since: Option<int>,
               spans': seq<Interval>, since': Option<int>, open: int, close: int, t: int)
    requires Paired(statuses, spans, since, open, close) && (statuses != [] ==> statuses[|statuses| - 1].wall <= s.wall)
    requires s.wall <= close && open <= t < close
    requires if s.code == CONNECTIVITY_LOST then
               spans' == spans && since' == (if since.None? then Some(s.wall) else since)
             else if Restores(s.code) && since.Some? then
               since' == None &&
               var start := if since.value > open then since.value else open;
               spans' == if s.wall > start then spans + [Interval(start, s.wall)] else spans
             else spans' == spans && since' == since
    ensures StateAt(statuses + [s], t).lost <==> Covered(spans', since', t)
  {
    var longer := statuses + [s];
    assert longer[..|longer| - 1] == statuses;
    assert StateAt(statuses, t).lost <==> Covered(spans, since, t);
    if Restores(s.code) && since.Some? {
      var start := if since.value > open then since.value else open;
      InSomeSnoc(spans, Interval(start, s.wall), t);
    }
    if t >= s.wall {
      assert !InSome(spans, t);
    }
  }

  /** First lost pairs with first restored, clipped to the session. The outages are
      disjoint, in order, and hold exactly the instants at which the feed was lost. */
  method ConnectivityOutages(statuses: seq<StatusEvent>, open: int, close: int) returns (spans: seq<Interval>)
    requires Ordered(statuses) && open < close
    ensures forall t :: open <= t < close ==> (InSome(spans, t) <==> StateAt(statuses, t).lost)
    ensures forall i :: 0 <= i < |spans| ==> open <= spans[i].start < spans[i].end <= close
    ensures forall i, j :: 0 <= i < j < |spans| ==> spans[i].end <= spans[j].start
  {
    hide Paired, StateAt;
    spans := [];
    NothingPaired(open, close);
    var since: Option<int> := None;
    var k := 0;
    assert statuses[..0] == [];
    while k < |statuses| && statuses[k].wall <= close
      invariant 0 <= k <= |statuses|
      invariant Paired(statuses[..k], spans, since, open, close)
    {
      var s := statuses[k];
      ghost var before, was := spans, since;
      if s.code == CONNECTIVITY_LOST {
        if since.None? {
          since := Some(s.wall);
        }
      } else if (s.code == CONNECTIVITY_RESTORED_DATA_LOST || s.code == CONNECTIVITY_RESTORED_DATA_KEPT) && since.Some? {
        var start := if since.value > open then since.value else open;
        if s.wall > start {
          spans := spans + [Interval(start, s.wall)];
        }
        since := None;
      }
      PairNext(statuses[..k], s, before, was, spans, since, open, close);
      assert statuses[..k] + [s] == statuses[..k + 1];
      k := k + 1;
    }
    ghost var before, was := spans, since;
    if since.Some? && since.value < close {
      var start := if since.value > open then since.value else open;
      if close > start {
        spans := spans + [Interval(start, close)];
      }
    }
    ClosePairs(statuses, k, before, was, spans, open, close);
  }

  lemma NothingPaired(open: int, close: int)
    ensures Paired([], [], None, open, close)
  {
  }

  lemma ClosePairs(statuses: seq<StatusEvent>, k: nat, spans: seq<Interval>, since: Option<int>, spans': seq<Interval>,
                   open: int, close: int)
    requires k <= |statuses| && open < close && Ordered(statuses) && (k < |statuses| ==> statuses[k].wall > close)
    requires Paired(statuses[..k], spans, since, open, close)
    requires var start := if since.Some? && since.value > open then since.value else open;
      spans' == if since.Some? && since.value < close then spans + [Interval(start, close)] else spans
    ensures forall t :: open <= t < close ==> (InSome(spans', t) <==> StateAt(statuses, t).lost)
    ensures forall i :: 0 <= i < |spans'| ==> open <= spans'[i].start < spans'[i].end <= close
    ensures forall i, j :: 0 <= i < j < |spans'| ==> spans'[i].end <= spans'[j].start
  {
    forall t | open <= t < close
      ensures InSome(spans', t) <==> StateAt(statuses, t).lost
    {
      StateIgnoresLater(statuses, k, t);
      if since.Some? && since.value < close {
        InSomeSnoc(spans, Interval(if since.value > open then since.value else open, close), t);
      }
      assert StateAt(statuses[..k], t).lost <==> Covered(spans, since, t);
    }
  }

  // ---- partition of one missing-BAR interval -----------------------------------

  predicate StrictlyRising(xs: seq<int>) {
    forall i, j :: 0 <= i < j < |xs| ==> xs[i] < xs[j]
  }

  /** The set in rising order. */
  method Sorted(s: set<int>) returns (xs: seq<int>)
    ensures StrictlyRising(xs)
    ensures forall x :: x in xs <==> x in s
  {
    xs := [];
    var rest := s;
    while rest != {}
      invariant rest <= s
      invariant StrictlyRising(xs)
      invariant forall x :: x in xs <==> x in s && x !in rest
      invariant forall x, y :: x in xs && y in rest ==> x < y
      decreases |rest|
    {
      var least := Least(rest);
      assert forall i :: 0 <= i < |xs| ==> xs[i] in xs;
      xs := xs + [least];
      rest := rest - {least};
    }
  }

  lemma NonEmpty(s: set<int>)
    requires s != {}
    ensures exists x :: x in s
  {
    if forall x :: x !in s {
      assert false;
    }
  }

  method Least(s: set<int>) returns (least: int)
    requires s != {}
    ensures least in s && forall x :: x in s ==> least <= x
  {
    NonEmpty(s);
    least :| least in s;
    var rest := s - {least};
    while rest != {}
      invariant rest <= s && least in s
      invariant forall x :: x in s && x !in rest ==> least <= x
      decreases |rest|
    {
      NonEmpty(rest);
      var x :| x in rest;
      if x < least {
        least := x;
      }
      rest := rest - {x};
    }
  }

  /** How many nanoseconds of [from, to) the feed was lost. */
  function LostWithin(statuses: seq<StatusEvent>, from: int, upTo: int): nat
    decreases upTo - from
  {
    if upTo <= from then 0
    else LostWithin(statuses, from, upTo - 1) + (if StateAt(statuses, upTo - 1).lost then 1 else 0)
  }

  function SpansOf(findings: seq<Finding>, c: Class): seq<Interval> {
    if findings == [] then []
    else
      var m := |findings| - 1;
      SpansOf(findings[..m], c) + (if findings[m].class_ == c then [findings[m].span] else [])
  }

  /** What an instant without BARs is put down to. */
  predicate Explained(statuses: seq<StatusEvent>, findings: seq<Finding>, t: int) {
    var f := StateAt(statuses, t);
    && (InSome(SpansOf(findings, FEED_OUTAGE), t) <==> !f.lost && f.farms != {})
    && (InSome(SpansOf(findings, GAP_SUSPECTED), t) <==> !f.lost && f.farms == {})
  }

  predicate InOrder(findings: seq<Finding>, start: int, frontier: int) {
    && (forall i :: 0 <= i < |findings| ==> start <= findings[i].span.start < findings[i].span.end <= frontier)
    && (forall i, j :: 0 <= i < j < |findings| ==> findings[i].span.end <= findings[j].span.start)
  }

  /** Everything said about the part of the gap up to `frontier`, and nothing later. */
  ghost predicate Partitioned(statuses: seq<StatusEvent>, findings: seq<Finding>, start: int, frontier: int) {
    && (forall t :: start <= t < frontier ==> Explained(statuses, findings, t))
    && InOrder(findings, start, frontier)
    && TotalLength(SpansOf(findings, FEED_OUTAGE)) + TotalLength(SpansOf(findings, GAP_SUSPECTED))
       + LostWithin(statuses, start, frontier) == frontier - start
  }

  lemma {:induction false} SpansWithin(findings: seq<Finding>, c: Class, t: int)
    requires forall i :: 0 <= i < |findings| ==> !findings[i].span.Contains(t)
    ensures !InSome(SpansOf(findings, c), t)
  {
    if findings != [] {
      var m := |findings| - 1;
      SpansWithin(findings[..m], c, t);
      if findings[m].class_ == c {
        InSomeSnoc(SpansOf(findings[..m], c), findings[m].span, t);
      }
    }
  }

  lemma {:induction false} LostSteady(statuses: seq<StatusEvent>, start: int, from: int, upTo: int)
    requires start <= from <= upTo
    requires forall t :: from <= t < upTo ==> StateAt(statuses, t).lost == StateAt(statuses, from).lost
    ensures LostWithin(statuses, start, upTo) ==
            LostWithin(statuses, start, from) + (if StateAt(statuses, from).lost then upTo - from else 0)
    decreases upTo - from
  {
    if from < upTo {
      LostSteady(statuses, start, from, upTo - 1);
    }
  }

  lemma SpansSnoc(findings: seq<Finding>, f: Finding, c: Class)
    ensures SpansOf(findings + [f], c) == SpansOf(findings, c) + (if f.class_ == c then [f.span] else [])
  {
    assert (findings + [f])[..|findings|] == findings;
  }

  /** What one more finding adds to what is said about an instant. */
  lemma InstantSnoc(findings: seq<Finding>, f: Finding, c: Class, t: int)
    ensures InSome(SpansOf(findings + [f], c), t) <==> InSome(SpansOf(findings, c), t) || (f.class_ == c && f.span.Contains(t))
    ensures TotalLength(SpansOf(findings + [f], c))
         == TotalLength(SpansOf(findings, c)) + (if f.class_ == c then f.span.Length() else 0)
  {
    SpansSnoc(findings, f, c);
    StretchLength(SpansOf(findings, c), f.span);
    InSomeSnoc(SpansOf(findings, c), f.span, t);
  }

  /** One more stretch between two status changes. */
  lemma NextStretch(statuses: seq<StatusEvent>, findings: seq<Finding>, findings': seq<Finding>, start: int, from: int, to: int)
    requires start <= from < to && Partitioned(statuses, findings, start, from)
    requires forall t :: from <= t < to ==> StateAt(statuses, t) == StateAt(statuses, from)
    requires var f := StateAt(statuses, from);
      findings' == if f.lost then findings
                   else findings + [Finding(if f.farms != {} then FEED_OUTAGE else GAP_SUSPECTED, Interval(from, to))]
    ensures Partitioned(statuses, findings', start, to)
  {
    hide StateAt, SpansOf, TotalLength, LostWithin, Explained, InSome, InOrder;
    LostSteady(statuses, start, from, to);
    var f := StateAt(statuses, from);
    var last := Finding(if f.farms != {} then FEED_OUTAGE else GAP_SUSPECTED, Interval(from, to));
    forall t | start <= t < to
      ensures Explained(statuses, findings', t)
    {
      StretchAt(statuses, findings, last, start, from, to, t);
    }
    StretchInOrder(findings, last, start, from, to);
    InstantSnoc(findings, last, FEED_OUTAGE, from);
    InstantSnoc(findings, last, GAP_SUSPECTED, from);
  }

  lemma StretchAt(statuses: seq<StatusEvent>, findings: seq<Finding>, last: Finding, start: int, from: int, to: int, t: int)
    requires start <= from < to && Partitioned(statuses, findings, start, from) && start <= t < to
    requires from <= t ==> StateAt(statuses, t) == StateAt(statuses, from)
    requires last == Finding(if StateAt(statuses, from).farms != {} then FEED_OUTAGE else GAP_SUSPECTED, Interval(from, to))
    ensures Explained(statuses, if StateAt(statuses, from).lost then findings else findings + [last], t)
  {
    hide SpansOf, TotalLength, LostWithin, StateAt, InSome;
    assert InOrder(findings, start, from);
    InstantSnoc(findings, last, FEED_OUTAGE, t);
    InstantSnoc(findings, last, GAP_SUSPECTED, t);
    if t < from {
      assert Explained(statuses, findings, t);
    } else {
      SpansWithin(findings, FEED_OUTAGE, t);
      SpansWithin(findings, GAP_SUSPECTED, t);
    }
  }

  lemma StretchInOrder(findings: seq<Finding>, last: Finding, start: int, from: int, to: int)
    requires start <= from < to && InOrder(findings, start, from) && last.span == Interval(from, to)
    ensures InOrder(findings, start, to) && InOrder(findings + [last], start, to)
  {
  }

  lemma NothingYet(statuses: seq<StatusEvent>, start: int)
    ensures Partitioned(statuses, [], start, start)
  {
  }

  lemma StretchLength(spans: seq<Interval>, last: Interval)
    ensures TotalLength(spans + [last]) == TotalLength(spans) + last.Length()
    ensures spans + [] == spans
  {
    assert (spans + [last])[..|spans|] == spans;
  }

  /** Partition one missing-BAR interval by actual status changes. Every instant of
      it is in exactly one of: a direct outage, a farm outage, a suspected gap; and
      the durations add up. */
  method BarGapFindings(statuses: seq<StatusEvent>, start: int, end: int) returns (findings: seq<Finding>)
    requires Ordered(statuses) && start < end
    ensures Partitioned(statuses, findings, start, end)
  {
    hide Partitioned, StateAt, Ordered;
    var boundaries := {start, end};
    for k := 0 to |statuses|
      invariant start in boundaries && end in boundaries
      invariant forall b :: b in boundaries ==> start <= b <= end
      invariant forall i :: 0 <= i < k && start < statuses[i].wall < end && Relevant(statuses[i].code) ==>
                  statuses[i].wall in boundaries
    {
      if start < statuses[k].wall < end && Relevant(statuses[k].code) {
        boundaries := boundaries + {statuses[k].wall};
      }
    }
    var ordered := Sorted(boundaries);
    EndsOf(ordered, start, end);
    findings := [];
    NothingYet(statuses, start);
    for k := 0 to |ordered| - 1
      invariant Partitioned(statuses, findings, start, ordered[k])
    {
      var from, to := ordered[k], ordered[k + 1];
      var lost, farms := StatusStateAt(statuses, from);
      ghost var before := findings;
      if !lost {
        findings := findings + [Finding(if farms != {} then FEED_OUTAGE else GAP_SUSPECTED, Interval(from, to))];
      }
      SteadyStretch(statuses, ordered, k, start, end);
      NextStretch(statuses, before, findings, start, from, to);
    }
  }

  lemma EndsOf(ordered: seq<int>, start: int, end: int)
    requires start < end && StrictlyRising(ordered) && start in ordered && end in ordered
    requires forall b :: b in ordered ==> start <= b <= end
    ensures |ordered| >= 2 && ordered[0] == start && ordered[|ordered| - 1] == end
  {
    var i :| 0 <= i < |ordered| && ordered[i] == start;
    var j :| 0 <= j < |ordered| && ordered[j] == end;
    assert ordered[0] in ordered && ordered[|ordered| - 1] in ordered;
  }

  lemma SteadyStretch(statuses: seq<StatusEvent>, ordered: seq<int>, k: nat, start: int, end: int)
    requires k + 1 < |ordered| && StrictlyRising(ordered) && ordered[0] == start && ordered[|ordered| - 1] == end
    requires forall i :: 0 <= i < |statuses| && start < statuses[i].wall < end && Relevant(statuses[i].code) ==>
               statuses[i].wall in ordered
    ensures forall t :: ordered[k] <= t < ordered[k + 1] ==> StateAt(statuses, t) == StateAt(statuses, ordered[k])
    ensures start <= ordered[k] < ordered[k + 1] <= end
  {
    assert k > 0 ==> ordered[0] < ordered[k];
    assert k + 1 < |ordered| - 1 ==> ordered[k + 1] < ordered[|ordered| - 1];
    forall t | ordered[k] <= t < ordered[k + 1]
      ensures StateAt(statuses, t) == StateAt(statuses, ordered[k])
    {
      forall i | 0 <= i < |statuses| && ordered[k] < statuses[i].wall <= t
        ensures !Relevant(statuses[i].code)
      {
        if Relevant(statuses[i].code) {
          var j :| 0 <= j < |ordered| && ordered[j] == statuses[i].wall;
          assert false;
        }
      }
      StateIsSteady(statuses, ordered[k], t);
    }
  }

  // ---- the two passes together ---------------------------------------------------

  /** Every instant of a missing-BAR interval is in exactly one of a direct outage, a
      farm outage, and a suspected gap. */
  predicate ExplainedOnce(outages: seq<Interval>, findings: seq<Finding>, t: int) {
    var direct, farm := InSome(outages, t), InSome(SpansOf(findings, FEED_OUTAGE), t);
    var gap := InSome(SpansOf(findings, GAP_SUSPECTED), t);
    (direct && !farm && !gap) || (!direct && farm && !gap) || (!direct && !farm && gap)
  }

  lemma ExactlyOneExplanation(statuses: seq<StatusEvent>, outages: seq<Interval>, findings: seq<Finding>,
                              open: int, close: int, span: Interval)
    requires open <= span.start && span.end <= close
    requires forall u :: open <= u < close ==> (InSome(outages, u) <==> StateAt(statuses, u).lost)
    requires Partitioned(statuses, findings, span.start, span.end)
    ensures forall t :: span.start <= t < span.end ==> ExplainedOnce(outages, findings, t)
  {
    forall t | span.start <= t < span.end
      ensures ExplainedOnce(outages, findings, t)
    {
      assert Explained(statuses, findings, t);
    }
  }

  /** The direct outages last exactly as long as the feed was lost. */
  lemma LastOutage(statuses: seq<StatusEvent>, open: int, last: Interval, close: int)
    requires open <= last.start < last.end <= close
    requires forall t :: last.start <= t < close ==> (StateAt(statuses, t).lost <==> last.Contains(t))
    ensures LostWithin(statuses, open, close) == LostWithin(statuses, open, last.start) + last.Length()
  {
    hide StateAt, LostWithin;
    LostSteady(statuses, open, last.start, last.end);
    if last.end < close {
      LostSteady(statuses, open, last.end, close);
    }
  }

  lemma {:induction false} OutagesAddUp(statuses: seq<StatusEvent>, outages: seq<Interval>, open: int, close: int)
    requires open <= close
    requires forall t :: open <= t < close ==> (InSome(outages, t) <==> StateAt(statuses, t).lost)
    requires forall i :: 0 <= i < |outages| ==> open <= outages[i].start < outages[i].end <= close
    requires forall i, j :: 0 <= i < j < |outages| ==> outages[i].end <= outages[j].start
    ensures TotalLength(outages) == LostWithin(statuses, open, close)
    decreases |outages|
  {
    hide StateAt;
    if outages == [] {
      LostSteady(statuses, open, open, close);
    } else {
      var m := |outages| - 1;
      var last := outages[m];
      assert outages[..m] + [last] == outages;
      forall t | open <= t < close
        ensures InSome(outages, t) <==> InSome(outages[..m], t) || last.Contains(t)
      {
        InSomeSnoc(outages[..m], last, t);
      }
      forall t | last.end <= t < close
        ensures !InSome(outages, t)
      {
      }
      hide InSome;
      LastOutage(statuses, open, last, close);
      OutagesAddUp(statuses, outages[..m], open, last.start);
    }
  }

  // ---- the verdict -----------------------------------------------------------------

  predicate NeverLost(statuses: seq<StatusEvent>, open: int, close: int) {
    forall t :: open <= t < close ==> !StateAt(statuses, t).lost
  }

  predicate NoHardStatus(statuses: seq<StatusEvent>) {
    forall k :: 0 <= k < |statuses| ==> !Fatal(statuses[k]) && statuses[k].code != REALTIME_BARS_RESET
  }

  predicate NoLongGap(gaps: seq<Interval>) {
    forall i :: 0 <= i < |gaps| ==> gaps[i].Length() <= BAR_GAP
  }

  /** A raw segment as it was read back. */
  datatype Segment = Segment(readError: bool, salvaged: bool)

  /** What the analysis is given beside the statuses and the BARs. */
  datatype Recording = Recording(errors: seq<string>, dataTypes: set<string>, segments: seq<Segment>) {
    predicate Intact() {
      && errors == []
      && dataTypes == {"LIVE"}
      && forall k :: 0 <= k < |segments| ==> !segments[k].readError && !segments[k].salvaged
    }
  }

  function Concat(parts: seq<seq<Finding>>): seq<Finding> {
    if parts == [] then [] else Concat(parts[..|parts| - 1]) + parts[|parts| - 1]
  }

  /** The findings, gap by gap: nothing on a short gap, and on a long one an exact
      cover, with the direct outages, of every instant and of the whole duration. */
  ghost predicate Accounted(statuses: seq<StatusEvent>, outages: seq<Interval>, gap: Interval, part: seq<Finding>) {
    if gap.Length() <= BAR_GAP then part == []
    else
      && Partitioned(statuses, part, gap.start, gap.end)
      && forall t :: gap.start <= t < gap.end ==> ExplainedOnce(outages, part, t)
  }

  /** A session is healthy exactly if connectivity was never lost in it, no gap
      between BARs is longer than the threshold, no hard status was received, and the
      recording is intact, live, and free of errors. */
  method Analyze(statuses: seq<StatusEvent>, bars: seq<int>, recording: Recording, open: int, close: int)
    returns (healthy: bool, outages: seq<Interval>, findings: seq<Finding>, ghost gaps: seq<Interval>,
             ghost parts: seq<seq<Finding>>)
    requires Ordered(statuses) && OrderedStamps(bars) && open < close
    ensures Tiles(gaps, open, close) && GapsOf(gaps, bars, open, close)
    ensures healthy <==>
              NeverLost(statuses, open, close) && NoLongGap(gaps) && NoHardStatus(statuses) && recording.Intact()
    ensures healthy ==> outages == [] && findings == []
    ensures findings == Concat(parts) && |parts| == |gaps|
    ensures forall k :: 0 <= k < |gaps| ==> Accounted(statuses, outages, gaps[k], parts[k])
    ensures TotalLength(gaps) == close - open && TotalLength(outages) == LostWithin(statuses, open, close)
  {
    hide Ordered, StateAt, Tiles, GapsOf, OrderedStamps, Partitioned, Explained, ExplainedOnce, LostWithin, TotalLength,
         InSome;
    outages := ConnectivityOutages(statuses, open, close);
    NeverLostIff(statuses, outages, open, close);
    OutagesAddUp(statuses, outages, open, close);
    var _, _, list := Gaps(bars, open, close);
    gaps, parts, findings := list, [], [];
    GapsAddUp(list, open, close);
    for k := 0 to |list|
      invariant |parts| == k && findings == Concat(parts)
      invariant forall i :: 0 <= i < k ==> Accounted(statuses, outages, list[i], parts[i])
      invariant forall i :: 0 <= i < k && list[i].Length() > BAR_GAP && outages == [] ==> findings != []
      invariant findings != [] ==> exists i :: 0 <= i < k && list[i].Length() > BAR_GAP
    {
      var more := [];
      if list[k].Length() > BAR_GAP {
        more := BarGapFindings(statuses, list[k].start, list[k].end);
        GapIsInside(list, open, close, k);
        ExactlyOneExplanation(statuses, outages, more, open, close, list[k]);
        if outages == [] {
          UnexplainedIsFound(statuses, more, list[k].start, list[k].end);
        }
        findings := findings + more;
      }
      ConcatNext(parts, more);
      parts := parts + [more];
    }
    var hard := HasHardStatus(statuses);
    var intact := IsIntact(recording);
    healthy := outages == [] && findings == [] && !hard && intact;
  }

  lemma ConcatNext(parts: seq<seq<Finding>>, more: seq<Finding>)
    ensures Concat(parts + [more]) == Concat(parts) + more
    ensures more == [] ==> Concat(parts + [more]) == Concat(parts)
  {
    assert (parts + [more])[..|parts|] == parts;
  }

  method HasHardStatus(statuses: seq<StatusEvent>) returns (hard: bool)
    ensures hard <==> !NoHardStatus(statuses)
  {
    hard := false;
    for k := 0 to |statuses|
      invariant hard <==> exists i :: 0 <= i < k && (Fatal(statuses[i]) || statuses[i].code == REALTIME_BARS_RESET)
    {
      hard := hard || Fatal(statuses[k]) || statuses[k].code == REALTIME_BARS_RESET;
    }
  }

  method IsIntact(recording: Recording) returns (intact: bool)
    ensures intact <==> recording.Intact()
  {
    intact := recording.errors == [] && recording.dataTypes == {"LIVE"};
    ghost var first := intact;
    for k := 0 to |recording.segments|
      invariant intact <==>
        first && forall i :: 0 <= i < k ==> !recording.segments[i].readError && !recording.segments[i].salvaged
    {
      intact := intact && !recording.segments[k].readError && !recording.segments[k].salvaged;
    }
  }

  lemma NeverLostIff(statuses: seq<StatusEvent>, outages: seq<Interval>, open: int, close: int)
    requires forall t :: open <= t < close ==> (InSome(outages, t) <==> StateAt(statuses, t).lost)
    requires forall i :: 0 <= i < |outages| ==> open <= outages[i].start < outages[i].end <= close
    ensures outages == [] <==> NeverLost(statuses, open, close)
  {
    if outages != [] {
      assert outages[0].Contains(outages[0].start);
      assert InSome(outages, outages[0].start);
    }
  }

  lemma GapIsInside(gaps: seq<Interval>, open: int, close: int, k: nat)
    requires Tiles(gaps, open, close) && k < |gaps|
    ensures open <= gaps[k].start && gaps[k].end <= close
  {
    TileEnds(gaps, open, close, k);
    TileStarts(gaps, open, close, k);
  }

  lemma {:induction false} TileStarts(gaps: seq<Interval>, from: int, to: int, i: nat)
    requires Tiles(gaps, from, to) && i < |gaps|
    ensures from <= gaps[i].start
    decreases i
  {
    if i > 0 {
      TileStarts(gaps, from, to, i - 1);
    }
  }

  /** A gap during which the feed was never lost is always reported. */
  lemma UnexplainedIsFound(statuses: seq<StatusEvent>, findings: seq<Finding>, start: int, end: int)
    requires start < end && Partitioned(statuses, findings, start, end) && !StateAt(statuses, start).lost
    ensures findings != []
  {
    assert Explained(statuses, findings, start);
  }

  /** A healthy session has a BAR in every stretch longer than the threshold. */
  lemma HealthyMeansDense(gaps: seq<Interval>, bars: seq<int>, open: int, close: int, a: int, b: int)
    requires Tiles(gaps, open, close) && GapsOf(gaps, bars, open, close) && NoLongGap(gaps)
    requires open <= a && b <= close && b - a > BAR_GAP
    ensures exists k :: 0 <= k < |bars| && a <= bars[k] <= b
  {
    NoLongGapMeansDense(gaps, bars, open, close, BAR_GAP, a, b);
  }
}
