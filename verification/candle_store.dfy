/** Confirmed candle history per symbol and interval, kept incrementally. */
module CandleStore {
  import opened Common
  import opened IntFacts

  datatype Key = Key(symbol: string, interval: int)

  datatype Bar = Bar(symbol: string, interval: int, openTime: int, confirmed: bool, close: real)

  /** One key's history, gap count and in-progress candle. */
  datatype Series = Series(history: seq<Bar>, gaps: int, current: Option<Bar>)

  const EMPTY := Series([], 0, None)

  function KeyOf(c: Bar): Key {
    Key(c.symbol, c.interval)
  }

  function StepMs(interval: int): int {
    interval * 60000
  }

  /** Candles missing between two open times. */
  function Missing(from: int, to: int, step: int): int
    requires step > 0
  {
    MaxInt((to - from) / step - 1, 0)
  }

  function CountGaps(candles: seq<Bar>, step: int): int
    requires step > 0
  {
    if |candles| < 2 then 0
    else
      var n := |candles| - 1;
      CountGaps(candles[..n], step) + Missing(candles[n - 1].openTime, candles[n].openTime, step)
  }

  /** The last `max` candles. */
  function Latest(candles: seq<Bar>, max: nat): seq<Bar> {
    if |candles| <= max then candles else candles[|candles| - max..]
  }

  function Last(candles: seq<Bar>): Bar
    requires candles != []
  {
    candles[|candles| - 1]
  }

  function Confirmed(candles: seq<Bar>): seq<Bar> {
    if candles == [] then []
    else
      var init, c := Confirmed(candles[..|candles| - 1]), Last(candles);
      if c.confirmed then init + [c] else init
  }

  function LastInProgress(candles: seq<Bar>): Option<Bar> {
    if candles == [] then None
    else if !Last(candles).confirmed then Some(Last(candles))
    else LastInProgress(candles[..|candles| - 1])
  }

  /** seed. */
  function Seeded(candles: seq<Bar>, step: int, max: nat): Series
    requires step > 0
  {
    Series(Latest(Confirmed(candles), max), CountGaps(Confirmed(candles), step), LastInProgress(candles))
  }

  /** update. */
  function Updated(s: Series, c: Bar, step: int, max: nat): Series
    requires step > 0
  {
    if !c.confirmed then s.(current := Some(c))
    else if s.history != [] && c.openTime == Last(s.history).openTime then
      s.(history := s.history[|s.history| - 1 := c])
    else if s.history != [] && c.openTime < Last(s.history).openTime then s
    else
      Series(Latest(s.history + [c], max),
             if s.history == [] then s.gaps else s.gaps + Missing(Last(s.history).openTime, c.openTime, step),
             if s.current.Some? && s.current.value.openTime <= c.openTime then None else s.current)
  }

  // ---- the unbounded index that the bounded one stands for ----

  /** A confirmed candle extends the record, corrects its last entry, or is stale. */
  function Accept(record: seq<Bar>, c: Bar): seq<Bar> {
    if !c.confirmed then record
    else if record != [] && c.openTime == Last(record).openTime then record[|record| - 1 := c]
    else if record != [] && c.openTime < Last(record).openTime then record
    else record + [c]
  }

  function AcceptAll(record: seq<Bar>, stream: seq<Bar>): seq<Bar> {
    if stream == [] then record else Accept(AcceptAll(record, stream[..|stream| - 1]), Last(stream))
  }

  function Replay(s: Series, stream: seq<Bar>, step: int, max: nat): Series
    requires step > 0
  {
    if stream == [] then s else Updated(Replay(s, stream[..|stream| - 1], step, max), Last(stream), step, max)
  }

  ghost predicate Increasing(candles: seq<Bar>) {
    forall i, j :: 0 <= i < j < |candles| ==> candles[i].openTime < candles[j].openTime
  }

  predicate AllConfirmed(candles: seq<Bar>) {
    forall c :: c in candles ==> c.confirmed
  }

  lemma AcceptIncreasing(record: seq<Bar>, c: Bar)
    requires Increasing(record) && AllConfirmed(record)
    ensures Increasing(Accept(record, c)) && AllConfirmed(Accept(record, c))
  {
  }

  /** Correcting the last candle without moving it changes no gap. */
  lemma GapsOfTimes(candles: seq<Bar>, c: Bar, step: int)
    requires step > 0 && candles != [] && c.openTime == Last(candles).openTime
    ensures CountGaps(candles[|candles| - 1 := c], step) == CountGaps(candles, step)
  {
    assert candles[|candles| - 1 := c][..|candles| - 1] == candles[..|candles| - 1];
  }

  /** The bounded series holds the latest candles of a record and all of its gaps. */
  ghost predicate Stands(s: Series, record: seq<Bar>, step: int, max: nat)
    requires step > 0
  {
    s.history == Latest(record, max) && s.gaps == CountGaps(record, step)
  }

  lemma LatestSnoc(record: seq<Bar>, c: Bar, max: nat)
    requires max >= 1
    ensures Latest(Latest(record, max) + [c], max) == Latest(record + [c], max)
  {
  }

  lemma LatestCorrected(record: seq<Bar>, c: Bar, max: nat)
    requires max >= 1 && record != []
    ensures var latest := Latest(record, max);
            && latest != [] && Last(latest) == Last(record)
            && latest[|latest| - 1 := c] == Latest(record[|record| - 1 := c], max)
  {
  }

  lemma GapsSnoc(record: seq<Bar>, c: Bar, step: int)
    requires step > 0
    ensures CountGaps(record + [c], step) ==
            if record == [] then 0 else CountGaps(record, step) + Missing(Last(record).openTime, c.openTime, step)
  {
    assert (record + [c])[..|record|] == record;
  }

  lemma UpdateStands(s: Series, record: seq<Bar>, c: Bar, step: int, max: nat)
    requires step > 0 && max >= 1 && Stands(s, record, step, max)
    ensures Stands(Updated(s, c, step, max), Accept(record, c), step, max)
  {
    GapsSnoc(record, c, step);
    LatestSnoc(record, c, max);
    if record == [] {
      assert s.history == [] && s.gaps == 0;
    } else {
      LatestCorrected(record, c, max);
      if c.openTime == Last(record).openTime {
        GapsOfTimes(record, c, step);
      }
    }
    hide Latest, CountGaps, Missing;
  }

  /** Replaying any stream, with corrections, stale and in-progress candles in it, onto a
      seeded history gives what seeding the whole record at once gives: the same history
      and the same gap count. */
  lemma {:induction false} ReplayIsBatch(base: seq<Bar>, start: Series, stream: seq<Bar>, step: int, max: nat)
    requires step > 0 && max >= 1 && Increasing(base) && AllConfirmed(base) && Stands(start, base, step, max)
    ensures var record := AcceptAll(base, stream);
            && Increasing(record) && AllConfirmed(record)
            && Stands(Replay(start, stream, step, max), record, step, max)
            && Replay(start, stream, step, max).history == Seeded(record, step, max).history
            && Replay(start, stream, step, max).gaps == Seeded(record, step, max).gaps
  {
    hide Updated, Accept, Stands;
    if stream != [] {
      ReplayIsBatch(base, start, stream[..|stream| - 1], step, max);
      var record := AcceptAll(base, stream[..|stream| - 1]);
      AcceptIncreasing(record, Last(stream));
      UpdateStands(Replay(start, stream[..|stream| - 1], step, max), record, Last(stream), step, max);
    }
    SeedStands(AcceptAll(base, stream), Replay(start, stream, step, max), step, max);
  }

  lemma {:induction false} AllConfirmedKept(candles: seq<Bar>)
    requires AllConfirmed(candles)
    ensures Confirmed(candles) == candles
  {
    if candles != [] {
      assert candles == candles[..|candles| - 1] + [Last(candles)];
      AllConfirmedKept(candles[..|candles| - 1]);
    }
  }

  lemma SeedStands(record: seq<Bar>, s: Series, step: int, max: nat)
    requires step > 0 && AllConfirmed(record) && Stands(s, record, step, max)
    ensures s.history == Seeded(record, step, max).history && s.gaps == Seeded(record, step, max).gaps
  {
    AllConfirmedKept(record);
  }

  /** A strictly increasing confirmed stream is its own record. */
  lemma {:induction false} IncreasingIsAccepted(stream: seq<Bar>)
    requires Increasing(stream) && AllConfirmed(stream)
    ensures AcceptAll([], stream) == stream
  {
    if stream != [] {
      var init := stream[..|stream| - 1];
      assert stream == init + [Last(stream)];
      IncreasingIsAccepted(init);
    }
  }

  /** From an empty store, any stream leaves a strictly increasing history of at most
      `max` candles; a strictly increasing confirmed one leaves exactly what seeding it
      leaves. */
  lemma IncrementalIsBatch(stream: seq<Bar>, step: int, max: nat)
    requires step > 0 && max >= 1
    ensures var s := Replay(EMPTY, stream, step, max);
            && Increasing(s.history) && |s.history| <= max
            && (Increasing(stream) && AllConfirmed(stream) ==>
                  s.history == Seeded(stream, step, max).history && s.gaps == Seeded(stream, step, max).gaps)
  {
    hide Replay, AcceptAll, Seeded;
    ReplayIsBatch([], EMPTY, stream, step, max);
    if Increasing(stream) && AllConfirmed(stream) {
      IncreasingIsAccepted(stream);
    }
  }

  // ---- which candles stay on record ----

  /** Candle i has the greatest open time of the confirmed ones, and of those with that open
      time it came last. */
  ghost predicate IsNewest(stream: seq<Bar>, i: int) {
    0 <= i < |stream| && stream[i].confirmed && forall j :: 0 <= j < |stream| ==> NotAfter(stream[j], j, stream[i], i)
  }

  predicate NotAfter(a: Bar, j: int, b: Bar, i: int) {
    a.confirmed ==> a.openTime < b.openTime || (a.openTime == b.openTime && j <= i)
  }

  /** The record ends with the newest candle of the stream, or both have none. */
  ghost predicate EndsNewest(stream: seq<Bar>, record: seq<Bar>) {
    if record == [] then forall j :: 0 <= j < |stream| ==> !stream[j].confirmed
    else exists i :: IsNewest(stream, i) && Last(record) == stream[i]
  }

  /** Whatever a stream brings, the record ends with the newest candle it confirmed: a
      correction replaces, a late candle is ignored, one in progress is not recorded. */
  lemma {:induction false} NewestIsLast(stream: seq<Bar>)
    ensures EndsNewest(stream, AcceptAll([], stream))
  {
    if stream != [] {
      var init, c := stream[..|stream| - 1], Last(stream);
      var before := AcceptAll([], init);
      assert stream == init + [c];
      NewestIsLast(init);
      hide Accept, EndsNewest;
      NewestGrows(init, c, before);
    }
  }

  lemma NewestGrows(init: seq<Bar>, c: Bar, before: seq<Bar>)
    requires EndsNewest(init, before)
    ensures EndsNewest(init + [c], Accept(before, c))
  {
    var stream, record := init + [c], Accept(before, c);
    assert forall j :: 0 <= j < |init| ==> stream[j] == init[j];
    if c.confirmed && (before == [] || c.openTime >= Last(before).openTime) {
      assert Last(record) == c;
      forall j | 0 <= j < |stream| ensures NotAfter(stream[j], j, c, |init|) {
        if before != [] && j < |init| {
          var i :| IsNewest(init, i) && Last(before) == init[i];
          assert NotAfter(init[j], j, init[i], i);
        }
      }
      assert IsNewest(stream, |init|);
    } else if before != [] {
      var i :| IsNewest(init, i) && Last(before) == init[i];
      forall j | 0 <= j < |stream| ensures NotAfter(stream[j], j, stream[i], i) {
        assert j < |init| ==> NotAfter(init[j], j, init[i], i);
      }
      assert IsNewest(stream, i);
    }
  }

  /** What came before the last entry of a record is settled: no later candle changes it. */
  lemma {:induction false} PastIsFixed(base: seq<Bar>, stream: seq<Bar>)
    requires base != []
    ensures var record := AcceptAll(base, stream);
            |record| >= |base| && record[..|base| - 1] == base[..|base| - 1]
  {
    if stream != [] {
      PastIsFixed(base, stream[..|stream| - 1]);
    }
  }

  /** Two candles of one minute, with two slots missing between them. */
  function Pair(step: int): seq<Bar> {
    [Bar("S", 1, 0, true, 1.0), Bar("S", 1, 3 * step, true, 1.0)]
  }

  /** With no room at all the incremental store never sees a gap that the batch counts. */
  lemma ZeroCapacityMissesGaps(step: int)
    requires step > 0
    ensures Increasing(Pair(step)) && AllConfirmed(Pair(step))
    ensures Replay(EMPTY, Pair(step), step, 0).gaps == 0 && Seeded(Pair(step), step, 0).gaps == 2
  {
    var a, b := Pair(step)[0], Pair(step)[1];
    assert [a, b][..1] == [a] && [a][..0] == [];
    assert Latest([a], 0) == [];
    assert Replay(EMPTY, [a], step, 0) == EMPTY by {
      assert Replay(EMPTY, [], step, 0) == EMPTY;
      assert [] + [a] == [a];
    }
    AllConfirmedKept([a, b]);
    DivModUnique(3 * step, 3, 0, step);
    assert Missing(0, 3 * step, step) == 2;
    assert CountGaps([a], step) == 0;
  }

  /** The incremental and the batch gap counts of a stream agree. */
  predicate SameGaps(stream: seq<Bar>, step: int, max: nat)
    requires step > 0
  {
    Replay(EMPTY, stream, step, max).gaps == Seeded(stream, step, max).gaps
  }

  /** The two counts agree on every increasing confirmed stream exactly when the store has
      room for at least one candle. */
  lemma GapsAgreeIff(step: int, max: nat)
    requires step > 0
    ensures (forall stream :: Increasing(stream) && AllConfirmed(stream) ==> SameGaps(stream, step, max))
            <==> max >= 1
  {
    if max >= 1 {
      forall stream | Increasing(stream) && AllConfirmed(stream) ensures SameGaps(stream, step, max) {
        IncrementalIsBatch(stream, step, max);
      }
    } else {
      ZeroCapacityMissesGaps(step);
      assert !SameGaps(Pair(step), step, max);
    }
  }

  ghost predicate Aligned(candles: seq<Bar>, step: int)
    requires step > 0
  {
    forall i :: 0 <= i < |candles| ==> (candles[i].openTime - candles[0].openTime) % step == 0
  }

  lemma AlignedQuotient(a: int, b: int, step: int)
    requires step > 0 && a % step == 0 && b % step == 0
    ensures (b - a) / step == b / step - a / step
    ensures a < b ==> (b - a) / step >= 1
  {
    var k := b / step - a / step;
    assert k * step == b / step * step - a / step * step;
    DivModUnique(b - a, k, 0, step);
    ProductSize(k, step);
  }

  /** In a step-aligned record the gap count is the slots between the ends that no candle
      fills. */
  lemma {:induction false} GapFormula(candles: seq<Bar>, step: int)
    requires step > 0 && candles != [] && Increasing(candles) && Aligned(candles, step)
    ensures CountGaps(candles, step) ==
            (Last(candles).openTime - candles[0].openTime) / step - (|candles| - 1)
  {
    if |candles| >= 2 {
      var n := |candles| - 1;
      var init := candles[..n];
      GapFormula(init, step);
      AlignedQuotient(candles[n - 1].openTime - candles[0].openTime, candles[n].openTime - candles[0].openTime, step);
    }
  }

  /** In time: each gap of an aligned record stands for one interval of so many minutes between
      its ends that no candle fills. */
  lemma GapTime(candles: seq<Bar>, interval: int)
    requires interval > 0 && candles != [] && Increasing(candles) && Aligned(candles, StepMs(interval))
    ensures var step := StepMs(interval);
            && step == interval * 60 * 1000
            && (CountGaps(candles, step) + |candles| - 1) * step == Last(candles).openTime - candles[0].openTime
  {
    var step := StepMs(interval);
    GapFormula(candles, step);
    assert (candles[|candles| - 1].openTime - candles[0].openTime) % step == 0;
    hide CountGaps, StepMs;
    WholeSteps(Last(candles).openTime - candles[0].openTime, step);
  }

  lemma WholeSteps(x: int, step: int)
    requires step > 0 && x % step == 0
    ensures x / step * step == x
  {
  }

  /** Seeding keeps the last candle in progress, if there is one. */
  lemma {:induction false} InProgressIs(candles: seq<Bar>)
    ensures match LastInProgress(candles)
            case None => AllConfirmed(candles)
            case Some(c) =>
              exists i :: 0 <= i < |candles| && candles[i] == c && !c.confirmed && AllConfirmed(candles[i + 1..])
  {
    if candles != [] {
      var init, last := candles[..|candles| - 1], Last(candles);
      InProgressIs(init);
      assert candles == init + [last];
      if !last.confirmed {
        assert candles[|candles|..] == [];
      } else if LastInProgress(init).Some? {
        var c := LastInProgress(init).value;
        var i :| 0 <= i < |init| && init[i] == c && !c.confirmed && AllConfirmed(init[i + 1..]);
        assert candles[i] == c && candles[i + 1..] == init[i + 1..] + [last];
      }
    }
  }

  /** The in-progress candle, if any, is newer than the last confirmed one. */
  predicate Ahead(s: Series) {
    s.current.Some? && s.history != [] ==> Last(s.history).openTime < s.current.value.openTime
  }

  /** An update leaves the in-progress candle ahead of the history exactly when it is not
      itself an in-progress candle at or behind the last confirmed one; a confirmed candle
      takes away only an in-progress one that it reaches. */
  lemma StaysAheadIff(s: Series, c: Bar, step: int, max: nat)
    requires step > 0 && max >= 1 && Ahead(s)
    ensures Ahead(Updated(s, c, step, max)) <==>
            c.confirmed || s.history == [] || Last(s.history).openTime < c.openTime
    ensures Updated(s, c, step, max).current ==
            if !c.confirmed then Some(c)
            else if s.current.Some? && s.current.value.openTime <= c.openTime
                    && (s.history == [] || Last(s.history).openTime < c.openTime) then None
            else s.current
  {
    assert c.confirmed ==> Last(Latest(s.history + [c], max)) == c;
  }

  // ---- the store ----

  class CandleStore {
    const max: nat
    var confirmed: map<Key, seq<Bar>>
    var current: map<Key, Bar>
    var gaps: map<Key, int>

    constructor (max: nat)
      ensures this.max == max && forall k :: At(k) == EMPTY
    {
      this.max := max;
      confirmed, current, gaps := map[], map[], map[];
    }

    function At(k: Key): Series
      reads this
    {
      Series(if k in confirmed then confirmed[k] else [], if k in gaps then gaps[k] else 0,
             if k in current then Some(current[k]) else None)
    }

    /** _count_gaps. */
    static method CountGapsOf(candles: seq<Bar>, interval: int) returns (missing: int)
      requires interval > 0
      ensures missing == CountGaps(candles, StepMs(interval))
    {
      if |candles| < 2 {
        return 0;
      }
      var step := StepMs(interval);
      missing := 0;
      for i := 1 to |candles|
        invariant missing == CountGaps(candles[..i], step)
      {
        assert candles[..i + 1][..i] == candles[..i];
        var gap := (candles[i].openTime - candles[i - 1].openTime) / step - 1;
        if gap > 0 {
          missing := missing + gap;
        }
      }
      assert candles[..|candles|] == candles;
    }

    /** The comprehension and the reversed search of seed, as one scan. */
    static method Split(candles: seq<Bar>) returns (closed: seq<Bar>, open: Option<Bar>)
      ensures closed == Confirmed(candles) && open == LastInProgress(candles)
    {
      closed, open := [], None;
      assert candles[..0] == [];
      for i := 0 to |candles|
        invariant closed == Confirmed(candles[..i]) && open == LastInProgress(candles[..i])
      {
        assert candles[..i + 1][..i] == candles[..i];
        if candles[i].confirmed {
          closed := closed + [candles[i]];
        } else {
          open := Some(candles[i]);
        }
      }
      assert candles[..|candles|] == candles;
    }

    method Seed(symbol: string, interval: int, candles: seq<Bar>)
      requires interval > 0
      modifies this
      ensures At(Key(symbol, interval)) == Seeded(candles, StepMs(interval), max)
      ensures forall k :: k != Key(symbol, interval) ==> At(k) == old(At(k))
    {
      var key := Key(symbol, interval);
      var closed, open := Split(candles);
      confirmed := confirmed[key := Latest(closed, max)];
      var missing := CountGapsOf(closed, interval);
      gaps := gaps[key := missing];
      if open.None? {
        current := current - {key};
      } else {
        current := current[key := open.value];
      }
    }

    method Update(c: Bar)
      requires c.interval > 0
      modifies this
      ensures At(KeyOf(c)) == Updated(old(At(KeyOf(c))), c, StepMs(c.interval), max)
      ensures forall k :: k != KeyOf(c) ==> At(k) == old(At(k))
    {
      var key := KeyOf(c);
      if !c.confirmed {
        current := current[key := c];
        return;
      }
      var history := if key in confirmed then confirmed[key] else [];
      if history != [] {
        var last := history[|history| - 1];
        if c.openTime == last.openTime {
          confirmed := confirmed[key := history[|history| - 1 := c]];
          return;
        }
        if c.openTime < last.openTime {
          return;
        }
        var gap := (c.openTime - last.openTime) / StepMs(c.interval) - 1;
        if gap > 0 {
          gaps := gaps[key := (if key in gaps then gaps[key] else 0) + gap];
        }
      }
      confirmed := confirmed[key := Latest(history + [c], max)];
      if key in current && current[key].openTime <= c.openTime {
        current := current - {key};
      }
    }
  }
}
