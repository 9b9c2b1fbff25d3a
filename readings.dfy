/**
  The telemetry readings the dashboard fetches, the shapes its aggregation
  builds from them, and the reference definitions the aggregation is proved
  against: which day keys each equipment has, which values fall into each
  (equipment, day) bucket, and the mean of a bucket.

  The day key of a reading is `dayjs(timestamp).format("YYYY-MM-DD")`; it is
  a parameter `dateKey` here, so nothing below depends on calendar arithmetic
  or on the runtime's time zone. Day keys are taken never to be array indexes
  and never to name a property inherited from `Object.prototype` (neither
  "YYYY-MM-DD" nor "Invalid Date" is either), so a day group lists its days
  in insertion order and a day is missing exactly when it is not an own key.
 */
module Readings {
  import opened OrderedObjects

  /** One reading: `EquipmentDataProps` (`value` is a JavaScript number). */
  datatype Reading = Reading(equipmentId: string, timestamp: string, value: real)

  /** `DateGroup`: day key to the values of that day, in insertion order. */
  type DateGroup = OrderedMap<seq<real>>

  /** The inner object of `Averages`: day key to the mean of that day. */
  type DayAverages = OrderedMap<real>

  /** The equipment ids that occur in the readings. */
  function EquipmentIds(rs: seq<Reading>): (ids: set<string>) {
    set r | r in rs :: r.equipmentId
  }

  /** The equipment id of every reading, in input order. */
  function IdsOf(rs: seq<Reading>): (ids: seq<string>) {
    seq(|rs|, i requires 0 <= i < |rs| => rs[i].equipmentId)
  }

  /** The day key of every reading of equipment `id`, in input order. */
  function DayKeysOf(rs: seq<Reading>, dateKey: string -> string, id: string): (dks: seq<string>) {
    if |rs| == 0 then []
    else
      var r := rs[|rs| - 1];
      DayKeysOf(rs[..|rs| - 1], dateKey, id) + (if r.equipmentId == id then [dateKey(r.timestamp)] else [])
  }

  /** The values of the readings of equipment `id` on day `day`, in input order. */
  function Matching(rs: seq<Reading>, dateKey: string -> string, id: string, day: string): (vs: seq<real>) {
    if |rs| == 0 then []
    else
      var r := rs[|rs| - 1];
      Matching(rs[..|rs| - 1], dateKey, id, day)
        + (if r.equipmentId == id && dateKey(r.timestamp) == day then [r.value] else [])
  }

  /** The day keys of equipment `id`, each once, in the order first seen. */
  function Days(rs: seq<Reading>, dateKey: string -> string, id: string): (days: seq<string>) {
    FirstSeen(DayKeysOf(rs, dateKey, id))
  }

  /** The fold of a bucket by addition, left to right, from the initial value 0: a bucket of one value sums to it. */
  function Sum(vs: seq<real>): (s: real)
    ensures |vs| == 0 ==> s == 0.0
    ensures |vs| == 1 ==> s == vs[0]
  {
    if |vs| == 0 then 0.0 else Sum(vs[..|vs| - 1]) + vs[|vs| - 1]
  }

  /** The arithmetic mean: the value that, taken once per element, gives the sum. Only a non-empty bucket has one. */
  function Mean(vs: seq<real>): (m: real)
    requires |vs| > 0
    ensures m * (|vs| as real) == Sum(vs)
  {
    Sum(vs) / (|vs| as real)
  }

  /** Non-negative values have a non-negative sum. */
  lemma {:induction false} SumNonNegative(vs: seq<real>)
    requires forall i :: 0 <= i < |vs| ==> 0.0 <= vs[i]
    ensures 0.0 <= Sum(vs)
  {
    if |vs| > 0 {
      var init := vs[..|vs| - 1];
      assert forall i :: 0 <= i < |init| ==> init[i] == vs[i];
      SumNonNegative(init);
    }
  }

  /** The fold splits over concatenation: a bucket's sum is the sum of its parts. */
  lemma {:induction false} SumAppend(xs: seq<real>, ys: seq<real>)
    ensures Sum(xs + ys) == Sum(xs) + Sum(ys)
  {
    if |ys| == 0 {
      assert xs + ys == xs;
    } else {
      var init := ys[..|ys| - 1];
      assert (xs + ys)[..|xs + ys| - 1] == xs + init;
      SumAppend(xs, init);
    }
  }

  /** One more reading adds its day key to its own equipment's day keys only. */
  lemma DayKeysSnoc(rs: seq<Reading>, r: Reading, dateKey: string -> string, id: string)
    ensures DayKeysOf(rs + [r], dateKey, id)
      == DayKeysOf(rs, dateKey, id) + (if r.equipmentId == id then [dateKey(r.timestamp)] else [])
  {
    assert (rs + [r])[..|rs|] == rs;
  }

  /** One more reading adds its value to its own bucket only. */
  lemma MatchingSnoc(rs: seq<Reading>, r: Reading, dateKey: string -> string, id: string, day: string)
    ensures Matching(rs + [r], dateKey, id, day)
      == Matching(rs, dateKey, id, day) + (if r.equipmentId == id && dateKey(r.timestamp) == day then [r.value] else [])
  {
    assert (rs + [r])[..|rs|] == rs;
  }

  lemma IdsSnoc(rs: seq<Reading>, r: Reading)
    ensures EquipmentIds(rs + [r]) == EquipmentIds(rs) + {r.equipmentId}
    ensures IdsOf(rs + [r]) == IdsOf(rs) + [r.equipmentId]
  {
    assert forall x :: x in rs + [r] <==> x in rs || x == r;
  }

  /** A day key belongs to an equipment exactly when some reading of it falls on that day. */
  lemma {:induction false} DayKeysOfMembers(rs: seq<Reading>, dateKey: string -> string, id: string, day: string)
    ensures day in DayKeysOf(rs, dateKey, id)
      <==> exists r :: r in rs && r.equipmentId == id && dateKey(r.timestamp) == day
  {
    if |rs| > 0 {
      var init, r := rs[..|rs| - 1], rs[|rs| - 1];
      assert rs == init + [r];
      DayKeysOfMembers(init, dateKey, id, day);
      DayKeysSnoc(init, r, dateKey, id);
    }
  }

  /** A bucket holds one value per reading of its equipment on its day. */
  lemma {:induction false} MatchingLength(rs: seq<Reading>, dateKey: string -> string, id: string, day: string)
    ensures |Matching(rs, dateKey, id, day)| == Count(DayKeysOf(rs, dateKey, id), day)
  {
    if |rs| > 0 {
      var init, r := rs[..|rs| - 1], rs[|rs| - 1];
      assert rs == init + [r];
      MatchingLength(init, dateKey, id, day);
      DayKeysSnoc(init, r, dateKey, id);
      MatchingSnoc(init, r, dateKey, id, day);
      if r.equipmentId == id {
        CountSnoc(DayKeysOf(init, dateKey, id), dateKey(r.timestamp), day);
      } else {
        assert DayKeysOf(rs, dateKey, id) == DayKeysOf(init, dateKey, id);
        assert Matching(rs, dateKey, id, day) == Matching(init, dateKey, id, day);
      }
    }
  }

  /** An equipment has one day key per reading. */
  lemma {:induction false} DayKeysOfLength(rs: seq<Reading>, dateKey: string -> string, id: string)
    ensures |DayKeysOf(rs, dateKey, id)| == Count(IdsOf(rs), id)
  {
    if |rs| > 0 {
      var init, r := rs[..|rs| - 1], rs[|rs| - 1];
      assert rs == init + [r];
      DayKeysOfLength(init, dateKey, id);
      DayKeysSnoc(init, r, dateKey, id);
      IdsSnoc(init, r);
      CountSnoc(IdsOf(init), r.equipmentId, id);
    }
  }

  /**
    The day keys of an equipment are exactly the days of its readings, and
    each has a non-empty bucket, so averaging never divides by zero.
   */
  lemma DaysCoverReadings(rs: seq<Reading>, dateKey: string -> string, id: string, day: string)
    ensures day in Days(rs, dateKey, id)
      <==> exists r :: r in rs && r.equipmentId == id && dateKey(r.timestamp) == day
    ensures day in Days(rs, dateKey, id) <==> |Matching(rs, dateKey, id, day)| > 0
  {
    DayKeysOfMembers(rs, dateKey, id, day);
    MatchingLength(rs, dateKey, id, day);
    CountPositive(DayKeysOf(rs, dateKey, id), day);
  }

  /** An equipment with no readings has no days. */
  lemma {:induction false} NoReadingsNoDays(rs: seq<Reading>, dateKey: string -> string, id: string)
    requires id !in EquipmentIds(rs)
    ensures DayKeysOf(rs, dateKey, id) == []
  {
    if |rs| > 0 {
      var init, r := rs[..|rs| - 1], rs[|rs| - 1];
      assert rs == init + [r];
      DayKeysSnoc(init, r, dateKey, id);
      IdsSnoc(init, r);
      NoReadingsNoDays(init, dateKey, id);
    }
  }

  /** Days are listed in the order in which the equipment's readings first reach them. */
  lemma DaysInFirstSeenOrder(rs: seq<Reading>, dateKey: string -> string, id: string, i: nat, j: nat)
    requires i < j < |Days(rs, dateKey, id)|
    ensures FirstIndex(DayKeysOf(rs, dateKey, id), Days(rs, dateKey, id)[i])
          < FirstIndex(DayKeysOf(rs, dateKey, id), Days(rs, dateKey, id)[j])
  {
    FirstSeenOrder(DayKeysOf(rs, dateKey, id));
  }

  /** The sum of the bucket sizes of equipment `id` over the days `days`. */
  function BucketSizes(rs: seq<Reading>, dateKey: string -> string, id: string, days: seq<string>): nat {
    if |days| == 0 then 0
    else BucketSizes(rs, dateKey, id, days[..|days| - 1]) + |Matching(rs, dateKey, id, days[|days| - 1])|
  }

  /** The sum, over the equipment ids `ids`, of the sizes of all their buckets. */
  function GroupSize(rs: seq<Reading>, dateKey: string -> string, ids: seq<string>): nat {
    if |ids| == 0 then 0
    else
      var id := ids[|ids| - 1];
      GroupSize(rs, dateKey, ids[..|ids| - 1]) + BucketSizes(rs, dateKey, id, Days(rs, dateKey, id))
  }

  lemma {:induction false} BucketSizesAreCounts(rs: seq<Reading>, dateKey: string -> string, id: string, days: seq<string>)
    ensures BucketSizes(rs, dateKey, id, days) == CountAll(DayKeysOf(rs, dateKey, id), days)
  {
    if |days| > 0 {
      BucketSizesAreCounts(rs, dateKey, id, days[..|days| - 1]);
      MatchingLength(rs, dateKey, id, days[|days| - 1]);
    }
  }

  lemma {:induction false} GroupSizeIsCounts(rs: seq<Reading>, dateKey: string -> string, ids: seq<string>)
    ensures GroupSize(rs, dateKey, ids) == CountAll(IdsOf(rs), ids)
  {
    if |ids| > 0 {
      var id := ids[|ids| - 1];
      GroupSizeIsCounts(rs, dateKey, ids[..|ids| - 1]);
      BucketSizesAreCounts(rs, dateKey, id, Days(rs, dateKey, id));
      FirstSeenCountsAll(DayKeysOf(rs, dateKey, id));
      DayKeysOfLength(rs, dateKey, id);
    }
  }

  /** The listed ids are exactly the ids of the readings. */
  lemma IdListCoversIds(rs: seq<Reading>)
    ensures forall id :: id in IdsOf(rs) <==> id in EquipmentIds(rs)
  {
    forall id | id in EquipmentIds(rs)
      ensures id in IdsOf(rs)
    {
      var r :| r in rs && r.equipmentId == id;
      var i :| 0 <= i < |rs| && rs[i] == r;
      assert IdsOf(rs)[i] == id;
    }
  }

  /**
    Grouping neither drops nor duplicates a reading: over all equipment ids
    and all their days, the bucket sizes add up to the number of readings.
   */
  lemma GroupingKeepsEveryReading(rs: seq<Reading>, dateKey: string -> string)
    ensures forall id :: id in FirstSeen(IdsOf(rs)) <==> id in EquipmentIds(rs)
    ensures GroupSize(rs, dateKey, FirstSeen(IdsOf(rs))) == |rs|
  {
    IdListCoversIds(rs);
    GroupSizeIsCounts(rs, dateKey, FirstSeen(IdsOf(rs)));
    FirstSeenCountsAll(IdsOf(rs));
  }

  /** Adding one value in [lo, hi] to a total of n such values gives a total of n + 1 of them. */
  lemma BoundsStep(total: real, x: real, n: real, lo: real, hi: real)
    requires n * lo <= total <= n * hi && lo <= x <= hi
    ensures (n + 1.0) * lo <= total + x <= (n + 1.0) * hi
  {
  }

  lemma {:induction false} SumBounds(vs: seq<real>, lo: real, hi: real)
    requires forall i :: 0 <= i < |vs| ==> lo <= vs[i] <= hi
    ensures (|vs| as real) * lo <= Sum(vs) <= (|vs| as real) * hi
  {
    if |vs| > 0 {
      var init := vs[..|vs| - 1];
      assert forall i :: 0 <= i < |init| ==> init[i] == vs[i];
      SumBounds(init, lo, hi);
      BoundsStep(Sum(init), vs[|vs| - 1], |init| as real, lo, hi);
    }
  }

  /** A mean lies between the smallest and the largest value averaged. */
  lemma MeanWithinBounds(vs: seq<real>, lo: real, hi: real)
    requires |vs| > 0
    requires forall i :: 0 <= i < |vs| ==> lo <= vs[i] <= hi
    ensures lo <= Mean(vs) <= hi
  {
    SumBounds(vs, lo, hi);
    var n := |vs| as real;
    assert Mean(vs) * n == Sum(vs);
  }

  /** A single reading is averaged to its own value. */
  lemma SingleReadingAverage(r: Reading, dateKey: string -> string)
    ensures Days([r], dateKey, r.equipmentId) == [dateKey(r.timestamp)]
    ensures Matching([r], dateKey, r.equipmentId, dateKey(r.timestamp)) == [r.value]
    ensures Mean([r.value]) == r.value
  {
    DayKeysSnoc([], r, dateKey, r.equipmentId);
    MatchingSnoc([], r, dateKey, r.equipmentId, dateKey(r.timestamp));
    FirstSeenSnoc([], dateKey(r.timestamp));
    assert [r] == [] + [r];
    assert [dateKey(r.timestamp)] == [] + [dateKey(r.timestamp)];
    assert [r.value][..0] == [];
    assert Sum([r.value]) == r.value;
  }

  /**
    The readings of the dashboard scenario below: two readings of equipment
    `a` at times `t1` and `t2`, then one reading of equipment `b` at `t3`.
   */
  function ScenarioReadings(a: string, b: string, t1: string, t2: string, t3: string): seq<Reading> {
    [Reading(a, t1, 10.0), Reading(a, t2, 20.0), Reading(b, t3, 5.0)]
  }

  /** The scenario's shape: distinct ids, the first two readings on day `d1`, the third on another day `d2`. */
  ghost predicate ScenarioShape(dateKey: string -> string, a: string, b: string, t1: string, t2: string, t3: string,
                                d1: string, d2: string) {
    && a != b && d1 != d2
    && dateKey(t1) == d1 && dateKey(t2) == d1 && dateKey(t3) == d2
  }

  /** The day keys of each scenario equipment, one per reading. */
  lemma ScenarioDayKeys(dateKey: string -> string, a: string, b: string, t1: string, t2: string, t3: string,
                        d1: string, d2: string)
    requires ScenarioShape(dateKey, a, b, t1, t2, t3, d1, d2)
    ensures DayKeysOf(ScenarioReadings(a, b, t1, t2, t3), dateKey, a) == [d1, d1]
    ensures DayKeysOf(ScenarioReadings(a, b, t1, t2, t3), dateKey, b) == [d2]
  {
    var rs := ScenarioReadings(a, b, t1, t2, t3);
    var r1, r2, r3 := rs[0], rs[1], rs[2];
    assert [r1] == [] + [r1] && [r1, r2] == [r1] + [r2] && rs == [r1, r2] + [r3];
    DayKeysSnoc([], r1, dateKey, a);
    DayKeysSnoc([r1], r2, dateKey, a);
    DayKeysSnoc([r1, r2], r3, dateKey, a);
    DayKeysSnoc([], r1, dateKey, b);
    DayKeysSnoc([r1], r2, dateKey, b);
    DayKeysSnoc([r1, r2], r3, dateKey, b);
  }

  /** The buckets of the scenario, in input order. */
  lemma ScenarioBuckets(dateKey: string -> string, a: string, b: string, t1: string, t2: string, t3: string,
                        d1: string, d2: string)
    requires ScenarioShape(dateKey, a, b, t1, t2, t3, d1, d2)
    ensures Matching(ScenarioReadings(a, b, t1, t2, t3), dateKey, a, d1) == [10.0, 20.0]
    ensures Matching(ScenarioReadings(a, b, t1, t2, t3), dateKey, b, d2) == [5.0]
  {
    var rs := ScenarioReadings(a, b, t1, t2, t3);
    var r1, r2, r3 := rs[0], rs[1], rs[2];
    assert [r1] == [] + [r1] && [r1, r2] == [r1] + [r2] && rs == [r1, r2] + [r3];
    MatchingSnoc([], r1, dateKey, a, d1);
    MatchingSnoc([r1], r2, dateKey, a, d1);
    MatchingSnoc([r1, r2], r3, dateKey, a, d1);
    MatchingSnoc([], r1, dateKey, b, d2);
    MatchingSnoc([r1], r2, dateKey, b, d2);
    MatchingSnoc([r1, r2], r3, dateKey, b, d2);
  }

  /** A day reached twice is listed once. */
  lemma FirstSeenTwice(d: string)
    ensures FirstSeen([d, d]) == [d]
  {
    assert [d] == [] + [d] && [d, d] == [d] + [d];
    FirstSeenSnoc([], d);
    FirstSeenSnoc([d], d);
  }

  /** The equipment ids of the scenario. */
  lemma ScenarioIds(a: string, b: string, t1: string, t2: string, t3: string)
    ensures EquipmentIds(ScenarioReadings(a, b, t1, t2, t3)) == {a, b}
  {
    var rs := ScenarioReadings(a, b, t1, t2, t3);
    var r1, r2, r3 := rs[0], rs[1], rs[2];
    assert [r1] == [] + [r1] && [r1, r2] == [r1] + [r2] && rs == [r1, r2] + [r3];
    IdsSnoc([], r1);
    IdsSnoc([r1], r2);
    IdsSnoc([r1, r2], r3);
  }

  /** The means of the scenario's two buckets. */
  lemma ScenarioMeans()
    ensures Mean([10.0, 20.0]) == 15.0
    ensures Mean([5.0]) == 5.0
  {
    assert [10.0, 20.0][..1] == [10.0] && [10.0][..0] == [];
    assert Sum([10.0, 20.0]) == 30.0;
    assert [5.0][..0] == [];
    assert Sum([5.0]) == 5.0;
  }

  /**
    Two readings of equipment `a` (values 10 and 20) on one day and one of a
    different equipment `b` (value 5) on another day: `a` has that one day,
    with mean 15, and `b` has its own day, with mean 5.
   */
  lemma DashboardScenario(dateKey: string -> string, a: string, b: string, t1: string, t2: string, t3: string,
                          d1: string, d2: string)
    requires ScenarioShape(dateKey, a, b, t1, t2, t3, d1, d2)
    ensures EquipmentIds(ScenarioReadings(a, b, t1, t2, t3)) == {a, b}
    ensures Days(ScenarioReadings(a, b, t1, t2, t3), dateKey, a) == [d1]
    ensures Matching(ScenarioReadings(a, b, t1, t2, t3), dateKey, a, d1) == [10.0, 20.0]
    ensures Mean(Matching(ScenarioReadings(a, b, t1, t2, t3), dateKey, a, d1)) == 15.0
    ensures Days(ScenarioReadings(a, b, t1, t2, t3), dateKey, b) == [d2]
    ensures Matching(ScenarioReadings(a, b, t1, t2, t3), dateKey, b, d2) == [5.0]
    ensures Mean(Matching(ScenarioReadings(a, b, t1, t2, t3), dateKey, b, d2)) == 5.0
  {
    ScenarioIds(a, b, t1, t2, t3);
    ScenarioDayKeys(dateKey, a, b, t1, t2, t3, d1, d2);
    ScenarioBuckets(dateKey, a, b, t1, t2, t3, d1, d2);
    FirstSeenTwice(d1);
    assert [d2] == [] + [d2];
    FirstSeenSnoc([], d2);
    ScenarioMeans();
  }
}
