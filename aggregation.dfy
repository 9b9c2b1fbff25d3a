/**
  `calculateAverages`: the first pass groups the readings by equipment id and
  then by day key, appending each value to its bucket; the second pass
  replaces every bucket by the mean of its values. Both passes build fresh
  dictionaries and only read the input sequence.

  The outer dictionary is an unordered map: JavaScript enumerates array-index
  keys (an id such as "12") before other keys, so first-seen order is not
  what the outer level keeps. The inner dictionaries keep insertion order.
 */
module Aggregation {
  import opened OrderedObjects
  import opened Readings

  /**
    `grouped` is the `EquipmentGroup` of the readings `rs`: one entry per
    equipment id, whose days are its day keys in first-seen order and whose
    bucket for a day holds the values of its readings on that day.
   */
  ghost predicate GroupedFrom(grouped: map<string, DateGroup>, rs: seq<Reading>, dateKey: string -> string) {
    && (forall id :: id in grouped <==> id in EquipmentIds(rs))
    && forall id :: id in grouped ==> GroupOf(grouped[id], rs, dateKey, id)
  }

  /**
    The day group of one equipment, before and after filing a reading of it:
    `days` is `before` with the reading's day key added if it was new and the
    reading's value appended to that day's bucket.
   */
  ghost predicate Filed(before: DateGroup, r: Reading, dateKey: string -> string, days: DateGroup) {
    var date := dateKey(r.timestamp);
    && days.keys == (if date in before.entries then before.keys else before.keys + [date])
    && days.entries == before.entries[date := (if date in before.entries then before.entries[date] else []) + [r.value]]
  }

  /** `before` holds exactly the days and buckets of equipment `id` in `rs`. */
  ghost predicate GroupOf(before: DateGroup, rs: seq<Reading>, dateKey: string -> string, id: string) {
    && before.Valid()
    && before.keys == Days(rs, dateKey, id)
    && (forall day :: day in before.entries ==>
          before.entries[day] == Matching(rs, dateKey, id, day) && |before.entries[day]| > 0)
  }

  /** Filing a reading lists its day after the days already listed, if it is new. */
  lemma FileKeys(before: DateGroup, rs: seq<Reading>, r: Reading, dateKey: string -> string, days: DateGroup)
    requires GroupOf(before, rs, dateKey, r.equipmentId)
    requires Filed(before, r, dateKey, days)
    ensures days.keys == Days(rs + [r], dateKey, r.equipmentId)
  {
    var dks := DayKeysOf(rs, dateKey, r.equipmentId);
    DayKeysSnoc(rs, r, dateKey, r.equipmentId);
    FirstSeenSnoc(dks, dateKey(r.timestamp));
    assert dateKey(r.timestamp) in before.entries <==> dateKey(r.timestamp) in dks;
  }

  /** Filing a reading leaves every bucket equal to the values of its day, and non-empty. */
  lemma FileBucket(before: DateGroup, rs: seq<Reading>, r: Reading, dateKey: string -> string, days: DateGroup, day: string)
    requires GroupOf(before, rs, dateKey, r.equipmentId)
    requires Filed(before, r, dateKey, days)
    requires day in days.entries
    ensures days.entries[day] == Matching(rs + [r], dateKey, r.equipmentId, day)
    ensures |days.entries[day]| > 0
  {
    var date := dateKey(r.timestamp);
    MatchingSnoc(rs, r, dateKey, r.equipmentId, day);
    if day != date {
      assert day in before.entries;
    } else if date !in before.entries {
      DaysCoverReadings(rs, dateKey, r.equipmentId, date);
    }
  }

  /** Filing a reading into its equipment's group keeps the group exact. */
  lemma FileStep(before: DateGroup, rs: seq<Reading>, r: Reading, dateKey: string -> string, days: DateGroup)
    requires GroupOf(before, rs, dateKey, r.equipmentId)
    requires days.Valid() && Filed(before, r, dateKey, days)
    ensures GroupOf(days, rs + [r], dateKey, r.equipmentId)
  {
    FileKeys(before, rs, r, dateKey, days);
    forall day | day in days.entries
      ensures days.entries[day] == Matching(rs + [r], dateKey, r.equipmentId, day)
      ensures |days.entries[day]| > 0
    {
      FileBucket(before, rs, r, dateKey, days, day);
    }
  }

  /** Another equipment's reading leaves a group exact. */
  lemma OtherStep(before: DateGroup, rs: seq<Reading>, r: Reading, dateKey: string -> string, id: string)
    requires GroupOf(before, rs, dateKey, id)
    requires id != r.equipmentId
    ensures GroupOf(before, rs + [r], dateKey, id)
  {
    DayKeysSnoc(rs, r, dateKey, id);
    assert DayKeysOf(rs + [r], dateKey, id) == DayKeysOf(rs, dateKey, id);
    forall day | day in before.entries
      ensures before.entries[day] == Matching(rs + [r], dateKey, id, day)
    {
      MatchingSnoc(rs, r, dateKey, id, day);
    }
  }

  /** An equipment without readings yet has the empty group. */
  lemma EmptyGroup(rs: seq<Reading>, dateKey: string -> string, id: string)
    requires id !in EquipmentIds(rs)
    ensures GroupOf(Empty(), rs, dateKey, id)
  {
    NoReadingsNoDays(rs, dateKey, id);
  }

  /** Filing one more reading keeps the outer keys equal to the equipment ids. */
  lemma KeysStep(grouped: map<string, DateGroup>, rs: seq<Reading>, r: Reading, days: DateGroup)
    requires forall id :: id in grouped <==> id in EquipmentIds(rs)
    ensures forall id :: id in grouped[r.equipmentId := days] <==> id in EquipmentIds(rs + [r])
  {
    IdsSnoc(rs, r);
  }

  /** Filing a reading into its own equipment's group, new or existing, makes the group exact. */
  lemma OwnStep(grouped: map<string, DateGroup>, rs: seq<Reading>, r: Reading, dateKey: string -> string, days: DateGroup)
    requires r.equipmentId in grouped ==> GroupOf(grouped[r.equipmentId], rs, dateKey, r.equipmentId)
    requires r.equipmentId !in grouped ==> r.equipmentId !in EquipmentIds(rs)
    requires days.Valid()
    requires Filed(if r.equipmentId in grouped then grouped[r.equipmentId] else Empty(), r, dateKey, days)
    ensures GroupOf(days, rs + [r], dateKey, r.equipmentId)
  {
    if r.equipmentId in grouped {
      FileStep(grouped[r.equipmentId], rs, r, dateKey, days);
    } else {
      EmptyGroup(rs, dateKey, r.equipmentId);
      FileStep(Empty(), rs, r, dateKey, days);
    }
  }

  /** Filing one more reading into its equipment's group keeps every group exact. */
  lemma GroupsStep(grouped: map<string, DateGroup>, rs: seq<Reading>, r: Reading, dateKey: string -> string,
                   days: DateGroup, filed: map<string, DateGroup>)
    requires filed == grouped[r.equipmentId := days]
    requires forall id :: id in grouped ==> GroupOf(grouped[id], rs, dateKey, id)
    requires r.equipmentId !in grouped ==> r.equipmentId !in EquipmentIds(rs)
    requires days.Valid()
    requires Filed(if r.equipmentId in grouped then grouped[r.equipmentId] else Empty(), r, dateKey, days)
    ensures forall id :: id in filed ==> GroupOf(filed[id], rs + [r], dateKey, id)
  {
    OwnStep(grouped, rs, r, dateKey, days);
    forall id | id in filed
      ensures GroupOf(filed[id], rs + [r], dateKey, id)
    {
      if id != r.equipmentId {
        OtherStep(grouped[id], rs, r, dateKey, id);
      }
    }
  }

  /** Filing one more reading into its equipment's group keeps `GroupedFrom`. */
  lemma GroupStep(grouped: map<string, DateGroup>, rs: seq<Reading>, r: Reading, dateKey: string -> string, days: DateGroup)
    requires GroupedFrom(grouped, rs, dateKey)
    requires days.Valid()
    requires Filed(if r.equipmentId in grouped then grouped[r.equipmentId] else Empty(), r, dateKey, days)
    ensures GroupedFrom(grouped[r.equipmentId := days], rs + [r], dateKey)
  {
    KeysStep(grouped, rs, r, days);
    GroupsStep(grouped, rs, r, dateKey, days, grouped[r.equipmentId := days]);
  }

  /** The first `i + 1` readings are the first `i` and then reading `i`. */
  lemma PrefixSnoc(rs: seq<Reading>, i: nat)
    requires i < |rs|
    ensures rs[..i + 1] == rs[..i] + [rs[i]]
  {
  }

  /**
    The callback of the first `reduce`: file one reading under its equipment
    id and day key, creating the equipment's group and the day's bucket when
    they are missing, then append the value to the bucket.
   */
  method FileReading(grouped: map<string, DateGroup>, reading: Reading, dateKey: string -> string)
    returns (filed: map<string, DateGroup>)
    requires reading.equipmentId in grouped ==> grouped[reading.equipmentId].Valid()
    ensures reading.equipmentId in filed
    ensures filed == grouped[reading.equipmentId := filed[reading.equipmentId]]
    ensures filed[reading.equipmentId].Valid()
    ensures Filed(if reading.equipmentId in grouped then grouped[reading.equipmentId] else Empty(),
                  reading, dateKey, filed[reading.equipmentId])
  {
    var date := dateKey(reading.timestamp);
    filed := grouped;
    if reading.equipmentId !in filed {
      filed := filed[reading.equipmentId := Empty()];
    }
    var days := filed[reading.equipmentId];
    if date !in days.entries {
      days := days.Put(date, []);
    }
    days := days.Put(date, days.entries[date] + [reading.value]);
    filed := filed[reading.equipmentId := days];
  }

  /** The first pass, the `data.reduce` that builds the `EquipmentGroup`. */
  method GroupReadings(rs: seq<Reading>, dateKey: string -> string) returns (grouped: map<string, DateGroup>)
    ensures grouped.Keys == EquipmentIds(rs)
    ensures forall id :: id in grouped ==>
              grouped[id].Valid() && grouped[id].keys == Days(rs, dateKey, id)
    ensures forall id, day :: id in grouped && day in grouped[id].entries ==>
              grouped[id].entries[day] == Matching(rs, dateKey, id, day)
              && |grouped[id].entries[day]| > 0
  {
    grouped := map[];
    var i := 0;
    while i < |rs|
      invariant 0 <= i <= |rs|
      invariant GroupedFrom(grouped, rs[..i], dateKey)
    {
      var next := FileReading(grouped, rs[i], dateKey);
      GroupStep(grouped, rs[..i], rs[i], dateKey, next[rs[i].equipmentId]);
      PrefixSnoc(rs, i);
      grouped := next;
      i := i + 1;
    }
    assert rs[..i] == rs;
  }

  /** The inner `reduce` over one equipment's days: each bucket becomes its mean. */
  method AverageDays(days: DateGroup) returns (means: DayAverages)
    requires days.Valid()
    requires forall day :: day in days.entries ==> |days.entries[day]| > 0
    ensures means.Valid() && means.keys == days.keys
    ensures forall day :: day in means.entries ==> means.entries[day] == Mean(days.entries[day])
  {
    means := Empty();
    var j := 0;
    while j < |days.keys|
      invariant 0 <= j <= |days.keys|
      invariant means.Valid() && means.keys == days.keys[..j]
      invariant forall day :: day in means.entries ==>
                  day in days.entries && means.entries[day] == Mean(days.entries[day])
    {
      var date := days.keys[j];
      var values := days.entries[date];
      means := means.Put(date, Sum(values) / (|values| as real));
      assert days.keys[..j + 1] == days.keys[..j] + [date];
      j := j + 1;
    }
  }

  /** The outer `reduce` over `Object.keys(grouped)`. */
  method AverageAll(grouped: map<string, DateGroup>) returns (avgs: map<string, DayAverages>)
    requires forall id :: id in grouped ==> grouped[id].Valid()
    requires forall id, day :: id in grouped && day in grouped[id].entries ==> |grouped[id].entries[day]| > 0
    ensures avgs.Keys == grouped.Keys
    ensures forall id :: id in avgs ==> avgs[id].Valid() && avgs[id].keys == grouped[id].keys
    ensures forall id, day :: id in avgs && day in avgs[id].entries ==>
              day in grouped[id].entries && avgs[id].entries[day] == Mean(grouped[id].entries[day])
  {
    avgs := map[];
    var pending := grouped.Keys;
    while pending != {}
      invariant pending <= grouped.Keys
      invariant avgs.Keys == grouped.Keys - pending
      invariant forall id :: id in avgs ==> avgs[id].Valid() && avgs[id].keys == grouped[id].keys
      invariant forall id, day :: id in avgs && day in avgs[id].entries ==>
                  day in grouped[id].entries && avgs[id].entries[day] == Mean(grouped[id].entries[day])
      decreases pending
    {
      var equipId :| equipId in pending;
      var means := AverageDays(grouped[equipId]);
      avgs := avgs[equipId := means];
      pending := pending - {equipId};
    }
  }

  /**
    `calculateAverages(data)`: the table whose outer keys are exactly the
    equipment ids of the readings, whose inner keys for an id are exactly the
    day keys of its readings in first-seen order, and whose value at (id, day)
    is the mean of the values of the readings of that id on that day.
   */
  method CalculateAverages(rs: seq<Reading>, dateKey: string -> string) returns (avgs: map<string, DayAverages>)
    ensures avgs.Keys == EquipmentIds(rs)
    ensures forall id :: id in avgs ==> avgs[id].Valid() && avgs[id].keys == Days(rs, dateKey, id)
    ensures forall id, day :: id in avgs && day in avgs[id].entries ==>
              |Matching(rs, dateKey, id, day)| > 0
              && avgs[id].entries[day] == Mean(Matching(rs, dateKey, id, day))
    ensures rs == [] ==> avgs == map[]
  {
    var grouped := GroupReadings(rs, dateKey);
    avgs := AverageAll(grouped);
  }
}
