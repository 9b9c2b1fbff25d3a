# Equipment averages of the payload dashboard

The dashboard fetches telemetry readings. Each reading has an equipment id, a
timestamp and a numeric value. `calculateAverages` turns the readings into a
table of daily means per equipment. It makes two passes:

1. A `reduce` groups the readings. It files each one under its equipment id,
   then under its day key (`dayjs(timestamp).format("YYYY-MM-DD")`), and
   appends the value to that bucket. The result is an `EquipmentGroup`.
2. Two nested `reduce`s over `Object.keys` replace every bucket by the mean of
   its values. The result is the `Averages` table.

The model has four modules:

- `OrderedObjects`: a plain JavaScript object used as a dictionary. Its own
  keys are kept in insertion order, and `Put` has the semantics of
  assignment. It also defines `FirstSeen`, which gives the keys that a run of
  assignments leaves behind.
- `Readings`: the reading record and the `DateGroup` and `Averages` shapes. It
  also holds the reference definitions the code is proved against, with
  their lemmas:
  - `DayKeysOf`, `Days` and `Matching` say which days and which values belong
    to each equipment.
  - `Sum` and `Mean` compute the averages.
- `Aggregation`: the two passes as methods with loops, proved against the
  reference definitions. `CalculateAverages` composes them.
- `PrototypeKeys`: the outer-key test as written, and the equipment ids it
  loses (see Findings).

The day key is a parameter `dateKey: string -> string`. Time zones and
calendar arithmetic therefore stay outside the model. The outer level of both
tables is an unordered `map`, because JavaScript lists array-index keys
(an id such as `"12"`) before all other keys. The inner level keeps its
insertion order, so every equipment's days are listed in the order the
readings first reach them.

## Model

| member | source | states |
|---|---|---|
| OrderedObjects.OrderedMap.Put | payload-front/src/App.tsx:46-49 | assigning to an object sets the key's value; an existing key keeps its place, a new key is appended to the key order; a valid object stays valid |
| OrderedObjects.Empty | payload-front/src/App.tsx:46 | the literal `{}` of a new day group (line 46) and of a new row of means (line 60) has no keys and is a valid object |
| OrderedObjects.FirstSeen | payload-front/src/App.tsx:56 | the keys left by a run of assignments have no repetitions and are exactly the assigned keys |
| OrderedObjects.FirstSeenSnoc | payload-front/src/App.tsx:48-49 | one more assignment extends the key order by its key exactly when that key is new |
| OrderedObjects.CountPositive | payload-front/src/App.tsx:48-51 | a key occurs at least once exactly when it is present |
| OrderedObjects.CountDistinct | payload-front/src/App.tsx:56 | in a key list without repetitions every key occurs once |
| OrderedObjects.CountAllSnoc | payload-front/src/App.tsx:51 | one more element adds one to the per-key total once for each time its key is listed |
| OrderedObjects.FirstSeenCountsAll | payload-front/src/App.tsx:43-53 | the per-key counts over the distinct keys add up to the length of the sequence |
| OrderedObjects.FirstSeenOrder | payload-front/src/App.tsx:56 | keys listed earlier were first assigned earlier |
| Readings.DayKeysSnoc | payload-front/src/App.tsx:44-51 | a reading adds its day key to its own equipment's day keys and to no other |
| Readings.MatchingSnoc | payload-front/src/App.tsx:51 | a reading adds its value to its own (equipment, day) bucket and to no other |
| Readings.IdsSnoc | payload-front/src/App.tsx:45-46 | a reading adds its own equipment id to the ids seen |
| Readings.DayKeysOfMembers | payload-front/src/App.tsx:44-49 | a day belongs to an equipment exactly when some reading of that equipment falls on it |
| Readings.MatchingLength | payload-front/src/App.tsx:51 | a bucket holds one value per reading of its equipment on its day |
| Readings.DayKeysOfLength | payload-front/src/App.tsx:44 | an equipment has one day key per reading of it |
| Readings.DaysCoverReadings | payload-front/src/App.tsx:48-51 | the days of an equipment are exactly the days of its readings, and a day is listed exactly when its bucket is non-empty, so line 58 never divides by zero |
| Readings.NoReadingsNoDays | payload-front/src/App.tsx:45-46 | an equipment without readings has no days |
| Readings.DaysInFirstSeenOrder | payload-front/src/App.tsx:56 | an equipment's days are listed in the order its readings first reach them |
| Readings.BucketSizesAreCounts | payload-front/src/App.tsx:48-51 | the bucket sizes of an equipment over a list of days equal the counts of those days among its readings |
| Readings.GroupSizeIsCounts | payload-front/src/App.tsx:43-53 | the bucket sizes over a list of ids equal the counts of those ids among the readings |
| Readings.IdListCoversIds | payload-front/src/App.tsx:45-46 | the ids listed in input order are exactly the ids of the readings, the outer keys `GroupReadings` produces |
| Readings.GroupingKeepsEveryReading | payload-front/src/App.tsx:43-53 | the first-seen ids are exactly the ids of the readings (the outer keys of `GroupReadings`), and over all of them and all their days the bucket sizes add up to the number of readings, so grouping neither drops nor duplicates a reading |
| Readings.Sum | payload-front/src/App.tsx:58 | the fold `values.reduce((a, b) => a + b, 0)` starts from 0: an empty bucket sums to 0 and a bucket of one value sums to that value |
| Readings.SumNonNegative | payload-front/src/App.tsx:58 | non-negative values have a non-negative sum |
| Readings.SumAppend | payload-front/src/App.tsx:58 | the fold splits over concatenation: the sum of a bucket is the sum of its parts |
| Readings.Mean | payload-front/src/App.tsx:58 | the sum divided by `values.length`: the mean times the number of values gives back the sum |
| Readings.SumBounds | payload-front/src/App.tsx:58 | if every value lies in [lo, hi], the sum of n values lies in [n*lo, n*hi] |
| Readings.MeanWithinBounds | payload-front/src/App.tsx:58 | a daily mean lies between the smallest and the largest value averaged |
| Readings.SingleReadingAverage | payload-front/src/App.tsx:42-62 | a single reading gives its equipment one day, whose bucket is its value and whose mean is that value |
| Readings.ScenarioDayKeys | payload-front/src/App.tsx:44 | in the scenario (two readings of `a` on day `d1`, then one of a different `b` on another day `d2`), `a` gets one day key per reading and `b` gets one |
| Readings.ScenarioBuckets | payload-front/src/App.tsx:48-51 | the scenario's two readings of `a` share one bucket, in input order, and the reading of `b` has a bucket of its own |
| Readings.FirstSeenTwice | payload-front/src/App.tsx:48-49 | a day reached twice is listed once |
| Readings.ScenarioIds | payload-front/src/App.tsx:45-46 | the scenario's equipment ids are `a` and `b` |
| Readings.ScenarioMeans | payload-front/src/App.tsx:58 | the scenario's buckets average to 15 and 5 |
| Readings.DashboardScenario | payload-front/src/App.tsx:42-62 | readings a:10 and a:20 on one day and b:5 on another give `a` that one day with bucket [10, 20] and mean 15, and `b` its own day with bucket [5] and mean 5 |
| Aggregation.FileKeys | payload-front/src/App.tsx:48-49 | filing a reading lists its day after the equipment's days, if it is new, so the days stay in first-seen order |
| Aggregation.FileBucket | payload-front/src/App.tsx:48-51 | after filing a reading, every bucket of its equipment holds exactly the values of that day and is non-empty |
| Aggregation.FileStep | payload-front/src/App.tsx:48-51 | filing a reading into its own equipment's group keeps the group equal to the reference days and buckets |
| Aggregation.OtherStep | payload-front/src/App.tsx:45-51 | another equipment's reading leaves a group exact |
| Aggregation.EmptyGroup | payload-front/src/App.tsx:45-46 | a newly created group is exact for an equipment with no readings yet |
| Aggregation.OwnStep | payload-front/src/App.tsx:45-51 | filing a reading into its equipment's group, created if missing, makes that group exact for the longer input |
| Aggregation.KeysStep | payload-front/src/App.tsx:45-46 | filing one more reading keeps the outer keys equal to the equipment ids seen |
| Aggregation.GroupsStep | payload-front/src/App.tsx:45-51 | filing one more reading keeps every equipment's group exact |
| Aggregation.GroupStep | payload-front/src/App.tsx:43-53 | filing one more reading keeps the whole `EquipmentGroup` equal to the reference grouping of the longer input |
| Aggregation.FileReading | payload-front/src/App.tsx:44-52 | the reduce callback changes only its reading's equipment entry; the reading's day is added if new and its value is appended to that day's bucket |
| Aggregation.GroupReadings | payload-front/src/App.tsx:43-53 | the outer keys are exactly the ids of the readings; each id's days are the days of its readings in first-seen order; each bucket holds, in input order, the values of that id's readings on that day, and is never empty |
| Aggregation.AverageDays | payload-front/src/App.tsx:56-60 | the inner reduce keeps the day order and maps each day to the mean of its bucket |
| Aggregation.AverageAll | payload-front/src/App.tsx:55-62 | the outer reduce keeps the equipment ids and the day order and replaces each bucket by its mean |
| Aggregation.CalculateAverages | payload-front/src/App.tsx:42-65 | the table has exactly the ids of the readings; each id's days are the days of its readings in first-seen order; each entry is the mean of that id's readings on that day, over a non-empty bucket; no readings give an empty table |
| PrototypeKeys.SlotMissingAsWritten | payload-front/src/App.tsx:45 | the as-written test `!acc[id]` agrees with the own-key test except on the inherited names (the `Object.prototype` methods and `"__proto__"`, whose getter yields `Object.prototype`), which it always reads as present |
| PrototypeKeys.GroupedKeysAsWritten | payload-front/src/App.tsx:45-46 | as written, the first pass creates a group only for ids that occur in the readings |
| PrototypeKeys.GroupedKeysAsWrittenDropMethods | payload-front/src/App.tsx:45-46 | as written, the ids that get a group are exactly the ids of the readings minus the names of inherited `Object.prototype` methods |
| PrototypeKeys.ConstructorIdDropped | payload-front/src/App.tsx:45-46 | a reading with equipment id "constructor" gets no group as written |

## Left out

- Fetching the readings (`api.get`), the React state setters, the chart data and the rendering (lines 29-40, 64, 67-95) are I/O and presentation. `CalculateAverages` returns the table that line 64 stores.
- `dayjs` parsing and formatting is the parameter `dateKey`. Time zones, invalid timestamps (`"Invalid Date"`) and calendar rules are not modelled.
- Day keys are taken never to be array indexes and never to name a property inherited from `Object.prototype`. So an inner object lists its days in insertion order, and the inner test `!acc[id][date]` (line 48) agrees with the own-key test of `FileReading`. Neither `"YYYY-MM-DD"` nor `"Invalid Date"` is an array index or an inherited name; a `dateKey` that returned one would be listed first by JavaScript or read as already present, and the model does not capture that.
- JavaScript numbers are modelled as exact reals. Rounding in the running sum, `NaN` from a non-numeric value and `toFixed(2)` are not modelled.
- Readings.Mean: requires a non-empty bucket, where JavaScript would divide 0 by 0 and give `NaN`. `GroupReadings` proves that every bucket is non-empty, so the case cannot arise.
- Aggregation.CalculateAverages: the outer key order is not stated. JavaScript enumerates array-index ids first, in numeric order, and every other id in insertion order; the outer level is an unordered map.
- Aggregation.GroupReadings: models the corrected own-key test, not the as-written truthiness test (see Findings). It files every id as an ordinary key, `"__proto__"` included, as an accumulator without a prototype (`Object.create(null)`) or a `Map` would.
- Aggregation.AverageAll: treats its `{}` accumulators as objects without a prototype, so every id, `"__proto__"` included, becomes a key of the table. With the literal `{}` of lines 55-62, `acc["__proto__"] = …` replaces the prototype instead, and that id would be missing from the averages.
- PrototypeKeys.GroupedKeysAsWritten: excludes the id `"__proto__"`. Assigning through it changes the prototype of every later lookup, including the inner day lookups, and the model does not follow that.
- PrototypeKeys.GroupedKeysAsWritten: does not follow where the lost values go. They are written onto the inherited function, which outlives the call.

## Findings

| source | as written | input that shows it | evidently intended | confidence | as-written member | corrected member |
|---|---|---|---|---|---|---|
| payload-front/src/App.tsx:45-46 | `!acc[curr.equipmentId]` also reads the properties inherited from `Object.prototype`. For an id such as `"constructor"` or `"toString"` it finds a function, which is truthy, so no own group is created. The readings are written onto the function and missing from `Object.keys(grouped)` and from the averages. | one reading with equipment id `"constructor"` | every equipment id that occurs gets its own group and its own averages: both reduces use accumulators without a prototype (`Object.create(null)`) or a `Map`. An own-key test such as `Object.hasOwn` alone still loses `"__proto__"`, because assigning to it on a plain `{}` replaces the prototype | high (not executed) | PrototypeKeys.ConstructorIdDropped | Aggregation.GroupReadings |
