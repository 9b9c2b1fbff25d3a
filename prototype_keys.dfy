/**
  The first pass of `calculateAverages` decides whether an equipment needs a
  fresh group with `!acc[curr.equipmentId]`. That lookup also sees the
  properties a plain object inherits from `Object.prototype`: for an id that
  names one of them the lookup yields a function, which is truthy, so no own
  key is created and the reading is written onto the inherited function
  instead. Such an equipment never appears in `Object.keys(grouped)` and its
  readings vanish from the averages.

  This module models the outer keys the first pass produces as written. The
  test reads "__proto__" as present too, but `GroupedKeysAsWritten` takes no
  reading with that id: writing through it changes the prototype of every
  later lookup, which this model does not follow.
 */
module PrototypeKeys {
  import opened Readings

  /** The names a plain object inherits from `Object.prototype` whose values are functions. */
  const ObjectPrototypeMethods: set<string> := {
    "constructor", "hasOwnProperty", "isPrototypeOf", "propertyIsEnumerable",
    "toLocaleString", "toString", "valueOf",
    "__defineGetter__", "__defineSetter__", "__lookupGetter__", "__lookupSetter__"
  }

  /**
    The names whose lookup on a plain object finds a truthy inherited value:
    the methods above, and "__proto__", whose getter yields `Object.prototype`.
   */
  const InheritedTruthy: set<string> := ObjectPrototypeMethods + {"__proto__"}

  /**
    The test `!acc[id]` on an object whose own keys are `ownKeys`, as written:
    it agrees with the own-key test `id !in ownKeys` except on inherited
    names, which it always reads as present.
   */
  predicate SlotMissingAsWritten(ownKeys: set<string>, id: string): (missing: bool)
    ensures id !in InheritedTruthy ==> (missing <==> id !in ownKeys)
    ensures id in InheritedTruthy ==> !missing
  {
    id !in ownKeys && id !in InheritedTruthy
  }

  /** No reading uses the id that reaches the prototype itself. */
  predicate NoProtoId(rs: seq<Reading>) {
    forall i :: 0 <= i < |rs| ==> rs[i].equipmentId != "__proto__"
  }

  /** The own keys of `grouped` after the first pass as written. */
  function GroupedKeysAsWritten(rs: seq<Reading>): (keys: set<string>)
    requires NoProtoId(rs)
    ensures keys <= EquipmentIds(rs)
  {
    if |rs| == 0 then {}
    else
      var init, r := rs[..|rs| - 1], rs[|rs| - 1];
      var before := GroupedKeysAsWritten(init);
      IdsSnoc(init, r);
      assert rs == init + [r];
      if SlotMissingAsWritten(before, r.equipmentId) then before + {r.equipmentId} else before
  }

  /** As written, exactly the ids that are not inherited method names get a group. */
  lemma {:induction false} GroupedKeysAsWrittenDropMethods(rs: seq<Reading>)
    requires NoProtoId(rs)
    ensures GroupedKeysAsWritten(rs) == EquipmentIds(rs) - ObjectPrototypeMethods
  {
    if |rs| > 0 {
      var init, r := rs[..|rs| - 1], rs[|rs| - 1];
      GroupedKeysAsWrittenDropMethods(init);
      IdsSnoc(init, r);
      assert rs == init + [r];
    }
  }

  /**
    A single reading of an equipment with id "constructor" has an id, yet the
    first pass as written creates no group for it; the own-key test of
    `Aggregation.GroupReadings` keeps it.
   */
  lemma ConstructorIdDropped()
    ensures var rs := [Reading("constructor", "2024-01-01T10:00:00Z", 7.0)];
      && NoProtoId(rs)
      && "constructor" in EquipmentIds(rs)
      && "constructor" !in GroupedKeysAsWritten(rs)
  {
    var rs := [Reading("constructor", "2024-01-01T10:00:00Z", 7.0)];
    GroupedKeysAsWrittenDropMethods(rs);
    assert rs[0] in rs;
  }
}
