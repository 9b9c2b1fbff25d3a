/**
  A plain JavaScript object used as a dictionary with string keys, and the
  order in which such an object enumerates its own keys (`Object.keys`): the
  order in which each key was first assigned. This holds for every key that
  is not an array index, which covers the day strings the dashboard uses.
 */
module OrderedObjects {

  /** No element occurs twice. */
  predicate Distinct(s: seq<string>) {
    forall i, j :: 0 <= i < j < |s| ==> s[i] != s[j]
  }

  /** An object's own keys in insertion order, and the value under each key. */
  datatype OrderedMap<V> = OrderedMap(keys: seq<string>, entries: map<string, V>)
  {
    /** Every own key is listed once, and the listed keys are the own keys. */
    ghost predicate Valid() {
      Distinct(keys) && forall k {:trigger k in entries} :: k in entries <==> k in keys
    }

    /** `obj[k] = v`: an existing key keeps its place, a new key goes last. */
    function Put(k: string, v: V): (r: OrderedMap<V>)
      ensures r.entries == entries[k := v]
      ensures k in entries ==> r.keys == keys
      ensures k !in entries ==> r.keys == keys + [k]
      ensures Valid() ==> r.Valid()
    {
      OrderedMap(if k in entries then keys else keys + [k], entries[k := v])
    }
  }

  /** The empty object literal `{}`. */
  function Empty<V>(): (r: OrderedMap<V>)
    ensures r.Valid() && r.keys == [] && r.entries == map[]
  {
    OrderedMap([], map[])
  }

  /** How many times `k` occurs in `xs`. */
  function Count(xs: seq<string>, k: string): nat {
    if |xs| == 0 then 0
    else Count(xs[..|xs| - 1], k) + (if xs[|xs| - 1] == k then 1 else 0)
  }

  /**
    The keys an object ends up with when `xs` are assigned to it one after
    the other: each distinct element of `xs`, in order of first occurrence.
   */
  function FirstSeen(xs: seq<string>): (r: seq<string>)
    ensures Distinct(r)
    ensures forall k :: k in r <==> k in xs
  {
    if |xs| == 0 then []
    else
      var seen := FirstSeen(xs[..|xs| - 1]);
      var x := xs[|xs| - 1];
      if x in seen then seen else seen + [x]
  }

  /** The position of the first occurrence of `k` in `xs`. */
  function FirstIndex(xs: seq<string>, k: string): (n: nat)
    requires k in xs
    ensures n < |xs| && xs[n] == k
    ensures k !in xs[..n]
  {
    var init := xs[..|xs| - 1];
    if k in init then FirstIndex(init, k) else |xs| - 1
  }

  /** The sum of `Count(xs, k)` over the elements `k` of `ks`. */
  function CountAll(xs: seq<string>, ks: seq<string>): nat {
    if |ks| == 0 then 0
    else CountAll(xs, ks[..|ks| - 1]) + Count(xs, ks[|ks| - 1])
  }

  /** Appending one element extends the first-seen order by it exactly when it is new. */
  lemma FirstSeenSnoc(xs: seq<string>, x: string)
    ensures FirstSeen(xs + [x]) == if x in xs then FirstSeen(xs) else FirstSeen(xs) + [x]
  {
    assert (xs + [x])[..|xs|] == xs;
  }

  lemma CountSnoc(xs: seq<string>, x: string, k: string)
    ensures Count(xs + [x], k) == Count(xs, k) + (if x == k then 1 else 0)
  {
    assert (xs + [x])[..|xs|] == xs;
  }

  /** An element occurs at least once exactly when it is a member. */
  lemma {:induction false} CountPositive(xs: seq<string>, k: string)
    ensures Count(xs, k) > 0 <==> k in xs
  {
    if |xs| > 0 {
      var init := xs[..|xs| - 1];
      assert xs == init + [xs[|xs| - 1]];
      CountPositive(init, k);
    }
  }

  /** In a sequence without repetitions every element occurs exactly once. */
  lemma {:induction false} CountDistinct(ks: seq<string>, x: string)
    requires Distinct(ks)
    ensures Count(ks, x) == if x in ks then 1 else 0
  {
    if |ks| > 0 {
      var init := ks[..|ks| - 1];
      assert ks == init + [ks[|ks| - 1]];
      CountDistinct(init, x);
    }
  }

  /** Appending `x` to `xs` adds one to the total for each time `x` occurs in `ks`. */
  lemma {:induction false} CountAllSnoc(xs: seq<string>, x: string, ks: seq<string>)
    ensures CountAll(xs + [x], ks) == CountAll(xs, ks) + Count(ks, x)
  {
    if |ks| > 0 {
      CountAllSnoc(xs, x, ks[..|ks| - 1]);
      CountSnoc(xs, x, ks[|ks| - 1]);
    }
  }

  /**
    Counting every element of `xs` once per distinct key accounts for all of
    `xs`: grouping by key neither loses nor duplicates an element.
   */
  lemma {:induction false} FirstSeenCountsAll(xs: seq<string>)
    ensures CountAll(xs, FirstSeen(xs)) == |xs|
  {
    if |xs| > 0 {
      var init, x := xs[..|xs| - 1], xs[|xs| - 1];
      assert xs == init + [x];
      var seen := FirstSeen(init);
      FirstSeenCountsAll(init);
      CountAllSnoc(init, x, seen);
      CountDistinct(seen, x);
      if x !in init {
        CountPositive(init, x);
        CountSnoc(init, x, x);
        assert FirstSeen(xs) == seen + [x];
        assert (seen + [x])[..|seen|] == seen;
      }
    }
  }

  /** Keys listed earlier were seen earlier: first occurrences are in increasing order. */
  lemma {:induction false} FirstSeenOrder(xs: seq<string>)
    ensures forall i, j :: 0 <= i < j < |FirstSeen(xs)| ==>
      FirstIndex(xs, FirstSeen(xs)[i]) < FirstIndex(xs, FirstSeen(xs)[j])
  {
    if |xs| > 0 {
      var init, x := xs[..|xs| - 1], xs[|xs| - 1];
      var seen := FirstSeen(init);
      FirstSeenOrder(init);
      var r := FirstSeen(xs);
      assert r == if x in seen then seen else seen + [x];
      forall i, j | 0 <= i < j < |r|
        ensures FirstIndex(xs, r[i]) < FirstIndex(xs, r[j])
      {
        assert r[i] == seen[i] && seen[i] in init;
        assert FirstIndex(xs, r[i]) == FirstIndex(init, seen[i]);
        if j < |seen| {
          assert r[j] == seen[j] && seen[j] in init;
          assert FirstIndex(xs, r[j]) == FirstIndex(init, seen[j]);
          assert FirstIndex(init, seen[i]) < FirstIndex(init, seen[j]);
        } else {
          assert r[j] == x && x !in init;
          assert FirstIndex(xs, x) == |xs| - 1;
          assert FirstIndex(init, seen[i]) < |init|;
        }
      }
    }
  }
}
