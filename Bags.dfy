/*
  Bag: a probabilistic priority queue. Items live in a lookup keyed by
  their key and, by key, in one of `granularity` priority buckets; bucket
  l holds the items whose priority maps to level l. A probabilistic peek
  weighs every non-empty level by level + 1 (optionally times its size),
  samples a level through the cumulative weights and then an item within
  it. Items are values here; the item's recorded bucket number is updated
  in the lookup wherever the code updates the shared item object.
*/
module Bags {
  import opened Wrappers
  import opened Draws

  datatype Item = Item(key: string, priority: real, bucketNum: Option<nat>)

  /** The bucket a priority maps to: min(floor(v * g), g - 1). */
  function BucketNum(v: real, g: nat): int
    requires g > 0
  {
    var f := (v * g as real).Floor;
    if f < g - 1 then f else g - 1
  }

  /** A non-negative priority maps to a bucket in [0, g), namely floor(v * g) while that is below g. */
  lemma BucketNumRange(v: real, g: nat)
    requires g > 0 && v >= 0.0
    ensures 0 <= BucketNum(v, g) < g
    ensures (v * g as real).Floor < g ==> BucketNum(v, g) == (v * g as real).Floor
    ensures (v * g as real).Floor >= g ==> BucketNum(v, g) == g - 1
  {
    ProductNonNegative(v, g as real);
  }

  lemma ProductNonNegative(a: real, b: real)
    requires a >= 0.0 && b >= 0.0
    ensures a * b >= 0.0
  {
  }

  lemma ProductPositive(a: real, b: real)
    requires a > 0.0 && b > 0.0
    ensures a * b > 0.0
  {
  }

  /** A higher priority never maps to a lower bucket. */
  lemma BucketNumMonotone(v1: real, v2: real, g: nat)
    requires g > 0 && v1 <= v2
    ensures BucketNum(v1, g) <= BucketNum(v2, g)
  {
    ProductNonNegative(v2 - v1, g as real);
    assert (v2 - v1) * g as real == v2 * g as real - v1 * g as real;
  }

  /** List.Remove: drop the first occurrence, if any. */
  function RemoveFirst(s: seq<string>, x: string): (r: seq<string>)
    ensures multiset(r) == multiset(s) - multiset{x}
  {
    if s == [] then []
    else if s[0] == x then
      assert s == [s[0]] + s[1..];
      s[1..]
    else
      assert s == [s[0]] + s[1..];
      [s[0]] + RemoveFirst(s[1..], x)
  }

  /** The buckets after List.Add of a key to bucket b. */
  function Appended(buckets: seq<seq<string>>, b: nat, key: string): (r: seq<seq<string>>)
    requires b < |buckets|
    ensures |r| == |buckets| && r[b] == buckets[b] + [key]
    ensures forall l :: 0 <= l < |buckets| && l != b ==> r[l] == buckets[l]
  {
    buckets[b := buckets[b] + [key]]
  }

  /** The buckets after List.Remove of a key from bucket b. */
  function Unlisted(buckets: seq<seq<string>>, b: nat, key: string): (r: seq<seq<string>>)
    requires b < |buckets|
    ensures |r| == |buckets| && r[b] == RemoveFirst(buckets[b], key)
    ensures forall l :: 0 <= l < |buckets| && l != b ==> r[l] == buckets[l]
  {
    buckets[b := RemoveFirst(buckets[b], key)]
  }

  predicate AllEmpty(buckets: seq<seq<string>>)
  {
    forall l :: 0 <= l < |buckets| ==> |buckets[l]| == 0
  }

  /** The sampling weight of a level: 0 when empty, else level + 1 (times its size when weighting by count). */
  function Weight(buckets: seq<seq<string>>, l: nat, byCount: bool): real
    requires l < |buckets|
  {
    if |buckets[l]| == 0 then 0.0
    else if byCount then ((l + 1) * |buckets[l]|) as real
    else (l + 1) as real
  }

  /** The sum of the weights of levels [0, n). */
  function Cumulative(buckets: seq<seq<string>>, n: nat, byCount: bool): real
    requires n <= |buckets|
  {
    if n == 0 then 0.0 else Cumulative(buckets, n - 1, byCount) + Weight(buckets, n - 1, byCount)
  }

  /** The first level at or after l whose cumulative weight exceeds r. */
  function LevelFor(buckets: seq<seq<string>>, r: real, l: nat, byCount: bool): (p: nat)
    requires l <= |buckets|
    ensures l <= p <= |buckets|
    decreases |buckets| - l
  {
    if l == |buckets| then l
    else if r < Cumulative(buckets, l + 1, byCount) then l
    else LevelFor(buckets, r, l + 1, byCount)
  }

  lemma {:induction false} CumulativeMonotone(buckets: seq<seq<string>>, m: nat, n: nat, byCount: bool)
    requires m <= n <= |buckets|
    ensures Cumulative(buckets, m, byCount) <= Cumulative(buckets, n, byCount)
    decreases n - m
  {
    if m < n {
      CumulativeMonotone(buckets, m, n - 1, byCount);
    }
  }

  lemma {:induction false} CumulativeZeroIffEmpty(buckets: seq<seq<string>>, n: nat, byCount: bool)
    requires n <= |buckets|
    ensures Cumulative(buckets, n, byCount) >= 0.0
    ensures Cumulative(buckets, n, byCount) == 0.0 <==> forall l :: 0 <= l < n ==> |buckets[l]| == 0
  {
    if n > 0 {
      CumulativeZeroIffEmpty(buckets, n - 1, byCount);
    }
  }

  /**
    For 0 <= r < total, the sampled level is a real, non-empty level, and it
    is the first whose cumulative weight exceeds r.
  */
  lemma {:induction false} LevelForIsNonEmpty(buckets: seq<seq<string>>, r: real, l: nat, byCount: bool)
    requires l <= |buckets|
    requires Cumulative(buckets, l, byCount) <= r < Cumulative(buckets, |buckets|, byCount)
    ensures LevelFor(buckets, r, l, byCount) < |buckets|
    ensures |buckets[LevelFor(buckets, r, l, byCount)]| > 0
    ensures Cumulative(buckets, LevelFor(buckets, r, l, byCount), byCount) <= r
    ensures r < Cumulative(buckets, LevelFor(buckets, r, l, byCount) + 1, byCount)
    decreases |buckets| - l
  {
    if l == |buckets| {
    } else if r < Cumulative(buckets, l + 1, byCount) {
    } else {
      LevelForIsNonEmpty(buckets, r, l + 1, byCount);
    }
  }

  /** The stored item with key k records bucket l. */
  ghost predicate Holds(lookup: map<string, Item>, l: int, k: string)
  {
    k in lookup && lookup[k].bucketNum == Some(l)
  }

  /**
    Every stored item records the bucket its priority maps to, and every
    bucket holds exactly once the key of each item recording it, and
    nothing else.
  */
  ghost predicate Consistent(lookup: map<string, Item>, buckets: seq<seq<string>>, g: nat)
  {
    g > 0 && |buckets| == g
    && (forall k :: k in lookup ==>
          lookup[k].key == k && lookup[k].priority >= 0.0
          && lookup[k].bucketNum == Some(BucketNum(lookup[k].priority, g)))
    && (forall l, k :: 0 <= l < |buckets| ==>
          multiset(buckets[l])[k] == if Holds(lookup, l, k) then 1 else 0)
  }

  /** One bucket count after appending a new key to bucket b. */
  lemma AddedCount(lookup: map<string, Item>, buckets: seq<seq<string>>, b: nat, key: string, priority: real, l: nat, k: string)
    requires key !in lookup && b < |buckets| && l < |buckets|
    requires multiset(buckets[l])[k] == if Holds(lookup, l, k) then 1 else 0
    ensures multiset(buckets[b := buckets[b] + [key]][l])[k]
      == if Holds(lookup[key := Item(key, priority, Some(b))], l, k) then 1 else 0
  {
    if l == b {
      assert multiset(buckets[b] + [key]) == multiset(buckets[b]) + multiset{key};
    }
  }

  /** One bucket count after removing a stored key from the bucket b it records. */
  lemma RemovedCount(lookup: map<string, Item>, buckets: seq<seq<string>>, b: nat, key: string, l: nat, k: string)
    requires key in lookup && lookup[key].bucketNum == Some(b) && b < |buckets| && l < |buckets|
    requires multiset(buckets[l])[k] == if Holds(lookup, l, k) then 1 else 0
    ensures multiset(buckets[b := RemoveFirst(buckets[b], key)][l])[k] == if Holds(lookup - {key}, l, k) then 1 else 0
  {
  }

  /**
    Storing a key that no bucket holds, appended to the bucket of its
    priority, keeps the representation consistent.
  */
  lemma AddedConsistent(lookup: map<string, Item>, buckets: seq<seq<string>>, g: nat, key: string, priority: real)
    requires Consistent(lookup, buckets, g) && key !in lookup && priority >= 0.0
    ensures 0 <= BucketNum(priority, g) < g
    ensures var b := BucketNum(priority, g);
      Consistent(lookup[key := Item(key, priority, Some(b))], buckets[b := buckets[b] + [key]], g)
  {
    BucketNumRange(priority, g);
    var b := BucketNum(priority, g);
    var lookup' := lookup[key := Item(key, priority, Some(b))];
    var buckets' := buckets[b := buckets[b] + [key]];
    forall l, k | 0 <= l < |buckets'| ensures multiset(buckets'[l])[k] == if Holds(lookup', l, k) then 1 else 0 {
      AddedCount(lookup, buckets, b, key, priority, l, k);
    }
  }

  /**
    Dropping a stored key from the lookup and from its bucket keeps the
    representation consistent and leaves the key in no bucket.
  */
  lemma RemovedConsistent(lookup: map<string, Item>, buckets: seq<seq<string>>, g: nat, key: string)
    requires Consistent(lookup, buckets, g) && key in lookup
    ensures 0 <= BucketNum(lookup[key].priority, g) < g
    ensures var b := BucketNum(lookup[key].priority, g);
      var buckets' := buckets[b := RemoveFirst(buckets[b], key)];
      Consistent(lookup - {key}, buckets', g)
      && forall l :: 0 <= l < |buckets'| ==> key !in buckets'[l]
  {
    BucketNumRange(lookup[key].priority, g);
    var b := BucketNum(lookup[key].priority, g);
    var lookup' := lookup - {key};
    var buckets' := buckets[b := RemoveFirst(buckets[b], key)];
    forall l, k | 0 <= l < |buckets'| ensures multiset(buckets'[l])[k] == if Holds(lookup', l, k) then 1 else 0 {
      RemovedCount(lookup, buckets, b, key, l, k);
    }
    forall l | 0 <= l < |buckets'| ensures key !in buckets'[l] {
      assert multiset(buckets'[l])[key] == 0;
    }
  }

  class Bag {
    const capacity: nat
    const granularity: nat
    var level: int
    var lookup: map<string, Item>
    var buckets: seq<seq<string>>

    /** The bucket lookup and buckets are consistent; see Consistent. */
    ghost predicate Valid()
      reads this
    {
      Consistent(lookup, buckets, granularity)
    }

    constructor(capacity: nat, granularity: nat)
      requires granularity > 0
      ensures Valid()
      ensures this.capacity == capacity && this.granularity == granularity
      ensures lookup == map[] && AllEmpty(buckets) && level == 0
    {
      this.capacity := capacity;
      this.granularity := granularity;
      level := 0;
      lookup := map[];
      buckets := seq(granularity, _ => []);
    }

    function Count(): (n: nat)
      reads this
      ensures n == |lookup|
    {
      |lookup|
    }

    /** A stored key sits in the bucket of its priority and in no other. */
    lemma StoredInOwnBucket(k: string)
      requires Valid() && k in lookup
      ensures 0 <= BucketNum(lookup[k].priority, granularity) < granularity
      ensures k in buckets[BucketNum(lookup[k].priority, granularity)]
      ensures forall l :: 0 <= l < |buckets| && l != BucketNum(lookup[k].priority, granularity) ==> k !in buckets[l]
    {
      var b := BucketNum(lookup[k].priority, granularity);
      BucketNumRange(lookup[k].priority, granularity);
      assert multiset(buckets[b])[k] == if Holds(lookup, b, k) then 1 else 0;
      forall l | 0 <= l < |buckets| && l != b ensures k !in buckets[l] {
        assert multiset(buckets[l])[k] == if Holds(lookup, l, k) then 1 else 0;
      }
    }

    /** With consistent buckets, all buckets are empty exactly when nothing is stored. */
    lemma EmptyBucketsMeansEmpty()
      requires Valid()
      ensures AllEmpty(buckets) <==> |lookup| == 0
    {
      if |lookup| > 0 {
        var k :| k in lookup;
        StoredInOwnBucket(k);
      }
      if !AllEmpty(buckets) {
        var l :| 0 <= l < |buckets| && |buckets[l]| > 0;
        assert buckets[l][0] in multiset(buckets[l]);
        assert multiset(buckets[l])[buckets[l][0]] == if Holds(lookup, l, buckets[l][0]) then 1 else 0;
      }
    }

    /** Keys found in a bucket are stored keys. */
    lemma BucketKeysStored(l: nat, i: nat)
      requires Valid() && l < |buckets| && i < |buckets[l]|
      ensures buckets[l][i] in lookup && lookup[buckets[l][i]].bucketNum == Some(l)
    {
      assert buckets[l][i] in multiset(buckets[l]);
      assert multiset(buckets[l])[buckets[l][i]] == if Holds(lookup, l, buckets[l][i]) then 1 else 0;
    }

    /** Empties every bucket and the lookup. */
    method Clear()
      requires Valid()
      modifies this
      ensures Valid()
      ensures level == 0 && lookup == map[]
      ensures |buckets| == granularity && AllEmpty(buckets)
    {
      level := 0;
      var i := 0;
      while i < granularity
        invariant 0 <= i <= granularity
        invariant |buckets| == granularity && level == 0
        invariant forall l :: 0 <= l < i ==> buckets[l] == []
      {
        buckets := buckets[i := []];
        i := i + 1;
      }
      lookup := map[];
    }

    /** Appends the item's key to the bucket of its priority and records that bucket. */
    method AddItemToBucket(item: Item) returns (added: Item)
      requires granularity > 0 && |buckets| == granularity && item.priority >= 0.0
      modifies this
      ensures added == item.(bucketNum := Some(BucketNum(item.priority, granularity)))
      ensures 0 <= BucketNum(item.priority, granularity) < granularity
      ensures buckets == old(buckets)[BucketNum(item.priority, granularity) :=
                           old(buckets)[BucketNum(item.priority, granularity)] + [item.key]]
      ensures lookup == old(lookup) && level == old(level)
    {
      BucketNumRange(item.priority, granularity);
      var b := BucketNum(item.priority, granularity);
      buckets := buckets[b := buckets[b] + [item.key]];
      added := item.(bucketNum := Some(b));
    }

    /** Removes the item's key from the bucket it records and clears the record. */
    method RemoveItemFromItsBucket(item: Item) returns (removed: Item)
      requires item.bucketNum.Some? && item.bucketNum.value < |buckets|
      modifies this
      ensures removed == item.(bucketNum := None)
      ensures buckets == old(buckets)[item.bucketNum.value :=
                           RemoveFirst(old(buckets)[item.bucketNum.value], item.key)]
      ensures lookup == old(lookup) && level == old(level)
    {
      var b := item.bucketNum.value;
      buckets := buckets[b := RemoveFirst(buckets[b], item.key)];
      removed := item.(bucketNum := None);
    }

    /**
      Stores a new item. One item is evicted first, and only, when the count
      already exceeds the capacity.
    */
    method PutNew(key: string, priority: real, u: real, v: real) returns (item: Item)
      requires Valid() && key !in lookup && priority >= 0.0
      requires IsUnit(u) && IsUnit(v)
      modifies this
      ensures Valid()
      ensures key in lookup && lookup[key] == item && item.priority == priority
      ensures old(|lookup|) > capacity ==> |lookup| == old(|lookup|)
      ensures old(|lookup|) <= capacity ==> lookup == old(lookup)[key := item]
      ensures old(|lookup|) > capacity ==>
        var l := SampledLevel(old(buckets), u, false);
        l < |old(buckets)| && |old(buckets)[l]| > 0
        && old(buckets)[l][IndexFromDraw(v, |old(buckets)[l]|)] in old(lookup)
        && lookup == (old(lookup) - {old(buckets)[l][IndexFromDraw(v, |old(buckets)[l]|)]})[key := item]
      ensures lookup.Keys <= old(lookup.Keys) + {key}
      ensures BucketNum(priority, granularity) < granularity && level == old(level)
      ensures old(|lookup|) <= capacity ==> buckets == Appended(old(buckets), BucketNum(priority, granularity), key)
      ensures old(|lookup|) > capacity ==>
        var l := SampledLevel(old(buckets), u, false);
        l < |old(buckets)| && |old(buckets)[l]| > 0
        && buckets == Appended(Unlisted(old(buckets), l, old(buckets)[l][IndexFromDraw(v, |old(buckets)[l]|)]),
                               BucketNum(priority, granularity), key)
    {
      if |lookup| > capacity {
        var purged := TakeMin(u, v);
      }
      AddedConsistent(lookup, buckets, granularity, key, priority);
      ghost var b := BucketNum(priority, granularity);
      ghost var lookup', buckets' := lookup[key := Item(key, priority, Some(b))], buckets[b := buckets[b] + [key]];
      lookup := lookup[key := Item(key, priority, None)];
      item := AddItemToBucket(lookup[key]);
      lookup := lookup[key := item];
      assert lookup == lookup' && buckets == buckets';
    }

    /** Peeks by key, or probabilistically when no key is given; nothing changes. */
    method Peek(key: Option<string>, u: real, v: real) returns (r: Option<Item>)
      requires Valid() && IsUnit(u) && IsUnit(v)
      ensures |lookup| == 0 ==> r.None?
      ensures key.Some? && key.value !in lookup ==> r.None?
      ensures key.Some? && |lookup| > 0 && key.value in lookup ==> r == Some(lookup[key.value])
      ensures key.None? ==> (r.None? <==> |lookup| == 0)
      ensures r.Some? ==> r.value.key in lookup && lookup[r.value.key] == r.value
    {
      if |lookup| == 0 {
        return None;
      }
      if key.None? {
        EmptyBucketsMeansEmpty();
        r := PeekProbabilistically(u, v, false);
      } else {
        if key.value !in lookup {
          return None;
        }
        r := Some(lookup[key.value]);
      }
    }

    /**
      Samples a level of the buckets with the draw u, then an item of that
      level with the draw v. None exactly when every bucket is empty.
    */
    method PeekProbabilistically(u: real, v: real, byCount: bool) returns (r: Option<Item>)
      requires Valid() && IsUnit(u) && IsUnit(v)
      ensures r.None? <==> AllEmpty(buckets)
      ensures r.Some? ==>
        var l := SampledLevel(buckets, u, byCount);
        l < granularity && |buckets[l]| > 0
        && buckets[l][IndexFromDraw(v, |buckets[l]|)] in lookup
        && r.value == lookup[buckets[l][IndexFromDraw(v, |buckets[l]|)]]
      ensures r.Some? ==> r.value.key in lookup && lookup[r.value.key] == r.value
    {
      var picked, point := SampleLevel(buckets, u, byCount);
      if picked.None? {
        return None;
      }
      var bucket := buckets[picked.value];
      var idx := IndexFromDraw(v, |bucket|);
      BucketKeysStored(picked.value, idx);
      r := Some(lookup[bucket[idx]]);
    }

    /** Moves the keyed item to the bucket of its new priority; nothing else changes. */
    method ChangePriority(key: string, newPriority: real)
      requires Valid() && key in lookup && newPriority >= 0.0
      modifies this
      ensures Valid()
      ensures lookup == old(lookup)[key := Item(key, newPriority, Some(BucketNum(newPriority, granularity)))]
      ensures |lookup| == old(|lookup|)
      ensures key in buckets[BucketNum(newPriority, granularity)]
      ensures BucketNum(old(lookup)[key].priority, granularity) < granularity
      ensures BucketNum(newPriority, granularity) < granularity && level == old(level)
      ensures buckets == Appended(Unlisted(old(buckets), BucketNum(old(lookup)[key].priority, granularity), key),
                                  BucketNum(newPriority, granularity), key)
    {
      var item := lookup[key];
      RemovedConsistent(lookup, buckets, granularity, key);
      item := RemoveItemFromItsBucket(item);
      lookup := lookup - {key};
      AddedConsistent(lookup, buckets, granularity, key, newPriority);
      ghost var b := BucketNum(newPriority, granularity);
      ghost var lookup', buckets' := lookup[key := Item(key, newPriority, Some(b))], buckets[b := buckets[b] + [key]];
      item := item.(priority := newPriority);
      lookup := lookup[key := item];
      item := AddItemToBucket(item);
      lookup := lookup[key := item];
      assert lookup == lookup' && buckets == buckets';
      StoredInOwnBucket(key);
    }

    /** Takes the item with the given key out of the lookup and its bucket. */
    method TakeUsingKey(key: string) returns (item: Item)
      requires Valid() && key in lookup
      modifies this
      ensures Valid()
      ensures item == old(lookup)[key].(bucketNum := None)
      ensures lookup == old(lookup) - {key}
      ensures forall l :: 0 <= l < |buckets| ==> key !in buckets[l]
      ensures BucketNum(old(lookup)[key].priority, granularity) < granularity && level == old(level)
      ensures buckets == Unlisted(old(buckets), BucketNum(old(lookup)[key].priority, granularity), key)
    {
      RemovedConsistent(lookup, buckets, granularity, key);
      item := lookup[key];
      lookup := lookup - {key};
      item := RemoveItemFromItsBucket(item);
    }

    /**
      Evicts the item a probabilistic peek picks; None (the caught failure)
      when the bag is empty.
    */
    method TakeMin(u: real, v: real) returns (r: Option<Item>)
      requires Valid() && IsUnit(u) && IsUnit(v)
      modifies this
      ensures Valid()
      ensures r.None? <==> old(|lookup|) == 0
      ensures r.None? ==> lookup == old(lookup) && buckets == old(buckets)
      ensures r.Some? ==> r.value.key in old(lookup) && lookup == old(lookup) - {r.value.key}
      ensures r.Some? ==> |lookup| == old(|lookup|) - 1
      ensures r.Some? ==>
        var l := SampledLevel(old(buckets), u, false);
        l < |old(buckets)| && |old(buckets)[l]| > 0
        && r.value.key == old(buckets)[l][IndexFromDraw(v, |old(buckets)[l]|)]
        && buckets == Unlisted(old(buckets), l, r.value.key)
      ensures level == old(level)
    {
      var peeked := PeekProbabilistically(u, v, false);
      EmptyBucketsMeansEmpty();
      if peeked.None? {
        return None;
      }
      ghost var l := SampledLevel(buckets, u, false);
      BucketKeysStored(l, IndexFromDraw(v, |buckets[l]|));
      var taken := TakeUsingKey(peeked.value.key);
      r := Some(taken);
      assert lookup.Keys == old(lookup).Keys - {taken.key};
    }
  }

  /** The level a probabilistic peek samples with the unit draw u: the level of the point u * total. */
  function SampledLevel(buckets: seq<seq<string>>, u: real, byCount: bool): nat
  {
    LevelFor(buckets, SamplePoint(u, Cumulative(buckets, |buckets|, byCount)), 0, byCount)
  }

  /**
    The level sampling of a probabilistic peek: the weights of the levels,
    their total, and the level whose cumulative-weight interval holds
    r = u * total. None exactly when every bucket is empty.
  */
  method SampleLevel(buckets: seq<seq<string>>, u: real, byCount: bool) returns (picked: Option<nat>, r: real)
    requires IsUnit(u)
    ensures picked.None? <==> AllEmpty(buckets)
    ensures picked.Some? ==>
      r == SamplePoint(u, Cumulative(buckets, |buckets|, byCount))
      && 0.0 <= r < Cumulative(buckets, |buckets|, byCount)
      && picked.value == LevelFor(buckets, r, 0, byCount) == SampledLevel(buckets, u, byCount)
      && picked.value < |buckets| && |buckets[picked.value]| > 0
      && Cumulative(buckets, picked.value, byCount) <= r < Cumulative(buckets, picked.value + 1, byCount)
  {
    var granularity := |buckets|;
    var weights := new real[granularity];
    var total := 0.0;
    var lv := 0;
    while lv < granularity
      invariant 0 <= lv <= granularity
      invariant total == Cumulative(buckets, lv, byCount)
      invariant forall l :: 0 <= l < lv ==> weights[l] == Weight(buckets, l, byCount)
    {
      if |buckets[lv]| == 0 {
        weights[lv] := 0.0;
      } else {
        var w: real := (lv + 1) as real;
        if byCount {
          w := ((lv + 1) * |buckets[lv]|) as real;
        }
        weights[lv] := w;
        total := total + w;
      }
      lv := lv + 1;
    }
    CumulativeZeroIffEmpty(buckets, granularity, byCount);
    if total <= 0.0 {
      return None, 0.0;
    }
    r := SamplePoint(u, total);
    UnitScaled(u, total);
    LevelForIsNonEmpty(buckets, r, 0, byCount);
    var level := PickLevel(buckets, weights, r, byCount);
    picked := Some(level);
  }

  /** The CDF walk: the first level whose cumulative weight exceeds r. */
  method PickLevel(buckets: seq<seq<string>>, weights: array<real>, r: real, byCount: bool) returns (level: nat)
    requires weights.Length == |buckets|
    requires forall l :: 0 <= l < |buckets| ==> weights[l] == Weight(buckets, l, byCount)
    requires 0.0 <= r < Cumulative(buckets, |buckets|, byCount)
    ensures level == LevelFor(buckets, r, 0, byCount) && level < |buckets|
  {
    LevelForIsNonEmpty(buckets, r, 0, byCount);
    level := 0;
    var cumulative := 0.0;
    while level < weights.Length
      invariant 0 <= level <= weights.Length
      invariant cumulative == Cumulative(buckets, level, byCount)
      invariant cumulative <= r
      invariant LevelFor(buckets, r, 0, byCount) == LevelFor(buckets, r, level, byCount)
      decreases weights.Length - level
    {
      cumulative := cumulative + weights[level];
      if r < cumulative {
        break;
      }
      level := level + 1;
    }
    if level == weights.Length {
      assert false;
    }
  }

  /** The point r = u * total of a unit draw scaled to the total weight. */
  function SamplePoint(u: real, total: real): real
  {
    u * total
  }

  /** The sample point lies in [0, total) for a unit draw and a positive total. */
  lemma UnitScaled(u: real, total: real)
    requires IsUnit(u) && total > 0.0
    ensures 0.0 <= SamplePoint(u, total) < total
  {
    assert total - u * total == (1.0 - u) * total;
    ProductNonNegative(u, total);
    ProductPositive(1.0 - u, total);
  }
}
