/**
  The landing page's tag index (`mappings`) and technology list
  (`technologies`) built in `buildLanding`.

  The reference definitions say what the index holds: `LoweredTags` is its
  key set, `Bucket` the expected contents of one bucket and `Positions` the
  list positions those contents come from. Go stores `*Metadata` pointers in
  the buckets; the model stores the records themselves and recovers pointer
  identity through `Positions`: position `i` stands for the pointer to
  `metadatas[i]`.
 */
module TagIndex {
  import opened Strings
  import opened Learnings

  type Mappings = map<string, seq<Metadata>>

  /** Go's `mappings[k]`: a missing key reads as the empty (nil) slice. */
  function Lookup(m: Mappings, k: string): seq<Metadata> {
    if k in m then m[k] else []
  }

  /** `n` copies of `x`. */
  function Repeat<T>(x: T, n: nat): (r: seq<T>)
    ensures |r| == n
    ensures forall k :: 0 <= k < n ==> r[k] == x
  {
    if n == 0 then [] else Repeat(x, n - 1) + [x]
  }

  predicate Distinct<T(==)>(s: seq<T>) {
    forall i, j :: 0 <= i < j < |s| ==> s[i] != s[j]
  }

  // ---------------------------------------------------------------------
  // Reference definitions

  /** How many of `tags` lower-case to `t`. */
  function TagCount(tags: seq<string>, t: string): nat {
    if tags == [] then 0
    else TagCount(tags[..|tags| - 1], t) + (if ToLower(tags[|tags| - 1]) == t then 1 else 0)
  }

  /** The lower-cased forms of `tags`. */
  function LoweredOf(tags: seq<string>): set<string> {
    set j | 0 <= j < |tags| :: ToLower(tags[j])
  }

  /** Every lower-cased tag of every record: the keys the index must have. */
  function LoweredTags(ms: seq<Metadata>): set<string> {
    set i, j | 0 <= i < |ms| && 0 <= j < |ms[i].tags| :: ToLower(ms[i].tags[j])
  }

  /** The records bucket `t` must hold: each record, once per tag lower-casing to `t`, in list order. */
  function Bucket(ms: seq<Metadata>, t: string): seq<Metadata> {
    if ms == [] then []
    else
      var last := ms[|ms| - 1];
      Bucket(ms[..|ms| - 1], t) + Repeat(last, TagCount(last.tags, t))
  }

  /** The list positions of the records in `Bucket(ms, t)`, element by element. */
  function Positions(ms: seq<Metadata>, t: string): seq<nat> {
    if ms == [] then []
    else Positions(ms[..|ms| - 1], t) + Repeat(|ms| - 1, TagCount(ms[|ms| - 1].tags, t))
  }

  /** Number of tags over all records. */
  function TotalTags(ms: seq<Metadata>): nat {
    if ms == [] then 0 else TotalTags(ms[..|ms| - 1]) + |ms[|ms| - 1].tags|
  }

  ghost function AnyKey(m: Mappings): string
    requires m != map[]
  {
    var k :| k in m; k
  }

  /** Sum of the lengths of all buckets. */
  ghost function TotalSize(m: Mappings): nat
    decreases |m|
  {
    if m == map[] then 0
    else
      var k := AnyKey(m);
      assert (m - {k}).Keys == m.Keys - {k};
      |m[k]| + TotalSize(m - {k})
  }

  // ---------------------------------------------------------------------
  // Properties of the reference definitions

  /** A record has a tag lower-casing to `t` exactly when it is counted under `t`. */
  lemma {:induction false} TagCountPositive(tags: seq<string>, t: string)
    ensures TagCount(tags, t) > 0 <==> exists j :: 0 <= j < |tags| && ToLower(tags[j]) == t
  {
    if tags != [] {
      var init := tags[..|tags| - 1];
      TagCountPositive(init, t);
      if exists j :: 0 <= j < |tags| && ToLower(tags[j]) == t {
        var j :| 0 <= j < |tags| && ToLower(tags[j]) == t;
        if j < |tags| - 1 {
          assert init[j] == tags[j];
        }
      }
      if exists j :: 0 <= j < |init| && ToLower(init[j]) == t {
        var j :| 0 <= j < |init| && ToLower(init[j]) == t;
        assert tags[j] == init[j];
      }
    }
  }

  /** Every key is already lower-case. */
  lemma KeysAreLowerCase(ms: seq<Metadata>, t: string)
    requires t in LoweredTags(ms)
    ensures ToLower(t) == t
  {
  }

  lemma LoweredTagsSnoc(ms: seq<Metadata>)
    requires ms != []
    ensures LoweredTags(ms) ==
      LoweredTags(ms[..|ms| - 1]) + LoweredOf(ms[|ms| - 1].tags)
  {
  }

  /** A bucket is non-empty exactly when its key is some record's lower-cased tag. */
  lemma {:induction false} BucketNonEmptyIff(ms: seq<Metadata>, t: string)
    ensures Bucket(ms, t) != [] <==> t in LoweredTags(ms)
  {
    if ms != [] {
      var init, last := ms[..|ms| - 1], ms[|ms| - 1];
      BucketNonEmptyIff(init, t);
      TagCountPositive(last.tags, t);
      LoweredTagsSnoc(ms);
    }
  }

  /**
    Bucket `t` is the records at `Positions(ms, t)`, and those positions never
    decrease: records keep their list order within a bucket.
   */
  lemma {:induction false} BucketOrder(ms: seq<Metadata>, t: string)
    ensures |Positions(ms, t)| == |Bucket(ms, t)|
    ensures forall k :: 0 <= k < |Positions(ms, t)| ==>
              Positions(ms, t)[k] < |ms| && Bucket(ms, t)[k] == ms[Positions(ms, t)[k]]
    ensures forall k, l :: 0 <= k <= l < |Positions(ms, t)| ==> Positions(ms, t)[k] <= Positions(ms, t)[l]
  {
    if ms != [] {
      var init, last := ms[..|ms| - 1], ms[|ms| - 1];
      BucketOrder(init, t);
      var p, b := Positions(ms, t), Bucket(ms, t);
      var p0, b0 := Positions(init, t), Bucket(init, t);
      assert p == p0 + Repeat(|ms| - 1, TagCount(last.tags, t));
      assert b == b0 + Repeat(last, TagCount(last.tags, t));
      forall k | 0 <= k < |p| ensures p[k] < |ms| && b[k] == ms[p[k]] {
        if k < |p0| {
          assert p[k] == p0[k] && b[k] == b0[k] && ms[p0[k]] == init[p0[k]];
        }
      }
    }
  }

  /**
    Duplicates are not merged: the record at position `i` occurs in bucket
    `t` once per tag of it that lower-cases to `t`.
   */
  lemma {:induction false} BucketMultiplicity(ms: seq<Metadata>, t: string, i: nat)
    requires i < |ms|
    ensures multiset(Positions(ms, t))[i] == TagCount(ms[i].tags, t)
  {
    var init, last := ms[..|ms| - 1], ms[|ms| - 1];
    var p0 := Positions(init, t);
    var rep := Repeat(|ms| - 1, TagCount(last.tags, t));
    assert Positions(ms, t) == p0 + rep;
    if i < |init| {
      BucketMultiplicity(init, t, i);
      assert init[i] == ms[i];
      assert i !in rep;
    } else {
      BucketOrder(init, t);
      assert i !in p0;
      assert multiset(rep)[i] == |rep| by {
        assert rep == Repeat(i, |rep|);
        RepeatMultiset(i, |rep|);
      }
    }
  }

  lemma {:induction false} RepeatMultiset<T>(x: T, n: nat)
    ensures multiset(Repeat(x, n))[x] == n
  {
    if n > 0 {
      RepeatMultiset(x, n - 1);
    }
  }

  lemma {:induction false} TotalSizeRemove(m: Mappings, k: string)
    requires k in m
    ensures TotalSize(m) == |m[k]| + TotalSize(m - {k})
    decreases |m|
  {
    var k' := AnyKey(m);
    if k' != k {
      var m1, m2 := m - {k'}, m - {k};
      assert m1.Keys == m.Keys - {k'};
      assert m2.Keys == m.Keys - {k};
      TotalSizeRemove(m1, k);
      TotalSizeRemove(m2, k');
      assert m1 - {k} == m2 - {k'};
    }
  }

  /** Replacing one bucket changes the total by the difference of the two lengths. */
  lemma TotalSizeUpdate(m: Mappings, k: string, v: seq<Metadata>)
    ensures TotalSize(m[k := v]) + |Lookup(m, k)| == TotalSize(m) + |v|
  {
    var m' := m[k := v];
    TotalSizeRemove(m', k);
    assert m' - {k} == m - {k};
    if k in m {
      TotalSizeRemove(m, k);
    } else {
      assert m - {k} == m;
    }
  }

  lemma TagCountSnoc(tags: seq<string>, j: nat, t: string)
    requires j < |tags|
    ensures TagCount(tags[..j + 1], t) == TagCount(tags[..j], t) + (if ToLower(tags[j]) == t then 1 else 0)
  {
    assert tags[..j + 1][..j] == tags[..j];
  }

  /** One append of the inner loop, seen from bucket `t`. */
  lemma AppendStepAt(m: Mappings, m': Mappings, prefix: seq<Metadata>, r: Metadata, j: nat, t: string)
    requires j < |r.tags|
    requires Lookup(m, t) == Bucket(prefix, t) + Repeat(r, TagCount(r.tags[..j], t))
    requires m' == m[ToLower(r.tags[j]) := Lookup(m, ToLower(r.tags[j])) + [r]]
    ensures Lookup(m', t) == Bucket(prefix, t) + Repeat(r, TagCount(r.tags[..j + 1], t))
  {
    TagCountSnoc(r.tags, j, t);
    var n := TagCount(r.tags[..j], t);
    if t == ToLower(r.tags[j]) {
      assert Repeat(r, n + 1) == Repeat(r, n) + [r];
      assert Lookup(m', t) == Lookup(m, t) + [r];
    } else {
      assert Lookup(m', t) == Lookup(m, t);
    }
  }

  /** One append of the inner loop extends bucket `ToLower(r.tags[j])` by `r` and no other bucket. */
  lemma AppendStep(m: Mappings, m': Mappings, prefix: seq<Metadata>, r: Metadata, j: nat)
    requires j < |r.tags|
    requires forall t :: Lookup(m, t) == Bucket(prefix, t) + Repeat(r, TagCount(r.tags[..j], t))
    requires m' == m[ToLower(r.tags[j]) := Lookup(m, ToLower(r.tags[j])) + [r]]
    ensures forall t :: Lookup(m', t) == Bucket(prefix, t) + Repeat(r, TagCount(r.tags[..j + 1], t))
  {
    forall t ensures Lookup(m', t) == Bucket(prefix, t) + Repeat(r, TagCount(r.tags[..j + 1], t)) {
      AppendStepAt(m, m', prefix, r, j, t);
    }
  }

  /** One record's worth of the outer loop, for bucket `t`. */
  lemma RecordStep(ms: seq<Metadata>, i: nat, t: string)
    requires i < |ms|
    ensures Bucket(ms[..i + 1], t) == Bucket(ms[..i], t) + Repeat(ms[i], TagCount(ms[i].tags[..|ms[i].tags|], t))
  {
    assert ms[..i + 1][..i] == ms[..i];
    assert ms[i].tags[..|ms[i].tags|] == ms[i].tags;
  }

  /** One record's worth of the outer loop, for the tag total. */
  lemma TotalTagsSnoc(ms: seq<Metadata>, i: nat)
    requires i < |ms|
    ensures TotalTags(ms[..i + 1]) == TotalTags(ms[..i]) + |ms[i].tags|
  {
    assert ms[..i + 1][..i] == ms[..i];
  }

  // ---------------------------------------------------------------------
  // The two loops of buildLanding

  /** The nested loop that fills `mappings`. */
  method BuildMappings(metadatas: seq<Metadata>) returns (mappings: Mappings)
    ensures mappings.Keys == LoweredTags(metadatas)
    ensures forall t :: t in mappings ==> mappings[t] == Bucket(metadatas, t)
    ensures forall t :: t in mappings ==> mappings[t] != []
    ensures TotalSize(mappings) == TotalTags(metadatas)
  {
    mappings := map[];
    var i := 0;
    while i < |metadatas|
      invariant 0 <= i <= |metadatas|
      invariant forall t :: Lookup(mappings, t) == Bucket(metadatas[..i], t)
      invariant forall t :: t in mappings ==> mappings[t] != []
      invariant TotalSize(mappings) == TotalTags(metadatas[..i])
    {
      var metadata := metadatas[i];
      var j := 0;
      while j < |metadata.tags|
        invariant 0 <= j <= |metadata.tags|
        invariant forall t :: Lookup(mappings, t) ==
                    Bucket(metadatas[..i], t) + Repeat(metadata, TagCount(metadata.tags[..j], t))
        invariant forall t :: t in mappings ==> mappings[t] != []
        invariant TotalSize(mappings) == TotalTags(metadatas[..i]) + j
      {
        var tech := ToLower(metadata.tags[j]);
        var updated := mappings[tech := Lookup(mappings, tech) + [metadata]];
        AppendStep(mappings, updated, metadatas[..i], metadata, j);
        TotalSizeUpdate(mappings, tech, Lookup(mappings, tech) + [metadata]);
        mappings := updated;
        j := j + 1;
      }
      forall t ensures Lookup(mappings, t) == Bucket(metadatas[..i + 1], t) {
        RecordStep(metadatas, i, t);
      }
      TotalTagsSnoc(metadatas, i);
      i := i + 1;
    }
    assert metadatas[..i] == metadatas;
    forall t ensures t in mappings <==> t in LoweredTags(metadatas) {
      BucketNonEmptyIff(metadatas, t);
    }
  }

  /**
    The loop that lists the keys of `mappings`. Go visits map keys in an
    unspecified order; the model picks each next key arbitrarily, so only
    the content and multiplicity of the list are promised.
   */
  method ListTechnologies(mappings: Mappings) returns (technologies: seq<string>)
    ensures forall t :: t in technologies <==> t in mappings
    ensures Distinct(technologies)
    ensures |technologies| == |mappings|
  {
    technologies := [];
    var remaining := mappings.Keys;
    while remaining != {}
      invariant remaining <= mappings.Keys
      invariant forall t :: t in technologies <==> t in mappings && t !in remaining
      invariant Distinct(technologies)
      invariant |technologies| + |remaining| == |mappings|
      decreases |remaining|
    {
      var key :| key in remaining;
      technologies := technologies + [key];
      remaining := remaining - {key};
    }
  }
}
