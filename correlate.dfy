/**
 * Correlation: findings grouped into one entity per bucket key, the `type:value` of the entity's
 * first identifier (or its id when it has none), in first-seen key order.
 */
module Correlate {
  import opened Wrappers
  import opened Seqs
  import opened Schema

  /** The bucket an entity falls into. */
  function BucketKey(e: Entity): string {
    if e.identifiers != [] then e.identifiers[0].kind + ":" + e.identifiers[0].value else e.entityId
  }

  /** The bucket key of every finding, in input order. */
  function KeysOf(fs: seq<Finding>): seq<string> {
    seq(|fs|, i requires 0 <= i < |fs| => BucketKey(fs[i].entity))
  }

  /** The entities of the findings whose key is `key`, in input order. */
  function Bucket(fs: seq<Finding>, key: string): seq<Entity>
    decreases |fs|
  {
    if fs == [] then []
    else
      var e := fs[|fs| - 1].entity;
      Bucket(fs[..|fs| - 1], key) + (if BucketKey(e) == key then [e] else [])
  }

  /** A bucket holds exactly the entities with its key, and is empty exactly when no finding has the key. */
  lemma {:induction false} BucketMembers(fs: seq<Finding>, key: string)
    ensures forall i :: 0 <= i < |Bucket(fs, key)| ==> BucketKey(Bucket(fs, key)[i]) == key
    ensures Bucket(fs, key) == [] <==> forall i :: 0 <= i < |fs| ==> BucketKey(fs[i].entity) != key
    decreases |fs|
  {
    if fs != [] {
      var init := fs[..|fs| - 1];
      BucketMembers(init, key);
      assert forall i :: 0 <= i < |init| ==> init[i] == fs[i];
    }
  }

  /** The concatenation of `proj` over the entities, in order. */
  function Gather<T>(es: seq<Entity>, proj: Entity -> seq<T>): seq<T>
    decreases |es|
  {
    if es == [] then [] else Gather(es[..|es| - 1], proj) + proj(es[|es| - 1])
  }

  function UrlsOf(e: Entity): seq<string> { e.profileUrls }
  function IdentifiersOf(e: Entity): seq<Identifier> { e.identifiers }
  function EvidenceOf(e: Entity): seq<Evidence> { e.evidence }

  /** One bucket merged: the first entity's id and display name, every entity's lists concatenated. */
  function Merge(bucket: seq<Entity>): Entity
    requires bucket != []
  {
    Entity(bucket[0].entityId, bucket[0].displayName,
           Gather(bucket, UrlsOf), Gather(bucket, IdentifiersOf), Gather(bucket, EvidenceOf))
  }

  /** The merged entity of each key, in the order of `keys`. */
  function MergeAll(fs: seq<Finding>, keys: seq<string>): (r: seq<Entity>)
    requires forall j :: 0 <= j < |keys| ==> keys[j] in KeysOf(fs)
    ensures |r| == |keys|
    decreases |keys|
  {
    if keys == [] then []
    else
      var k := keys[|keys| - 1];
      KeyHasBucket(fs, k);
      MergeAll(fs, keys[..|keys| - 1]) + [Merge(Bucket(fs, k))]
  }

  /** The correlated entities: one per distinct key, in first-seen order, so never more than the findings. */
  function Correlated(fs: seq<Finding>): (r: seq<Entity>)
    ensures |r| == |Dedup(KeysOf(fs))| && |r| <= |fs|
    ensures fs == [] ==> r == []
  {
    MergeAll(fs, Dedup(KeysOf(fs)))
  }

  /** Every key that occurs has a non-empty bucket. */
  lemma KeyHasBucket(fs: seq<Finding>, key: string)
    requires key in KeysOf(fs)
    ensures Bucket(fs, key) != []
  {
    var i :| 0 <= i < |fs| && KeysOf(fs)[i] == key;
    BucketMembers(fs, key);
  }

  /** Appending a finding adds its entity to its own bucket and leaves every other bucket alone. */
  lemma BucketAppend(fs: seq<Finding>, f: Finding, key: string)
    ensures Bucket(fs + [f], key) == Bucket(fs, key) + (if BucketKey(f.entity) == key then [f.entity] else [])
  {
    assert (fs + [f])[|fs|] == f;
    assert (fs + [f])[..|fs|] == fs;
  }

  lemma KeysOfAppend(fs: seq<Finding>, f: Finding)
    ensures KeysOf(fs + [f]) == KeysOf(fs) + [BucketKey(f.entity)]
  {
  }

  /** `correlate_findings`: buckets filled in one pass, then each bucket merged in key order. */
  method CorrelateFindings(findings: seq<Finding>) returns (merged: seq<Entity>)
    ensures merged == Correlated(findings)
  {
    var buckets, order := FillBuckets(findings);
    merged := MergeBuckets(findings, buckets, order);
  }

  /**
   * The first pass: each finding's entity appended to its key's bucket; `order` is the keys in
   * first-seen order, the iteration order of Python's dict.
   */
  method FillBuckets(findings: seq<Finding>) returns (buckets: map<string, seq<Entity>>, order: seq<string>)
    ensures Filled(findings, buckets, order)
  {
    buckets, order := map[], [];
    for i := 0 to |findings|
      invariant Filled(findings[..i], buckets, order)
    {
      var entity := findings[i].entity;
      var key := if |entity.identifiers| > 0 then entity.identifiers[0].kind + ":" + entity.identifiers[0].value
                 else entity.entityId;
      if key in buckets {
        FillStepSeen(findings, i, buckets, order);
        buckets := buckets[key := buckets[key] + [entity]];
      } else {
        FillStepNew(findings, i, buckets, order);
        buckets := buckets[key := [entity]];
        order := order + [key];
      }
    }
    assert findings[..|findings|] == findings;
  }

  /** `buckets` and `order` are what the first pass builds from `fs`. */
  ghost predicate Filled(fs: seq<Finding>, buckets: map<string, seq<Entity>>, order: seq<string>) {
    && order == Dedup(KeysOf(fs))
    && (forall k :: k in buckets <==> k in order)
    && (forall k :: k in buckets ==> buckets[k] == Bucket(fs, k))
  }

  /** One finding more, whose key already has a bucket: the entity joins that bucket. */
  lemma FillStepSeen(findings: seq<Finding>, i: nat, buckets: map<string, seq<Entity>>, order: seq<string>)
    requires i < |findings| && Filled(findings[..i], buckets, order)
    requires BucketKey(findings[i].entity) in buckets
    ensures var e := findings[i].entity;
      Filled(findings[..i + 1], buckets[BucketKey(e) := buckets[BucketKey(e)] + [e]], order)
  {
    var e := findings[i].entity;
    var key := BucketKey(e);
    assert key in order;
    assert Dedup(KeysOf(findings[..i + 1])) == order by {
      OrderStep(findings, i);
    }
    BucketsStep(findings, i, buckets, buckets[key] + [e]);
  }

  /** One finding more, with a new key: a bucket holding just its entity, and the key appended to the order. */
  lemma FillStepNew(findings: seq<Finding>, i: nat, buckets: map<string, seq<Entity>>, order: seq<string>)
    requires i < |findings| && Filled(findings[..i], buckets, order)
    requires BucketKey(findings[i].entity) !in buckets
    ensures var e := findings[i].entity;
      Filled(findings[..i + 1], buckets[BucketKey(e) := [e]], order + [BucketKey(e)])
  {
    NewKeyOrder(findings, i, order);
    NewKeyBuckets(findings, i, buckets, order);
    NewKeyDomain(buckets, order, findings[i].entity);
  }

  /** Giving a new key a bucket keeps the bucket keys and the order in step. */
  lemma NewKeyDomain(buckets: map<string, seq<Entity>>, order: seq<string>, e: Entity)
    requires forall k :: k in buckets <==> k in order
    ensures forall k :: k in buckets[BucketKey(e) := [e]] <==> k in order + [BucketKey(e)]
  {
  }

  /** A key not in the order so far is appended to it. */
  lemma NewKeyOrder(findings: seq<Finding>, i: nat, order: seq<string>)
    requires i < |findings| && order == Dedup(KeysOf(findings[..i]))
    requires BucketKey(findings[i].entity) !in order
    ensures order + [BucketKey(findings[i].entity)] == Dedup(KeysOf(findings[..i + 1]))
  {
    OrderStep(findings, i);
  }

  /** A key not in the order so far gets a bucket holding just the new entity. */
  lemma NewKeyBuckets(findings: seq<Finding>, i: nat, buckets: map<string, seq<Entity>>, order: seq<string>)
    requires i < |findings| && order == Dedup(KeysOf(findings[..i]))
    requires forall k :: k in buckets ==> buckets[k] == Bucket(findings[..i], k)
    requires BucketKey(findings[i].entity) !in order
    ensures var e := findings[i].entity;
      var newBuckets := buckets[BucketKey(e) := [e]];
      forall k :: k in newBuckets ==> newBuckets[k] == Bucket(findings[..i + 1], k)
  {
    var e := findings[i].entity;
    assert Bucket(findings[..i], BucketKey(e)) + [e] == [e] by {
      UnseenKeyEmptyBucket(findings[..i], BucketKey(e));
    }
    BucketsStep(findings, i, buckets, [e]);
  }

  /** The key order after one finding more. */
  lemma OrderStep(findings: seq<Finding>, i: nat)
    requires i < |findings|
    ensures var key := BucketKey(findings[i].entity);
      var d := Dedup(KeysOf(findings[..i]));
      Dedup(KeysOf(findings[..i + 1])) == if key in d then d else d + [key]
  {
    assert findings[..i + 1] == findings[..i] + [findings[i]];
    DedupStep(findings[..i], findings[i]);
  }

  /** The buckets after one finding more: its entity appended to its own key's bucket. */
  lemma BucketsStep(findings: seq<Finding>, i: nat, buckets: map<string, seq<Entity>>, bucket: seq<Entity>)
    requires i < |findings|
    requires forall k :: k in buckets ==> buckets[k] == Bucket(findings[..i], k)
    requires bucket == Bucket(findings[..i], BucketKey(findings[i].entity)) + [findings[i].entity]
    ensures var newBuckets := buckets[BucketKey(findings[i].entity) := bucket];
      forall k :: k in newBuckets ==> newBuckets[k] == Bucket(findings[..i + 1], k)
  {
    var key := BucketKey(findings[i].entity);
    var prev, next := findings[..i], findings[..i + 1];
    assert next == prev + [findings[i]];
    var newBuckets := buckets[key := bucket];
    forall k | k in newBuckets ensures newBuckets[k] == Bucket(next, k) {
      BucketAppend(prev, findings[i], k);
      if k != key {
        assert newBuckets[k] == buckets[k] == Bucket(prev, k);
      }
    }
  }

  /** A key not yet seen has an empty bucket. */
  lemma UnseenKeyEmptyBucket(fs: seq<Finding>, key: string)
    requires key !in Dedup(KeysOf(fs))
    ensures Bucket(fs, key) == []
  {
    forall i | 0 <= i < |fs| ensures BucketKey(fs[i].entity) != key {
      assert KeysOf(fs)[i] == BucketKey(fs[i].entity);
    }
    BucketMembers(fs, key);
  }

  /** The keys in first-seen order after one finding more. */
  lemma DedupStep(prev: seq<Finding>, f: Finding)
    ensures var key := BucketKey(f.entity);
      Dedup(KeysOf(prev + [f]))
        == if key in Dedup(KeysOf(prev)) then Dedup(KeysOf(prev)) else Dedup(KeysOf(prev)) + [key]
  {
    var ks := KeysOf(prev + [f]);
    assert ks[..|ks| - 1] == KeysOf(prev);
  }

  /** The second pass: each bucket, in key order, merged into one fresh entity. */
  method MergeBuckets(findings: seq<Finding>, buckets: map<string, seq<Entity>>, order: seq<string>)
    returns (merged: seq<Entity>)
    requires forall j :: 0 <= j < |order| ==> order[j] in KeysOf(findings)
    requires forall k :: k in order ==> k in buckets && buckets[k] == Bucket(findings, k)
    ensures merged == MergeAll(findings, order)
  {
    merged := [];
    for j := 0 to |order|
      invariant merged == MergeAll(findings, order[..j])
    {
      var entities := buckets[order[j]];
      KeyHasBucket(findings, order[j]);
      var primary := entities[0];
      var profileUrls, identifiers, evidence := GatherAll(entities);
      MergeAllStep(findings, order, j);
      merged := merged + [Entity(primary.entityId, primary.displayName, profileUrls, identifiers, evidence)];
    }
    assert order[..|order|] == order;
  }

  lemma MergeAllStep(fs: seq<Finding>, keys: seq<string>, j: nat)
    requires j < |keys| && forall t :: 0 <= t < |keys| ==> keys[t] in KeysOf(fs)
    ensures Bucket(fs, keys[j]) != []
      && MergeAll(fs, keys[..j + 1]) == MergeAll(fs, keys[..j]) + [Merge(Bucket(fs, keys[j]))]
  {
    KeyHasBucket(fs, keys[j]);
    assert keys[..j + 1][..j] == keys[..j];
  }

  /** The inner loop: the three lists of a bucket, extended entity by entity. */
  method GatherAll(entities: seq<Entity>) returns (profileUrls: seq<string>, identifiers: seq<Identifier>, evidence: seq<Evidence>)
    ensures profileUrls == Gather(entities, UrlsOf)
    ensures identifiers == Gather(entities, IdentifiersOf)
    ensures evidence == Gather(entities, EvidenceOf)
  {
    profileUrls, identifiers, evidence := [], [], [];
    for t := 0 to |entities|
      invariant profileUrls == Gather(entities[..t], UrlsOf)
      invariant identifiers == Gather(entities[..t], IdentifiersOf)
      invariant evidence == Gather(entities[..t], EvidenceOf)
    {
      assert entities[..t + 1][..t] == entities[..t];
      profileUrls := profileUrls + entities[t].profileUrls;
      identifiers := identifiers + entities[t].identifiers;
      evidence := evidence + entities[t].evidence;
    }
    assert entities[..|entities|] == entities;
  }

  /** Finding `i` is the first one whose entity falls into bucket `key`. */
  ghost predicate FirstWithKey(fs: seq<Finding>, i: int, key: string) {
    0 <= i < |fs| && BucketKey(fs[i].entity) == key && forall j :: 0 <= j < i ==> BucketKey(fs[j].entity) != key
  }

  /** A bucket starts with the entity of the first finding that has its key. */
  lemma {:induction false} BucketHead(fs: seq<Finding>, key: string)
    requires Bucket(fs, key) != []
    ensures exists i :: FirstWithKey(fs, i, key) && Bucket(fs, key)[0] == fs[i].entity
    decreases |fs|
  {
    var init := fs[..|fs| - 1];
    assert forall j :: 0 <= j < |init| ==> init[j] == fs[j];
    if Bucket(init, key) != [] {
      BucketHead(init, key);
      var i :| FirstWithKey(init, i, key) && Bucket(init, key)[0] == init[i].entity;
      assert FirstWithKey(fs, i, key);
    } else {
      BucketMembers(init, key);
      assert FirstWithKey(fs, |fs| - 1, key);
    }
  }

  /** The merged entity of the `j`-th key. */
  lemma {:induction false} MergeAllAt(fs: seq<Finding>, keys: seq<string>, j: nat)
    requires forall t :: 0 <= t < |keys| ==> keys[t] in KeysOf(fs)
    requires j < |keys|
    ensures Bucket(fs, keys[j]) != [] && MergeAll(fs, keys)[j] == Merge(Bucket(fs, keys[j]))
    decreases |keys|
  {
    KeyHasBucket(fs, keys[j]);
    if j < |keys| - 1 {
      var init := keys[..|keys| - 1];
      MergeAllAt(fs, init, j);
    }
  }

  /**
   * First entity wins: the `j`-th correlated entity takes its id and display name from the first
   * finding with the `j`-th key, whatever later entities in the bucket carry.
   */
  lemma CorrelatedFirstWins(fs: seq<Finding>)
    ensures forall j :: 0 <= j < |Correlated(fs)| ==>
      exists i :: (FirstWithKey(fs, i, Dedup(KeysOf(fs))[j])
        && Correlated(fs)[j].entityId == fs[i].entity.entityId
        && Correlated(fs)[j].displayName == fs[i].entity.displayName)
  {
    var keys := Dedup(KeysOf(fs));
    forall j | 0 <= j < |Correlated(fs)|
      ensures exists i :: (FirstWithKey(fs, i, keys[j])
        && Correlated(fs)[j].entityId == fs[i].entity.entityId
        && Correlated(fs)[j].displayName == fs[i].entity.displayName)
    {
      MergeAllAt(fs, keys, j);
      BucketHead(fs, keys[j]);
    }
  }

  /** The entities of the findings, in order. */
  function EntitiesOf(fs: seq<Finding>): (r: seq<Entity>)
    ensures |r| == |fs|
  {
    seq(|fs|, i requires 0 <= i < |fs| => fs[i].entity)
  }

  /** The concatenation of `proj` over the buckets of `keys`, in key order. */
  function GatherBuckets<T>(fs: seq<Finding>, keys: seq<string>, proj: Entity -> seq<T>): seq<T>
    decreases |keys|
  {
    if keys == [] then [] else GatherBuckets(fs, keys[..|keys| - 1], proj) + Gather(Bucket(fs, keys[|keys| - 1]), proj)
  }

  /** The merged entities' lists are their buckets' lists, concatenated in key order. */
  lemma {:induction false} GatherMergeAll(fs: seq<Finding>, keys: seq<string>)
    requires forall t :: 0 <= t < |keys| ==> keys[t] in KeysOf(fs)
    ensures Gather(MergeAll(fs, keys), UrlsOf) == GatherBuckets(fs, keys, UrlsOf)
    ensures Gather(MergeAll(fs, keys), IdentifiersOf) == GatherBuckets(fs, keys, IdentifiersOf)
    ensures Gather(MergeAll(fs, keys), EvidenceOf) == GatherBuckets(fs, keys, EvidenceOf)
    decreases |keys|
  {
    if keys != [] {
      var init := keys[..|keys| - 1];
      GatherMergeAll(fs, init);
      var m := MergeAll(fs, keys);
      assert m[..|m| - 1] == MergeAll(fs, init);
    }
  }

  /** Gathering one entity more appends that entity's items. */
  lemma GatherAppend<T>(es: seq<Entity>, e: Entity, proj: Entity -> seq<T>)
    ensures Gather(es + [e], proj) == Gather(es, proj) + proj(e)
  {
    assert (es + [e])[..|es|] == es;
  }

  /** No key occurs twice, stated from the back as the key order is built. */
  predicate NoRepeats(keys: seq<string>)
    decreases |keys|
  {
    keys == [] || (NoRepeats(keys[..|keys| - 1]) && keys[|keys| - 1] !in keys[..|keys| - 1])
  }

  /** A distinct sequence has no repeats. */
  lemma {:induction false} DistinctNoRepeats(keys: seq<string>)
    requires Distinct(keys)
    ensures NoRepeats(keys)
    decreases |keys|
  {
    if keys != [] {
      var init := keys[..|keys| - 1];
      assert Distinct(init);
      DistinctNoRepeats(init);
    }
  }

  /** Appending a finding adds its entity's items to the gathered buckets when its key is among `keys`. */
  lemma {:induction false} GatherBucketsAppend<T>(fs: seq<Finding>, f: Finding, keys: seq<string>, proj: Entity -> seq<T>)
    requires NoRepeats(keys)
    ensures multiset(GatherBuckets(fs + [f], keys, proj))
      == multiset(GatherBuckets(fs, keys, proj)) + (if BucketKey(f.entity) in keys then multiset(proj(f.entity)) else multiset{})
    decreases |keys|
  {
    if keys != [] {
      var init := keys[..|keys| - 1];
      var k := keys[|keys| - 1];
      GatherBucketsAppend(fs, f, init, proj);
      BucketGatherAppend(fs, f, k, proj);
      MultisetStep(GatherBuckets(fs, init, proj), GatherBuckets(fs + [f], init, proj),
                   Gather(Bucket(fs, k), proj), Gather(Bucket(fs + [f], k), proj),
                   multiset(proj(f.entity)), BucketKey(f.entity) in init, BucketKey(f.entity) == k);
      assert BucketKey(f.entity) in keys <==> BucketKey(f.entity) in init || BucketKey(f.entity) == k;
    }
  }

  /** The bookkeeping of one step: two parts, each grown by `extra` at most once, and never both. */
  lemma MultisetStep<T>(a: seq<T>, a': seq<T>, b: seq<T>, b': seq<T>, extra: multiset<T>, inA: bool, inB: bool)
    requires !(inA && inB)
    requires multiset(a') == multiset(a) + (if inA then extra else multiset{})
    requires multiset(b') == multiset(b) + (if inB then extra else multiset{})
    ensures multiset(a' + b') == multiset(a + b) + (if inA || inB then extra else multiset{})
  {
  }

  /** Appending a finding grows the gathered items of bucket `k` by its entity's items exactly when its key is `k`. */
  lemma BucketGatherAppend<T>(fs: seq<Finding>, f: Finding, k: string, proj: Entity -> seq<T>)
    ensures multiset(Gather(Bucket(fs + [f], k), proj))
      == multiset(Gather(Bucket(fs, k), proj)) + (if BucketKey(f.entity) == k then multiset(proj(f.entity)) else multiset{})
  {
    BucketAppend(fs, f, k);
    if BucketKey(f.entity) == k {
      GatherAppend(Bucket(fs, k), f.entity, proj);
    } else {
      assert Bucket(fs, k) + [] == Bucket(fs, k);
    }
  }

  /**
   * Nothing is lost or duplicated: gathered over the buckets in key order, the items of any list of
   * the entities are a permutation of the same items gathered over the findings.
   */
  lemma {:induction false} GatherConserved<T>(fs: seq<Finding>, proj: Entity -> seq<T>)
    ensures multiset(GatherBuckets(fs, Dedup(KeysOf(fs)), proj)) == multiset(Gather(EntitiesOf(fs), proj))
    decreases |fs|
  {
    if fs != [] {
      var init := fs[..|fs| - 1];
      var f := fs[|fs| - 1];
      var key := BucketKey(f.entity);
      var d := Dedup(KeysOf(init));
      assert fs == init + [f];
      GatherConserved(init, proj);
      EntitiesAppend(init, f, proj);
      DedupStep(init, f);
      DistinctNoRepeats(d);
      GatherBucketsAppend(init, f, d, proj);
      if key !in d {
        UnseenKeyEmptyBucket(init, key);
        NewKeyGather(init, f, d, proj);
      }
    }
  }

  /** Gathering over the findings' entities with one finding more. */
  lemma EntitiesAppend<T>(fs: seq<Finding>, f: Finding, proj: Entity -> seq<T>)
    ensures Gather(EntitiesOf(fs + [f]), proj) == Gather(EntitiesOf(fs), proj) + proj(f.entity)
  {
    assert EntitiesOf(fs + [f])[..|fs|] == EntitiesOf(fs);
  }

  /** A finding with an unseen key opens a bucket holding just its entity, gathered after the others. */
  lemma NewKeyGather<T>(fs: seq<Finding>, f: Finding, keys: seq<string>, proj: Entity -> seq<T>)
    requires Bucket(fs, BucketKey(f.entity)) == []
    ensures GatherBuckets(fs + [f], keys + [BucketKey(f.entity)], proj) == GatherBuckets(fs + [f], keys, proj) + proj(f.entity)
  {
    var key := BucketKey(f.entity);
    assert (keys + [key])[..|keys|] == keys;
    BucketAppend(fs, f, key);
    assert Bucket(fs + [f], key) == [f.entity];
    GatherAppend([], f.entity, proj);
    assert [] + [f.entity] == [f.entity];
  }

  /**
   * Correlation keeps every profile URL, identifier and evidence record: the output's lists hold
   * exactly the input's items (as multisets), so the totals are equal.
   */
  lemma CorrelatedConservesLists(fs: seq<Finding>)
    ensures multiset(Gather(Correlated(fs), UrlsOf)) == multiset(Gather(EntitiesOf(fs), UrlsOf))
    ensures multiset(Gather(Correlated(fs), IdentifiersOf)) == multiset(Gather(EntitiesOf(fs), IdentifiersOf))
    ensures multiset(Gather(Correlated(fs), EvidenceOf)) == multiset(Gather(EntitiesOf(fs), EvidenceOf))
    ensures |Gather(Correlated(fs), UrlsOf)| == |Gather(EntitiesOf(fs), UrlsOf)|
  {
    GatherMergeAll(fs, Dedup(KeysOf(fs)));
    GatherConserved(fs, UrlsOf);
    GatherConserved(fs, IdentifiersOf);
    GatherConserved(fs, EvidenceOf);
    assert |multiset(Gather(Correlated(fs), UrlsOf))| == |multiset(Gather(EntitiesOf(fs), UrlsOf))|;
  }

  /**
   * Two findings make one entity exactly when their keys agree: only the first identifier counts,
   * so entities sharing a later identifier stay apart.
   */
  lemma TwoFindings(f1: Finding, f2: Finding)
    ensures BucketKey(f1.entity) == BucketKey(f2.entity) ==>
      Correlated([f1, f2]) == [Merge([f1.entity, f2.entity])]
    ensures BucketKey(f1.entity) != BucketKey(f2.entity) ==>
      Correlated([f1, f2]) == [Merge([f1.entity]), Merge([f2.entity])]
  {
    var fs := [f1, f2];
    var k1 := BucketKey(f1.entity);
    var k2 := BucketKey(f2.entity);
    assert fs[..1] == [f1];
    assert [f1][..0] == [];
    assert KeysOf(fs) == [k1, k2];
    assert KeysOf([f1]) == [k1];
    assert Dedup([k1]) == [k1] by { assert [k1][..0] == []; }
    assert [k1, k2][..1] == [k1];
    assert Bucket([f1], k1) == [f1.entity];
    if k1 == k2 {
      assert Dedup(KeysOf(fs)) == [k1];
      assert Bucket(fs, k1) == [f1.entity, f2.entity];
    } else {
      assert Dedup(KeysOf(fs)) == [k1, k2];
      assert Bucket(fs, k1) == [f1.entity];
      assert Bucket([f1], k2) == [] by { assert Bucket([], k2) == []; }
      assert Bucket(fs, k2) == [f2.entity];
      assert MergeAll(fs, [k1]) == [Merge([f1.entity])] by { assert [k1][..0] == []; }
      assert MergeAll(fs, [k1, k2]) == MergeAll(fs, [k1]) + [Merge([f2.entity])];
    }
  }

  /** Two profiles sharing an e-mail address as their first identifier merge into one entity, with the first one's id. */
  lemma SharedEmailMerges(address: string)
    ensures var e1 := Entity("a", None, [], [Identifier("email", address, [])], []);
      var e2 := Entity("b", None, [], [Identifier("email", address, [])], []);
      var r := Correlated([NewFinding("s1", "profile", e1), NewFinding("s2", "profile", e2)]);
      |r| == 1 && r[0].entityId == "a" && |r[0].identifiers| == 2
  {
    var e1 := Entity("a", None, [], [Identifier("email", address, [])], []);
    var e2 := Entity("b", None, [], [Identifier("email", address, [])], []);
    var f1 := NewFinding("s1", "profile", e1);
    var f2 := NewFinding("s2", "profile", e2);
    assert BucketKey(e1) == BucketKey(e2);
    TwoFindings(f1, f2);
    var b := [e1, e2];
    assert b[..1] == [e1] && [e1][..0] == [];
    assert Gather(b, IdentifiersOf) == Gather([e1], IdentifiersOf) + e2.identifiers;
    assert Gather([e1], IdentifiersOf) == e1.identifiers;
  }
}
