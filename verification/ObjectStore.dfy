// The S3 bucket and the object helpers every sync goes through. A request that
// fails has no effect; which requests fail is an input of every call.
module ObjectStore {
  import opened Text
  import opened SyncPolicy

  type Key = string
  type Content = seq<bv8>

  const DELETE_BATCH: nat := 1000

  predicate Distinct<T(==)>(s: seq<T>) { forall i, j :: 0 <= i < j < |s| ==> s[i] != s[j] }

  // ── The objects under one prefix, by key suffix ───────────────────────────

  ghost function Suffixes(objects: map<Key, Content>, prefix: string): set<Rel> {
    set k | k in objects && prefix <= k :: k[|prefix|..]
  }

  ghost function View(objects: map<Key, Content>, prefix: string): (v: map<Rel, Content>)
    ensures forall r :: r in v <==> prefix + r in objects
    ensures forall r :: r in v ==> v[r] == objects[prefix + r]
  {
    assert forall k :: prefix <= k ==> prefix + k[|prefix|..] == k;
    assert forall r :: prefix + r in objects ==> prefix <= prefix + r && (prefix + r)[|prefix|..] == r;
    map r | r in Suffixes(objects, prefix) :: objects[prefix + r]
  }

  lemma KeyInjective(prefix: string, a: Rel, b: Rel)
    requires prefix + a == prefix + b
    ensures a == b
  {
    assert (prefix + a)[|prefix|..] == a && (prefix + b)[|prefix|..] == b;
  }

  /** `objects` and `after` differ at most below `prefix`. */
  ghost predicate OnlyUnder(prefix: string, objects: map<Key, Content>, after: map<Key, Content>) {
    forall k :: !(prefix <= k) ==> (k in objects <==> k in after) && (k in objects ==> objects[k] == after[k])
  }

  lemma OnlyUnderTwice(prefix: string, a: map<Key, Content>, b: map<Key, Content>, c: map<Key, Content>)
    requires OnlyUnder(prefix, a, b) && OnlyUnder(prefix, b, c)
    ensures OnlyUnder(prefix, a, c)
  {
  }

  lemma ViewPut(objects: map<Key, Content>, prefix: string, rel: Rel, content: Content)
    ensures View(objects[prefix + rel := content], prefix) == View(objects, prefix)[rel := content]
    ensures OnlyUnder(prefix, objects, objects[prefix + rel := content])
  {
    forall r | r != rel ensures prefix + r != prefix + rel {
      if prefix + r == prefix + rel { KeyInjective(prefix, r, rel); }
    }
  }

  /** The suffixes of keys below the prefix. */
  function SuffixesOf(prefix: string, keys: seq<Key>): set<Rel>
    requires forall k :: k in keys ==> prefix <= k
  {
    set k | k in keys :: k[|prefix|..]
  }

  lemma SuffixIn(prefix: string, keys: seq<Key>, rel: Rel)
    requires forall k :: k in keys ==> prefix <= k
    ensures rel in SuffixesOf(prefix, keys) <==> prefix + rel in keys
  {
    if prefix + rel in keys { assert (prefix + rel)[|prefix|..] == rel; }
    if rel in SuffixesOf(prefix, keys) {
      var k :| k in keys && k[|prefix|..] == rel;
      assert prefix + rel == k;
    }
  }

  lemma {:induction false} SuffixCount(prefix: string, keys: seq<Key>)
    requires Distinct(keys) && forall k :: k in keys ==> prefix <= k
    ensures |SuffixesOf(prefix, keys)| == |keys|
  {
    if keys != [] {
      assert keys[0] in keys && forall k :: k in keys[1..] ==> k in keys;
      var rel := keys[0][|prefix|..];
      assert prefix + rel == keys[0] && keys[0] !in keys[1..];
      SuffixCount(prefix, keys[1..]);
      SuffixIn(prefix, keys[1..], rel);
      assert SuffixesOf(prefix, keys) == {rel} + SuffixesOf(prefix, keys[1..]);
    }
  }

  lemma ViewDelete(objects: map<Key, Content>, prefix: string, keys: seq<Key>)
    requires forall k :: k in keys ==> prefix <= k
    ensures View(objects - (set k | k in keys), prefix) == View(objects, prefix) - SuffixesOf(prefix, keys)
    ensures OnlyUnder(prefix, objects, objects - (set k | k in keys))
  {
    forall r ensures r in SuffixesOf(prefix, keys) <==> prefix + r in keys { SuffixIn(prefix, keys, r); }
  }

  /** No key has both prefixes. */
  ghost predicate Apart(p: string, q: string) {
    exists i :: 0 <= i < |p| && i < |q| && p[i] != q[i]
  }

  lemma ViewApart(objects: map<Key, Content>, after: map<Key, Content>, p: string, q: string)
    requires Apart(p, q) && OnlyUnder(p, objects, after)
    ensures View(objects, q) == View(after, q)
  {
    var i :| 0 <= i < |p| && i < |q| && p[i] != q[i];
    forall r ensures !(p <= q + r) {
      assert (q + r)[i] == q[i];
    }
  }

  // ── The bucket ────────────────────────────────────────────────────────────

  // What S3 does with a delete call: the keys it refuses, and the number of the
  // request that throws.
  datatype DeleteTrouble = DeleteTrouble(refused: set<Key>, throwsAt: Option<nat>) {
    predicate Throws(keys: nat) { throwsAt.Some? && throwsAt.value * DELETE_BATCH < keys }
  }

  class Bucket {
    var objects: map<Key, Content>

    constructor ()
      ensures objects == map[]
    {
      objects := map[];
    }

    method Put(key: Key, content: Content, fails: bool) returns (ok: bool)
      modifies this
      ensures ok == !fails
      ensures objects == if ok then old(objects)[key := content] else old(objects)
    {
      ok := !fails;
      if ok { objects := objects[key := content]; }
    }

    /** The object's body; None when the request throws. */
    method Fetch(key: Key, fails: bool) returns (content: Option<Content>)
      ensures content == if fails || key !in objects then None else Some(objects[key])
    {
      return if fails || key !in objects then None else Some(objects[key]);
    }

    /** Server-side copy: throws when the source key is missing. */
    method Copy(source: Key, target: Key, fails: bool) returns (ok: bool)
      modifies this
      ensures ok <==> !fails && source in old(objects)
      ensures objects == if ok then old(objects)[target := old(objects)[source]] else old(objects)
    {
      ok := !fails && source in objects;
      if ok { objects := objects[target := objects[source]]; }
    }

    /** One DeleteObjects request: None when it throws, else the keys refused. */
    method DeleteBatch(batch: seq<Key>, fails: bool, errors: set<Key>) returns (refused: Option<set<Key>>)
      modifies this
      ensures refused == if fails then None else Some(errors)
      ensures objects == if fails then old(objects) else old(objects) - (set k | k in batch && k !in errors)
    {
      if fails { return None; }
      objects := objects - (set k | k in batch && k !in errors);
      return Some(errors);
    }

    /** Deletes in requests of DELETE_BATCH keys. When the request that is to throw
        is reached the whole call throws, although every earlier one took effect:
        `accepted` is what really went, of the `answered` keys S3 replied about. */
    method DeleteKeys(keys: seq<Key>, trouble: DeleteTrouble)
      returns (deleted: Option<seq<Key>>, ghost accepted: seq<Key>, ghost answered: nat)
      modifies this
      ensures deleted == if trouble.Throws(|keys|) then None else Some(accepted)
      ensures answered == (if trouble.Throws(|keys|) then trouble.throwsAt.value * DELETE_BATCH else |keys|) <= |keys|
      ensures forall k :: k in accepted <==> k in keys[..answered] && k !in trouble.refused
      ensures Distinct(keys) ==> Distinct(accepted)
      ensures objects == old(objects) - (set k | k in accepted)
    {
      var done: seq<Key> := [];
      var i, request := 0, 0;
      while i < |keys|
        invariant i == request * DELETE_BATCH
        invariant trouble.throwsAt.Some? && trouble.throwsAt.value < request ==> |keys| <= trouble.throwsAt.value * DELETE_BATCH
        invariant forall k :: k in done <==> k in keys[..if i < |keys| then i else |keys|] && k !in trouble.refused
        invariant Distinct(keys) ==> Distinct(done)
        invariant objects == old(objects) - (set k | k in done)
      {
        var end := if i + DELETE_BATCH < |keys| then i + DELETE_BATCH else |keys|;
        var batch := keys[i..end];
        var refused := DeleteBatch(batch, trouble.throwsAt == Some(request), trouble.refused);
        if refused.None? {
          return None, done, i;
        }
        var kept := Accepted(batch, refused.value);
        AcceptedAre(batch, refused.value);
        NextBatch(keys, i, end);
        if Distinct(keys) { DistinctConcat(done, kept); }
        done := done + kept;
        i, request := i + DELETE_BATCH, request + 1;
      }
      assert keys[..|keys|] == keys;
      return Some(done), done, |keys|;
    }

    /** Every key under the prefix, in no particular order; None when it throws. */
    method ListObjects(prefix: string, fails: bool) returns (keys: Option<seq<Key>>)
      ensures keys.None? <==> fails
      ensures keys.Some? ==> Distinct(keys.value)
      ensures keys.Some? ==> forall k :: k in keys.value <==> k in objects && prefix <= k
    {
      if fails { return None; }
      var rest := set k | k in objects && prefix <= k;
      var listing: seq<Key> := [];
      while rest != {}
        invariant Distinct(listing)
        invariant forall k :: k in rest ==> k in objects && prefix <= k && k !in listing
        invariant forall k :: k in objects && prefix <= k <==> k in rest || k in listing
        decreases rest
      {
        var k :| k in rest;
        rest, listing := rest - {k}, listing + [k];
      }
      return Some(listing);
    }
  }

  lemma DistinctConcat<T>(a: seq<T>, b: seq<T>)
    requires Distinct(a) && Distinct(b) && forall x :: x in b ==> x !in a
    ensures Distinct(a + b)
  {
    assert forall j :: 0 <= j < |b| ==> b[j] in b;
  }

  lemma NextBatch(keys: seq<Key>, from: nat, end: nat)
    requires from <= end <= |keys|
    ensures keys[..end] == keys[..from] + keys[from..end]
    ensures Distinct(keys) ==> Distinct(keys[from..end]) && forall k :: k in keys[from..end] ==> k !in keys[..from]
  {
  }

  /** The keys of one batch S3 did not report an error for. */
  function Accepted(batch: seq<Key>, refused: set<Key>): seq<Key> {
    if batch == [] then []
    else (if batch[0] in refused then [] else [batch[0]]) + Accepted(batch[1..], refused)
  }

  lemma {:induction false} AcceptedAre(batch: seq<Key>, refused: set<Key>)
    ensures forall k :: k in Accepted(batch, refused) <==> k in batch && k !in refused
    ensures Distinct(batch) ==> Distinct(Accepted(batch, refused))
  {
    if batch != [] { AcceptedAre(batch[1..], refused); }
  }
}
