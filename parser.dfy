/** `GeneralRequestParser` of geeneus/backend/Parser.py: the single-object
    cache orchestrator `_get_object` and the batch fetch with recursive
    bisection `_get_batch_XML`, both driving a fresh retry coordinator. */
module Parser {
  import opened Retry

  /** An accession identifier; `InvalidId` is the reserved value -1 that a
      caller's preprocessing puts in place of an unusable accession. */
  datatype Id = InvalidId | Accession(name: string)

  /** What the domain-object constructor is called with: the empty list,
      -1 for "not found", or a decoded payload. */
  datatype ObjArg<P> = EmptyPayload | NotFound | FromPayload(payload: P)

  /** One entry of a batch result: -1 for an ID the bisection isolated as
      unresolvable, or the decoded element for that ID. */
  datatype Item<X> = Missing | Found(x: X)

  /** A domain object built by `newObjectConstructor`. Each construction
      allocates a new object, so two lookups answer the identical object only
      when the second is served from the datastore. `value` is what the
      constructor builds from its argument. */
  class Record<O> {
    const value: O

    constructor (value: O)
      ensures this.value == value
    {
      this.value := value;
    }
  }

  /** The dictionary `datastore` that `_get_object` reads and writes in place. */
  class Datastore<O> {
    var entries: map<Id, Record<O>>

    constructor ()
      ensures entries == map[]
    {
      entries := map[];
    }
  }

  /** A batch answer is used as it is only when it has one element per ID. */
  predicate Accepted<X>(r: Response<seq<X>>, ids: seq<Id>)
  {
    r.Ok? && |r.payload| == |ids|
  }

  function Founds<X>(xs: seq<X>): (r: seq<Item<X>>)
  {
    seq(|xs|, i requires 0 <= i < |xs| => Found(xs[i]))
  }

  /** The settled result of a fresh coordinator on each batch: what the
      retry loop of `_get_batch_XML` (Parser.py:82-83) ends with. */
  function Verdict<H, X>(retry: nat, g: Gateway<seq<Id>, H, seq<X>>): (v: seq<Id> -> Response<seq<X>>)
    ensures forall q :: !v(q).Transient?
  {
    (q: seq<Id>) => Run(retry, g, q, 0).result
  }

  /** The value `_get_batch_XML` computes from the settled result of each
      batch it sends (with the fetch function passed on to the recursive
      calls). Every ID gets exactly one entry. */
  function Batch<X>(verdict: seq<Id> -> Response<seq<X>>, ids: seq<Id>): (r: seq<Item<X>>)
    ensures |r| == |ids|
    decreases |ids|
  {
    if |ids| == 0 then []
    else if Accepted(verdict(ids), ids) then Founds(verdict(ids).payload)
    else if |ids| == 1 then [Missing]
    else Batch(verdict, ids[..|ids| / 2]) + Batch(verdict, ids[|ids| / 2..])
  }

  /** A bisection node's attempts plus its two children's attempts fit in
      the budget of the whole subtree. */
  lemma SplitBound(b: nat, m: nat, n: nat, x: nat, y: nat, z: nat)
    requires m >= 1 && n >= 1
    requires x <= b && y <= b * (2 * m - 1) && z <= b * (2 * n - 1)
    ensures x + y + z <= b * (2 * (m + n) - 1)
  {
    assert b * (2 * (m + n) - 1) == b * (2 * m - 1) + b * (2 * n - 1) + b;
  }

  /** One node's attempts fit in the budget of any non-empty subtree. */
  lemma NodeBound(b: nat, n: nat, x: nat)
    requires n >= 1 && x <= b
    ensures x <= b * (2 * n - 1)
  {
    assert b * (2 * n - 1) == b * (2 * n - 2) + b;
  }

  /** The number of fetch calls `_get_batch_XML` makes on `ids`: one
      coordinator's attempts per list it is called on. Only the empty list is
      answered without contacting the remote service. */
  function BatchAttempts<H, X>(retry: nat, g: Gateway<seq<Id>, H, seq<X>>, ids: seq<Id>): (n: nat)
    ensures n == 0 <==> |ids| == 0
    decreases |ids|
  {
    if |ids| == 0 then 0
    else
      var s := Run(retry, g, ids, 0);
      if !Accepted(s.result, ids) && |ids| > 1 then
        s.counter + BatchAttempts(retry, g, ids[..|ids| / 2]) + BatchAttempts(retry, g, ids[|ids| / 2..])
      else s.counter
  }

  /** Every list of the bisection tree (at most `2 * |ids| - 1` of them)
      spends at most `retry + 1` attempts. */
  lemma {:induction false} BatchAttemptsBound<H, X>(retry: nat, g: Gateway<seq<Id>, H, seq<X>>, ids: seq<Id>)
    requires |ids| > 0
    ensures BatchAttempts(retry, g, ids) <= (retry + 1) * (2 * |ids| - 1)
    decreases |ids|
  {
    var s := Run(retry, g, ids, 0);
    if !Accepted(s.result, ids) && |ids| > 1 {
      var half := |ids| / 2;
      var left, right := ids[..half], ids[half..];
      BatchAttemptsBound(retry, g, left);
      BatchAttemptsBound(retry, g, right);
      SplitBound(retry + 1, |left|, |right|, s.counter, BatchAttempts(retry, g, left), BatchAttempts(retry, g, right));
    } else {
      NodeBound(retry + 1, |ids|, s.counter);
    }
  }

  /** Position `i` of a concatenation. */
  lemma ConcatAt<T>(a: seq<T>, b: seq<T>, i: nat)
    requires i < |a| + |b|
    ensures (a + b)[i] == if i < |a| then a[i] else b[i - |a|]
  {
  }

  /** A rejected batch of two or more IDs is the left half's result
      followed by the right half's. */
  lemma BatchSplit<X>(verdict: seq<Id> -> Response<seq<X>>, ids: seq<Id>)
    requires |ids| >= 2 && !Accepted(verdict(ids), ids)
    ensures Batch(verdict, ids) == Batch(verdict, ids[..|ids| / 2]) + Batch(verdict, ids[|ids| / 2..])
  {
  }

  /** An ID ends up as -1 only when the batch made of that ID alone fails:
      its retries are exhausted or it does not answer with one element. */
  lemma {:induction false} BatchMissingIsolated<X>(verdict: seq<Id> -> Response<seq<X>>, ids: seq<Id>, i: nat)
    requires i < |ids|
    requires Batch(verdict, ids)[i].Missing?
    ensures !Accepted(verdict([ids[i]]), [ids[i]])
    decreases |ids|
  {
    if Accepted(verdict(ids), ids) {
    } else if |ids| == 1 {
      assert ids == [ids[i]];
    } else {
      var half := |ids| / 2;
      var left, right := ids[..half], ids[half..];
      BatchSplit(verdict, ids);
      ConcatAt(Batch(verdict, left), Batch(verdict, right), i);
      if i < half {
        BatchMissingIsolated(verdict, left, i);
        assert left[i] == ids[i];
      } else {
        BatchMissingIsolated(verdict, right, i - half);
        assert right[i - half] == ids[i];
      }
    }
  }

  /** Element `i - lo` of an accepted answer to the sub-list `ids[lo..hi]`,
      which holds position `i`, is `x`. */
  ghost predicate AnsweredAt<X>(verdict: seq<Id> -> Response<seq<X>>, ids: seq<Id>, i: nat, x: X, lo: nat, hi: nat)
  {
    lo <= i < hi <= |ids| &&
    Accepted(verdict(ids[lo..hi]), ids[lo..hi]) &&
    verdict(ids[lo..hi]).payload[i - lo] == x
  }

  /** An answer found inside the left half is an answer at the same
      position of the whole list. */
  lemma AnsweredInLeft<X>(verdict: seq<Id> -> Response<seq<X>>, ids: seq<Id>, half: nat, i: nat, x: X, lo: nat, hi: nat)
    requires half <= |ids|
    requires AnsweredAt(verdict, ids[..half], i, x, lo, hi)
    ensures AnsweredAt(verdict, ids, i, x, lo, hi)
  {
    assert ids[..half][lo..hi] == ids[lo..hi];
  }

  /** An answer found inside the right half is an answer at the position
      shifted by the left half's length. */
  lemma AnsweredInRight<X>(verdict: seq<Id> -> Response<seq<X>>, ids: seq<Id>, half: nat, i: nat, x: X, lo: nat, hi: nat)
    requires half <= i < |ids|
    requires AnsweredAt(verdict, ids[half..], i - half, x, lo, hi)
    ensures AnsweredAt(verdict, ids, i, x, half + lo, half + hi)
  {
    assert ids[half..][lo..hi] == ids[half + lo..half + hi];
  }

  /** Every decoded entry of a batch result sits at its own ID's position:
      it is element `i - lo` of an accepted answer to the contiguous
      sub-list `ids[lo..hi]` that holds position `i`. */
  lemma {:induction false} BatchFoundAligned<X>(verdict: seq<Id> -> Response<seq<X>>, ids: seq<Id>, i: nat)
    requires i < |ids|
    requires Batch(verdict, ids)[i].Found?
    ensures exists lo: nat, hi: nat :: AnsweredAt(verdict, ids, i, Batch(verdict, ids)[i].x, lo, hi)
    decreases |ids|
  {
    var x := Batch(verdict, ids)[i].x;
    if Accepted(verdict(ids), ids) {
      assert ids[0..|ids|] == ids;
      assert AnsweredAt(verdict, ids, i, x, 0, |ids|);
    } else if |ids| >= 2 {
      var half := |ids| / 2;
      var left, right := ids[..half], ids[half..];
      BatchSplit(verdict, ids);
      ConcatAt(Batch(verdict, left), Batch(verdict, right), i);
      if i < half {
        BatchFoundAligned(verdict, left, i);
        var lo: nat, hi: nat :| AnsweredAt(verdict, left, i, x, lo, hi);
        AnsweredInLeft(verdict, ids, half, i, x, lo, hi);
      } else {
        BatchFoundAligned(verdict, right, i - half);
        var lo: nat, hi: nat :| AnsweredAt(verdict, right, i - half, x, lo, hi);
        AnsweredInRight(verdict, ids, half, i, x, lo, hi);
      }
    }
  }

  /** No ID of `q` is in `bad`. */
  predicate Clean(q: seq<Id>, bad: set<Id>)
  {
    forall j :: 0 <= j < |q| ==> q[j] !in bad
  }

  /** The honest answer to a batch: one record per ID, in order. */
  function Honest<X>(rec: Id -> X, q: seq<Id>): (r: seq<X>)
  {
    seq(|q|, j requires 0 <= j < |q| => rec(q[j]))
  }

  /** Position `i` of a batch whose clean sub-lists settle on the honest
      answer and whose poisoned sub-lists are rejected. */
  lemma {:induction false} PoisonAt<X>(verdict: seq<Id> -> Response<seq<X>>, bad: set<Id>, rec: Id -> X, ids: seq<Id>, i: nat)
    requires forall q :: Clean(q, bad) ==> verdict(q) == Ok(Honest(rec, q))
    requires forall q :: !Clean(q, bad) ==> !Accepted(verdict(q), q)
    requires i < |ids|
    ensures Batch(verdict, ids)[i] == if ids[i] in bad then Missing else Found(rec(ids[i]))
    decreases |ids|
  {
    if Clean(ids, bad) {
      assert verdict(ids) == Ok(Honest(rec, ids));
    } else if |ids| == 1 {
      assert ids[0] in bad;
    } else {
      var half := |ids| / 2;
      var left, right := ids[..half], ids[half..];
      BatchSplit(verdict, ids);
      ConcatAt(Batch(verdict, left), Batch(verdict, right), i);
      if i < half {
        PoisonAt(verdict, bad, rec, left, i);
        assert left[i] == ids[i];
      } else {
        PoisonAt(verdict, bad, rec, right, i - half);
        assert right[i - half] == ids[i];
      }
    }
  }

  /** Bisection isolates poisoned IDs. When every batch free of the IDs in
      `bad` settles on the honest answer and every batch holding one of them
      is rejected, the result is -1 exactly at the positions of poisoned IDs
      and the honest record everywhere else. */
  lemma {:induction false} PoisonIsolated<X>(verdict: seq<Id> -> Response<seq<X>>, bad: set<Id>, rec: Id -> X, ids: seq<Id>)
    requires forall q :: Clean(q, bad) ==> verdict(q) == Ok(Honest(rec, q))
    requires forall q :: !Clean(q, bad) ==> !Accepted(verdict(q), q)
    ensures forall i :: 0 <= i < |ids| ==>
      Batch(verdict, ids)[i] == if ids[i] in bad then Missing else Found(rec(ids[i]))
  {
    forall i | 0 <= i < |ids|
      ensures Batch(verdict, ids)[i] == if ids[i] in bad then Missing else Found(rec(ids[i]))
    {
      PoisonAt(verdict, bad, rec, ids, i);
    }
  }

  /** A remote side that answers every batch with the same two records. */
  function TwoAnswers(): (g: Gateway<seq<Id>, (), seq<int>>)
  {
    Gateway((q: seq<Id>, k: nat) => Got(()), (h: ()) => Some([7, 8]))
  }

  /** Three IDs against a remote side that always answers two records: the
      whole batch is rejected, the first ID alone is rejected and becomes -1,
      and the last two are accepted as one batch, in order. */
  lemma ThreeIdsTwoAnswers()
    ensures Batch(Verdict(0, TwoAnswers()), [Accession("A"), Accession("B"), Accession("C")]) == [Missing, Found(7), Found(8)]
  {
    var ids := [Accession("A"), Accession("B"), Accession("C")];
    assert ids[..1] == [Accession("A")] && ids[1..] == [Accession("B"), Accession("C")];
    assert Attempt(TwoAnswers(), ids, 0) == Ok([7, 8]);
    assert Attempt(TwoAnswers(), ids[..1], 0) == Ok([7, 8]);
    assert Attempt(TwoAnswers(), ids[1..], 0) == Ok([7, 8]);
  }

  /** The parser object; only its retry count and cache flag matter here. */
  class GeneralRequestParser {
    const retry: nat
    const cache: bool

    constructor (retry: nat, cache: bool)
      ensures this.retry == retry && this.cache == cache
    {
      this.retry := retry;
      this.cache := cache;
    }

    /** `_build_retry_function`: a coordinator with a fresh counter whose
        fetch function talks to `remote`. */
    method BuildRetryFunction<Q, H, P>(g: Gateway<Q, H, P>, remote: Remote<Q>) returns (c: RetryCoordinator<Q, H, P>)
      ensures fresh(c) && c.Valid()
      ensures c.numberOfRetries == retry && c.gateway == g && c.remote == remote
      ensures c.retryCounter == 0
    {
      c := new RetryCoordinator(retry, g, remote);
    }

    /** `_get_object`. A cache hit answers the stored object and changes
        nothing; the invalid ID answers a new object built from the empty
        list and stores nothing; neither contacts the remote service. Any
        other lookup runs the coordinator to the end (one fetch of `id` per
        attempt), stores a new object built from the result under `id`
        (overwriting an entry when caching is off) and answers it.
        `construct` gives the contents the domain constructor builds from its
        argument. `calls` is the number of coordinator calls. */
    method GetObject<H, P, O>(id: Id, store: Datastore<O>, remote: Remote<Id>, g: Gateway<Id, H, P>, construct: ObjArg<P> -> O)
      returns (obj: Record<O>, ghost calls: nat)
      modifies store, remote
      ensures if id in old(store.entries) && cache then
                obj == old(store.entries)[id] && store.entries == old(store.entries) &&
                remote.log == old(remote.log) && calls == 0
              else if id.InvalidId? then
                fresh(obj) && obj.value == construct(EmptyPayload) &&
                store.entries == old(store.entries) && remote.log == old(remote.log) && calls == 0
              else
                var s := Run(retry, g, id, 0);
                fresh(obj) && obj.value == construct(if s.result.Exhausted? then NotFound else FromPayload(s.result.payload)) &&
                store.entries == old(store.entries)[id := obj] &&
                remote.log == old(remote.log) + Repeat(id, s.counter) && 0 < calls <= retry + 2
    {
      calls := 0;
      if id !in store.entries || !cache {
        if id.InvalidId? {
          obj := new Record(construct(EmptyPayload));
          return;
        }
        var xml: Response<P> := Transient;
        var c := BuildRetryFunction(g, remote);
        while xml.Transient?
          invariant fresh(c) && c.Valid() && c.numberOfRetries == retry && c.gateway == g && c.remote == remote
          invariant remote.log == old(remote.log) + Repeat(id, c.retryCounter)
          invariant xml.Transient? ==> Run(retry, g, id, c.retryCounter) == Run(retry, g, id, 0) && calls == c.retryCounter
          invariant !xml.Transient? ==> xml == Run(retry, g, id, 0).result && c.retryCounter == Run(retry, g, id, 0).counter
          invariant !xml.Transient? ==> 0 < calls <= c.retryCounter + 1
          invariant store.entries == old(store.entries)
          decreases if xml.Transient? then retry + 2 - c.retryCounter else 0
        {
          xml := c.Call(id);
          calls := calls + 1;
        }
        var built;
        if xml.Exhausted? {
          built := new Record(construct(NotFound));
        } else {
          built := new Record(construct(FromPayload(xml.payload)));
        }
        store.entries := store.entries[id := built];
      }
      obj := store.entries[id];
    }

    /** With caching on, looking the same valid ID up twice answers the
        identical object both times, and only the first lookup can contact
        the remote service: the log grows by at most one run. */
    method LookupTwice<H, P, O>(id: Id, store: Datastore<O>, remote: Remote<Id>, g: Gateway<Id, H, P>, construct: ObjArg<P> -> O)
      returns (first: Record<O>, second: Record<O>)
      requires cache && !id.InvalidId?
      modifies store, remote
      ensures second == first
      ensures remote.log == old(remote.log) + (if id in old(store.entries) then [] else Repeat(id, Run(retry, g, id, 0).counter))
      ensures id in store.entries && store.entries[id] == first
      ensures forall k :: k in old(store.entries) && k != id ==> k in store.entries && store.entries[k] == old(store.entries)[k]
    {
      ghost var c;
      first, c := GetObject(id, store, remote, g, construct);
      second, c := GetObject(id, store, remote, g, construct);
    }

    /** With caching off, the second lookup of a valid ID fetches again (a
        whole second run in the remote's log) and answers a new object,
        which replaces the first in the datastore. */
    method LookupTwiceUncached<H, P, O>(id: Id, store: Datastore<O>, remote: Remote<Id>, g: Gateway<Id, H, P>, construct: ObjArg<P> -> O)
      returns (first: Record<O>, second: Record<O>)
      requires !cache && !id.InvalidId?
      modifies store, remote
      ensures fresh(first) && fresh(second) && second != first
      ensures Run(retry, g, id, 0).counter > 0
      ensures remote.log == old(remote.log) + Repeat(id, Run(retry, g, id, 0).counter) + Repeat(id, Run(retry, g, id, 0).counter)
      ensures id in store.entries && store.entries[id] == second
    {
      ghost var c;
      first, c := GetObject(id, store, remote, g, construct);
      second, c := GetObject(id, store, remote, g, construct);
    }

    /** `_get_batch_XML`: one entry per ID, equal to the bisection result,
        with exactly `BatchAttempts` fetch calls in the remote's log (none
        for the empty list). The recursive calls in the source omit the
        fetch-function argument; here the same gateway is passed on
        unchanged. */
    method GetBatchXml<H, X>(ids: seq<Id>, remote: Remote<seq<Id>>, g: Gateway<seq<Id>, H, seq<X>>) returns (r: seq<Item<X>>)
      modifies remote
      ensures r == Batch(Verdict(retry, g), ids)
      ensures |remote.log| == |old(remote.log)| + BatchAttempts(retry, g, ids)
      decreases |ids|
    {
      if |ids| == 0 {
        return [];
      }
      var xml: Response<seq<X>> := Transient;
      var c := BuildRetryFunction(g, remote);
      while xml.Transient?
        invariant fresh(c) && c.Valid() && c.numberOfRetries == retry && c.gateway == g && c.remote == remote
        invariant |remote.log| == |old(remote.log)| + c.retryCounter
        invariant xml.Transient? ==> Run(retry, g, ids, c.retryCounter) == Run(retry, g, ids, 0)
        invariant !xml.Transient? ==> xml == Run(retry, g, ids, 0).result && c.retryCounter == Run(retry, g, ids, 0).counter
        decreases if xml.Transient? then retry + 2 - c.retryCounter else 0
      {
        xml := c.Call(ids);
      }
      if xml.Exhausted? || |xml.payload| != |ids| {
        if |ids| == 1 {
          return [Missing];
        }
        var half := |ids| / 2;
        r := GetBatchXml(ids[..half], remote, g);
        var r2 := GetBatchXml(ids[half..], remote, g);
        r := r + r2;
      } else {
        r := Founds(xml.payload);
      }
    }
  }
}
