/** Two places where geeneus/backend/Parser.py, as written, does not do what
    its authors evidently meant. Each as-written member is set beside the
    corrected behaviour that the rest of the model uses. */
module Findings {
  import opened Retry
  import opened Parser

  /** The Python exceptions the two defects raise. */
  datatype PyError = TypeError | NameError

  /** A Python call either returns a value or raises. */
  datatype Outcome<T> = Returned(value: T) | Raised(error: PyError)

  /** One attempt of the coordinator as written. Its `except` clause names
      `httplib` and `Bio`, neither of which the module imports, so when the
      decoder raises, evaluating the clause raises NameError instead of
      answering the failure sentinel. */
  function AttemptAsWritten<Q, H, P>(g: Gateway<Q, H, P>, q: Q, k: nat): (r: Outcome<Response<P>>)
    ensures r.Raised? ==> r.error == NameError
    ensures r.Returned? ==> !r.value.Exhausted?
  {
    match g.fetch(q, k)
    case FetchFailed => Returned(Transient)
    case Got(h) =>
      match g.decode(h)
      case None => Raised(NameError)
      case Some(p) => Returned(Ok(p))
  }

  /** The as-written attempt raises exactly on a handle the decoder rejects,
      and otherwise agrees with the corrected attempt. */
  lemma AttemptAsWrittenRaises<Q, H, P>(g: Gateway<Q, H, P>, q: Q, k: nat)
    ensures AttemptAsWritten(g, q, k).Raised? <==> g.fetch(q, k).Got? && g.decode(g.fetch(q, k).handle).None?
    ensures AttemptAsWritten(g, q, k).Returned? ==> AttemptAsWritten(g, q, k).value == Attempt(g, q, k)
  {
  }

  /** Corrected: a handle the decoder rejects is a transient attempt, and the
      caller's loop goes on to the next attempt as after a transport failure. */
  lemma CorruptHandleRetried<Q, H, P>(retry: nat, g: Gateway<Q, H, P>, q: Q, k: nat)
    requires k <= retry
    requires g.fetch(q, k).Got? && g.decode(g.fetch(q, k).handle).None?
    ensures Attempt(g, q, k).Transient?
    ensures Run(retry, g, q, k) == Run(retry, g, q, k + 1)
  {
  }

  /** The recursion of `_get_batch_XML` as written, over each list's settled
      result from corrected attempts (the NameError of an as-written attempt
      is `AttemptAsWritten`'s). Its recursive calls pass only the list and
      leave out `function_to_apply`, so every bisection raises TypeError
      before either half is fetched. */
  function BatchAsWritten<X>(verdict: seq<Id> -> Response<seq<X>>, ids: seq<Id>): (r: Outcome<seq<Item<X>>>)
    ensures r.Raised? ==> r.error == TypeError && |ids| >= 2
    ensures r.Returned? ==> |r.value| == |ids|
  {
    if |ids| == 0 then Returned([])
    else if Accepted(verdict(ids), ids) then Returned(Founds(verdict(ids).payload))
    else if |ids| == 1 then Returned([Missing])
    else Raised(TypeError)
  }

  /** The as-written batch fetch raises exactly when it would bisect, and
      otherwise agrees with the corrected one. */
  lemma BatchAsWrittenRaises<X>(verdict: seq<Id> -> Response<seq<X>>, ids: seq<Id>)
    ensures BatchAsWritten(verdict, ids).Raised? <==> |ids| >= 2 && !Accepted(verdict(ids), ids)
    ensures BatchAsWritten(verdict, ids).Returned? ==> BatchAsWritten(verdict, ids).value == Batch(verdict, ids)
  {
  }

  /** A remote side that never answers. */
  function Unreachable(): (g: Gateway<seq<Id>, (), seq<()>>)
  {
    Gateway((q: seq<Id>, k: nat) => FetchFailed, (h: ()) => None)
  }

  /** The input that shows the defect: two IDs and a remote side that never
      answers. As written the call raises TypeError; corrected, both IDs come
      back as -1. */
  lemma TwoIdsUnreachable()
    ensures BatchAsWritten(Verdict(0, Unreachable()), [Accession("A"), Accession("B")]) == Raised(TypeError)
    ensures Batch(Verdict(0, Unreachable()), [Accession("A"), Accession("B")]) == [Missing, Missing]
  {
    var ids := [Accession("A"), Accession("B")];
    assert ids[..1] == [Accession("A")] && ids[1..] == [Accession("B")];
    assert Attempt(Unreachable(), ids, 0).Transient?;
    assert Attempt(Unreachable(), ids[..1], 0).Transient?;
    assert Attempt(Unreachable(), ids[1..], 0).Transient?;
  }
}
