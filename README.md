# Geeneus request parser: retry, cache and batch bisection

A Dafny model of the coordination logic in `GeneralRequestParser`
(geeneus/backend/Parser.py), the layer between the Geeneus record parsers and
NCBI's Entrez service:

- the **retry coordinator** built by `_build_retry_function`: a stateful
  callable with a captured counter that allows `retry + 1` attempts and then
  answers "exhausted" without calling the fetch function
  (`Retry.RetryCoordinator`);
- the **single-object cache orchestrator** `_get_object`: a datastore hit,
  the invalid-ID short circuit, and the retry loop whose outcome is stored
  (`Parser.GeneralRequestParser.GetObject`, writing a `Parser.Datastore`);
- the **batch fetch with bisection** `_get_batch_XML`: the retry loop on the
  whole list, and on failure or a misaligned answer, -1 for a single ID or a
  split at `len / 2` with the two halves' results concatenated
  (`Parser.GeneralRequestParser.GetBatchXml`).

The remote side is a `Retry.Gateway`. It has two parts:

- a deterministic fetch oracle `fetch(query, attempt)`, which answers
  `FetchFailed` (the -1 of the Networking functions) or `Got(handle)`;
- a decoder `decode(handle)`, which stands in for `Entrez.read` and answers
  `None` for malformed data.

Every fetch call is recorded in the log of a shared `Retry.Remote` object, so
the model can say which operations contact the remote service and how often.
`attempt` is the coordinator's counter before it is incremented. Each
coordinator starts its own count at 0. The sentinels -1 and -2 of the
coordinator become `Response = Transient | Exhausted | Ok(payload)`.
A domain-object constructor is a function parameter `construct`. It is
called with `ObjArg = EmptyPayload | NotFound | FromPayload(p)`, which stand
for `[]`, -1 and the decoded XML. Each construction allocates a new
`Parser.Record` holding what `construct` gives, so object identity is kept:
a lookup served from the datastore answers the identical object, and a
refetch answers a new one. Accession IDs are `Id = InvalidId | Accession(name)`,
where `InvalidId` is the source's -1.

Each stateful method is proved against a specification function:

- `Retry.Run` is where a caller's `while xml == -1` loop ends up;
- `Parser.Batch` is the value of the bisection, given the settled result of
  each list it sends (`Parser.Verdict` gives that result from `Retry.Run`);
- `Parser.BatchAttempts` is the number of fetch calls the bisection makes.

The lemmas about those functions state the promised properties.

`_get_object` (Parser.py:36-62) behaves as follows.

- The invalid ID is never stored in the datastore: Parser.py:46 returns
  before any store.
- A cache hit is checked before the invalid-ID test. So with caching on, an
  invalid ID that is already a key is answered from the datastore.
- With caching off, a present valid key is fetched again and overwritten. The invalid ID is the exception: it gets a new empty object, with no fetch and no store.

The comment above `_build_retry_function` (Parser.py:107-110) says the first
`retry` calls make an attempt and call `retry + 1` answers -2. The code at
Parser.py:119 allows `retry + 1` attempts and answers -2 from call
`retry + 2` on. The model follows the code.

## Model

| member | source | states |
|---|---|---|
| `Retry.Attempt` | geeneus/backend/Parser.py:128-147 | One attempt never answers exhausted. It succeeds exactly when fetch gives a handle and the decoder accepts it; a fetch failure or a rejected decode is transient. |
| `Retry.Run` | geeneus/backend/Parser.py:48-52 | The retry loop always ends on a non-transient result. The counter ends between its start and `retry + 1`, and equals `retry + 1` when exhausted. An `Ok` result is the last attempt made. Every earlier attempt in the run was transient. |
| `Retry.RunExhaustedIff` | geeneus/backend/Parser.py:117-150 | The loop ends exhausted exactly when every attempt the budget allows (indices up to `retry`) is transient. |
| `Retry.RetryCoordinator.constructor` | geeneus/backend/Parser.py:114-115 | A new coordinator has counter 0, and the given retry count, fetch function and remote service. |
| `Retry.RetryCoordinator.Call` | geeneus/backend/Parser.py:117-150 | Within budget, a call increments the counter and calls fetch once with the query, which appends the query to the remote's log. It answers transient for a fetch failure or a rejected decode, and the payload otherwise. Past budget, it answers exhausted and leaves the counter and the log unchanged. The counter never exceeds `retry + 1`. |
| `Retry.RetryZeroScenario` | geeneus/backend/Parser.py:119-132 | With `retry = 0`, the first call is attempt 0, the second call is exhausted, and exactly one attempt is made. This follows the code, not the comment at :107-110. |
| `Retry.AlwaysFailingScenario` | geeneus/backend/Parser.py:119-150 | Against a query that fails on every attempt, the caller's loop ends exhausted. It makes exactly `retry + 1` attempts over `retry + 2` calls (3 attempts for `retry = 2`). |
| `Parser.Record.constructor` | geeneus/backend/Parser.py:57-60 | A newly built object holds what the domain constructor gives for its argument. |
| `Parser.Datastore.constructor` | geeneus/backend/Parser.py:35-62 | A new datastore holds no entries. `_get_object` reads and writes its map in place. |
| `Parser.Accepted` | geeneus/backend/Parser.py:87 | A batch answer is used as it is exactly when it is a payload with one element per ID. |
| `Parser.Verdict` | geeneus/backend/Parser.py:79-83 | The settled result of a fresh coordinator on a list; it is never transient. |
| `Parser.GeneralRequestParser.constructor` | geeneus/backend/Parser.py:14-20 | The parser keeps the retry count and the cache flag it is given. |
| `Parser.GeneralRequestParser.BuildRetryFunction` | geeneus/backend/Parser.py:112-115 | Answers a fresh coordinator with counter 0, bound to the parser's retry count, the given fetch function and the remote service. |
| `Parser.GeneralRequestParser.GetObject` | geeneus/backend/Parser.py:35-62 | Cache hit with caching on: answers the identical stored object, and leaves the datastore and the remote's log unchanged. Invalid ID otherwise: answers a new object built from `[]`, and leaves the datastore and the log unchanged. Any other ID: the log gains exactly one fetch of that ID per attempt of the run, and the lookup stores a new object built from -1 (exhausted) or from the payload under that ID and answers it. Other keys are untouched, and there are at most `retry + 2` coordinator calls. |
| `Parser.GeneralRequestParser.LookupTwice` | geeneus/backend/Parser.py:36-62 | With caching on, two lookups of a valid ID answer the identical object, the one stored under the ID. The remote's log gains at most one run: none if the ID was already stored, so the second lookup never fetches. Other keys are untouched. |
| `Parser.GeneralRequestParser.LookupTwiceUncached` | geeneus/backend/Parser.py:36-62 | With caching off, the remote's log gains two whole runs of the ID, each of at least one fetch. The second lookup answers a new object, different from the first, which replaces it in the datastore. |
| `Parser.GeneralRequestParser.GetBatchXml` | geeneus/backend/Parser.py:73-101 | The result equals `Batch` over a fresh coordinator's settled result (`Verdict`) for each list sent. The remote's log gains exactly `BatchAttempts` fetch calls, so none for the empty list. |
| `Parser.Batch` | geeneus/backend/Parser.py:73-101 | For any settled result of each sent list (`verdict`), the bisection result has exactly one entry per input ID. The empty list gives the empty list. |
| `Parser.BatchAttempts` | geeneus/backend/Parser.py:76-97 | The bisection makes no fetch call exactly when the list is empty. |
| `Parser.BatchAttemptsBound` | geeneus/backend/Parser.py:79-97 | A non-empty list costs at most `(retry + 1) * (2 * len - 1)` fetch calls: at most `2 * len - 1` lists are sent, each with at most `retry + 1` attempts. |
| `Parser.BatchMissingIsolated` | geeneus/backend/Parser.py:87-89 | A -1 at position `i` means that the one-element batch `[ids[i]]` fails: it is exhausted or not answered with one element. |
| `Parser.BatchFoundAligned` | geeneus/backend/Parser.py:87-101 | Each decoded entry at position `i` is element `i - lo` of an accepted answer for a contiguous sub-list `ids[lo..hi]` containing `i`. So the halves keep their order and every entry sits at its own ID's position. |
| `Parser.PoisonIsolated` | geeneus/backend/Parser.py:85-99 | Suppose batches free of the poisoned IDs are answered honestly and batches containing one are rejected. Then the result is -1 exactly at the poisoned IDs' positions, and the honest record everywhere else. |
| `Parser.ThreeIdsTwoAnswers` | geeneus/backend/Parser.py:87-99 | For `[A, B, C]` against a remote side that always answers two records, the result is `[-1, 7, 8]`. |
| `Findings.AttemptAsWritten` | geeneus/backend/Parser.py:128-145 | One attempt as written: the only exception it raises is NameError, and what it returns is never exhausted. |
| `Findings.AttemptAsWrittenRaises` | geeneus/backend/Parser.py:134-145 | As written, an attempt raises NameError exactly when fetch gives a handle that the decoder rejects. Otherwise it agrees with the corrected attempt. |
| `Findings.CorruptHandleRetried` | geeneus/backend/Parser.py:128-145 | Corrected: a rejected handle is a transient attempt, and the loop goes on to the next attempt. |
| `Findings.BatchAsWritten` | geeneus/backend/Parser.py:73-99 | The recursion of the batch fetch as written, over attempts as corrected (see `Findings.AttemptAsWritten`): the only exception it raises is TypeError, and only for two or more IDs; what it returns has one entry per ID. |
| `Findings.BatchAsWrittenRaises` | geeneus/backend/Parser.py:87-97 | As written, the batch fetch raises TypeError exactly when it would bisect: two or more IDs and a rejected whole-list answer. Otherwise it agrees with `Batch`. |
| `Findings.TwoIdsUnreachable` | geeneus/backend/Parser.py:96-99 | Two IDs, remote never answers: as written the result is a TypeError, and corrected it is `[-1, -1]`. |

## Findings

| source | as written | input that shows it | evidently intended | confidence | as-written member | corrected member |
|---|---|---|---|---|---|---|
| geeneus/backend/Parser.py:96-97 | `self._get_batch_XML(half)` is called without `function_to_apply`, so the call raises TypeError | two IDs whose batch answer is exhausted or misaligned | pass the fetch function on to both halves | high; not executed | `Findings.TwoIdsUnreachable` | `Parser.GeneralRequestParser.GetBatchXml` |
| geeneus/backend/Parser.py:144 | the `except` tuple names `httplib` and `Bio`, which are never imported, so a decoder error raises NameError | a handle that `Entrez.read` rejects | answer -1, so the attempt is retried | high; not executed | `Findings.AttemptAsWrittenRaises` | `Findings.CorruptHandleRetried` |

## Left out

- The `timeout` decorator (Geeneus/Backend/Networking.py:39-56) is left out. It is process-wide SIGALRM state and wall-clock time. A timed-out fetch is just a `FetchFailed` answer of the oracle.
- `efetchGeneral`, `epostGeneral`, `esearch` and the per-kind wrappers (Geeneus/Backend/Networking.py:71-217) are left out. They are thin shims over Biopython `Entrez` and `urllib2` exceptions, and they are represented only by the fetch oracle. The undefined name `stand_val` at Geeneus/Backend/Networking.py:79 sits in this left-out code.
- `Entrez.read` XML decoding is a foreign library. It is represented only by the `decode` oracle, which may reject a handle.
- `GeneralRequestParser.__init__` (the `Entrez.email` setup and its catch-all) and `error` are left out. Only the retry count and the cache flag are modelled.
- All `print` logging is left out, including the "Retry number K of R+1" line and the warnings. It is output, not state.
- The model uses a deterministic oracle indexed by the attempt within one coordinator. The real remote service is nondeterministic, and a later coordinator for the same query may see different answers.
- `xml.extend(xml_2)` mutates the left half's list in place. The model concatenates values, so list aliasing is not captured.
- A negative retry count is left out. The retry count is a `nat`; in Python a negative value would give a budget of zero or less, and every call would be exhausted at once.
- `Findings.BatchAsWritten`: the two defects are modelled separately. It takes each list's settled result from corrected attempts, so it does not capture that, as written, a rejected handle on any attempt also passes up the NameError of Parser.py:144 through the retry loop at :82-83, for any non-empty list, including a single ID. That path is what `Findings.AttemptAsWritten` states.
- `self.printWarning` (Parser.py:40) is not defined in `GeneralRequestParser`. It is assumed to come from the record-kind subclasses, which are not part of this model, and it is only output.
- `Networking.Networking(30)` (Parser.py:17) names a class that Geeneus/Backend/Networking.py does not define. With that module, `__init__` would always take its catch-all branch and never set `retry` or `cache`. The model assumes `__init__` succeeds.
- The tests, the test package scaffolding and setup.py are left out. They are live-network checks and packaging.
