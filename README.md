# Nearest-master matching for service orders

This project models the rule that assigns a newly created service order to a
master (a worker). The rule is the `matchNearestMaster` handler in
`functions/src/index.ts`. It runs once for each created order and does this:

1. Guard. If the order is not `pending`, or has no client location, it writes
   nothing.
2. Query. It asks the store for the workers that offer the order's category and
   are available.
3. Scan. It goes through those workers in order. A worker without a last
   location or without a name is skipped. A worker becomes the current best
   only if its distance to the client is at most `SEARCH_RADIUS_KM` (5 km) and
   strictly less than the current minimum. The minimum starts at infinity.
4. Commit. It makes one write that leaves the order `assigned` (with the
   master's id, name and distance), `no_master_found`, or `error_matching` (with
   the error's message, from the catch block).

The model has four modules:

- `Wrappers` holds `Option`, used for document fields that may be missing.
- `Geo` holds `Location` and `DistanceOracle`. The distance is a function
  parameter standing for the haversine evaluator.
- `Selection` holds workers, eligibility, the scan as a method with a loop
  (`SelectNearestMaster`), and a separate recursive reference definition of
  "first nearest qualified worker" (`FirstNearest`). The method is proved equal
  to that definition.
- `Orders` holds the order document as a class (`Order`) with the fields the
  handler writes, and a merge update `Apply`. It also holds the store's answers
  as an input (`Store`), the handler (`MatchNearestMaster`), and pure functions
  giving the document after one delivery of the creation event (`LandedWrite`,
  `AfterDelivery`). The lemmas about the state machine are stated over those
  functions.

The handler reads two things. The guard, the client location and the category
come from the snapshot the creation event carries (`snap.data()`, lines 50-63).
The updates go to the live document behind `snap.ref` (lines 83, 120, 130,
139). The model keeps them apart: `MatchNearestMaster` takes the snapshot as an
`Option<OrderRecord>` (None for an event without data, lines 53-56) and the
document as an `Order` object.

Failures are inputs, not exceptions. A `Store` value says whether the candidate
query fails, whether the outcome write is rejected, and whether the catch
block's `error_matching` write is rejected.

Two details of the code shape the model:

- The update for an empty query result is returned without `await` (lines
  81-87). A rejection of it escapes the catch block, so no `error_matching` is
  written and the order stays `pending` (`EmptyResultRejectionLeavesPending`).
- The name test is truthiness (line 95), so an empty name is skipped as well as
  a missing one. `Eligible` requires a non-empty name.

## Model

| member | source | states |
|---|---|---|
| `Selection.SelectNearestMaster` | functions/src/index.ts:70-109 | The loop with `minDistance` (None for infinity) and the strict/inclusive comparisons returns exactly the reference choice `ChosenMatch`: the first-nearest qualified worker's id, name and distance, or nothing |
| `Selection.FirstNearest` | functions/src/index.ts:90-109 | The recursive reference choice picks an index that is eligible, within the radius, no farther than every qualified worker, and strictly nearer than every earlier qualified worker; it picks nothing exactly when no worker qualifies |
| `Selection.FirstNearestIsUnique` | functions/src/index.ts:100 | At most one worker is first among the nearest, so the choice is determined by the sequence |
| `Selection.ChosenMatchIsNearestQualified` | functions/src/index.ts:95-107 | The scan yields no match iff no eligible worker is within the radius; otherwise the match is an eligible worker of the sequence, at most 5 km away, no farther than any qualified worker |
| `Selection.TieGoesToFirstSeen` | functions/src/index.ts:100 | A qualified worker is never chosen over an earlier qualified worker at the same distance |
| `Selection.RadiusIsInclusive` | functions/src/index.ts:10 | A lone eligible worker is chosen iff its distance is at most 5 km, so one at exactly 5 km is chosen |
| `Selection.NonQualifyingWorkerIsIgnored` | functions/src/index.ts:95-100 | Inserting a worker without location, without name, or beyond the radius at any position leaves the choice on the same worker |
| `Selection.InsertionKeepsFirstNearest` | functions/src/index.ts:95-107 | A worker that does not qualify, inserted anywhere, leaves the first-nearest worker first-nearest at its shifted position |
| `Orders.Applied` | functions/src/index.ts:119-143 | Every update the handler sends leaves the order in a terminal status and keeps the category and client location |
| `Orders.AfterDelivery` | functions/src/index.ts:58-143 | One delivery leaves the document unchanged, or puts it in a terminal status, and only a snapshot that says `pending` leads to a write |
| `Orders.Order.Apply` | functions/src/index.ts:120-126 | A merge update changes only the fields the update names |
| `Orders.RecordError` | functions/src/index.ts:136-143 | The catch block writes `error_matching` and the message unless the store rejects that write |
| `Orders.MatchNearestMaster` | functions/src/index.ts:47-147 | With the guard on the event's snapshot and the updates on the live document, the handler leaves the document exactly as `AfterDelivery` describes, for every store answer; without snapshot data it changes nothing |
| `Orders.SkippedOrderIsUnchanged` | functions/src/index.ts:63-66 | A snapshot that is not pending, or has no client location, leads to no write and the document is unchanged |
| `Orders.EmptyQueryEndsNoMasterFound` | functions/src/index.ts:81-87 | An empty query result ends in `no_master_found`, with master, distance and error fields untouched |
| `Orders.EmptyResultRejectionLeavesPending` | functions/src/index.ts:81-87 | When the empty-result update is rejected, nothing is written and the document stays as it was |
| `Orders.AssignedIffQualifiedWorker` | functions/src/index.ts:112-134 | With query and write succeeding, the order is `assigned` iff some eligible worker is within the radius, else `no_master_found`; an assigned order holds the first-nearest worker's id, name and distance |
| `Orders.FailureRecordsError` | functions/src/index.ts:136-143 | A failed query, or a rejected outcome write after a non-empty query, ends in `error_matching` with the error's message when the store accepts that write |
| `Orders.CompletedRunIsTerminal` | functions/src/index.ts:81-143 | A non-skipped run whose writes are accepted makes exactly one write and ends in a terminal status |
| `Orders.RedeliveryRerunsMatching` | functions/src/index.ts:58-66 | A redelivered creation event still carries the `pending` snapshot, so an order assigned by the first delivery is overwritten with `error_matching` when the second delivery's query fails |
| `Orders.AfterFreshDelivery` | functions/src/index.ts:63-66 | With the guard reading the document itself, a delivery writes only to a pending document and leaves it terminal |
| `Orders.MatchNearestMasterOnFreshRead` | functions/src/index.ts:63-143 | The handler run with the document's current data as its snapshot leaves the document as `AfterFreshDelivery` describes |
| `Orders.FreshGuardRedeliveryIsNoOp` | functions/src/index.ts:63-66 | With the guard on a fresh read, redelivery after the document left `pending` changes nothing |
| `Orders.AssignedMasterOffersCategory` | functions/src/index.ts:75-79 | When the store returns only available workers offering the snapshot's category, a master assigned by the delivery is one of them, whatever the document held before |

## Left out

- Haversine arithmetic (`getDistance`, lines 31-42): it is floating-point trigonometry. The distance is the parameter `distance`, and every property holds for any distance function. NaN and infinite distances are not modelled.
- `toFixed(1)` formatting (line 116): the order stores the master's exact distance as a real, not the one-decimal string.
- Firestore plumbing: initialising the SDK, the document trigger, the query, `snap.ref.update` and server timestamps. The query's category and availability filter is an assumption on the returned sequence, used only by `AssignedMasterOffersCategory`. Each update is a merge of the named fields.
- `updated_at` timestamps and the console logging: they carry no checkable behaviour.
- Thrown values without a `message` property: every error carries a string message.
- Changes to the document between the creation event and the handler's writes, other than by the handler itself: the lemmas hold for any current document, and the findings below show what follows when it is no longer `pending`.
- Concurrency between invocations: two orders may pick the same worker, since the code reserves nothing.
- FailureRecordsError: stated only when the catch block's write is accepted and, for write failures, only after a non-empty query. This follows the code: a rejected empty-result write escapes the catch, and a rejected error write is only logged.

## Findings

| source | as written | input that shows it | evidently intended | confidence | as-written member | corrected member |
|---|---|---|---|---|---|---|
| functions/src/index.ts:58-66 | The `pending` guard reads the event's creation snapshot, not the document, so a redelivered creation event (at-least-once delivery) runs matching again | A pending order is assigned by the first delivery; the event is delivered again and the query fails: the catch block overwrites `assigned` with `error_matching` | The guard reads the document's current status, so redelivery after the order left `pending` writes nothing | medium, not executed | `Orders.RedeliveryRerunsMatching` | `Orders.FreshGuardRedeliveryIsNoOp` |

The corrected handler is `MatchNearestMasterOnFreshRead`, specified by
`AfterFreshDelivery`. For a single delivery whose snapshot equals the document,
both handlers write the same thing, so the single-delivery lemmas above hold for
both.
