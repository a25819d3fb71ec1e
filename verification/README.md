# FAST+ QTD transaction tracing and recovery engine, in Dafny

This project models the core of FAST+ QTD (Quantum Threat Defense), a
Python package that flags suspicious payments and traces the
money forward through mule accounts. It also freezes suspected amounts and
reverses transactions. The model covers two files:

- `fastqtd/auto_traceback.py` holds the in-memory simulated ledger
  (`SIM_LEDGER`) and `register_simulated_txn`. It also has the bounded
  breadth-first search `build_graph_from_start_account`, the search
  `trace_subtransactions_for_txn` that starts from a transaction's
  recipient, and the flatten step of `trace_using_db` over stored trace
  paths.
- `fastqtd/engine.py` holds the decision rules:
  - `detect_transaction`: a 0.6 fraud threshold with a model, 0.85 on the
    random fallback;
  - `trace_account`: a fake path of four accounts (three hops);
  - `freeze_transaction`: positive amounts only;
  - `recover_transaction_by_ai`: success above one half;
  - `instant_revert`: a ledger hit is always reversed, otherwise advisory
    or luck decides;
  - `register_sim_txn`.

The SQLite store of `fastqtd/db.py` is modelled as an append-only log with
one record constructor per table (`Audit.Record`). A write appends one
record. `fetch_traces_for_account` is the only read. The clock, the trained
model's fraud probability and the uniform random draw are parameters of the
operations that use them.

Files:

- `basics.dfy`: `Option`, `Result`, duplicate-freedom.
- `text.dfy`: decimal rendering of `int(time.time())` and of loop counters
  in f-strings.
- `ledger.dfy`: the ledger as an insertion-ordered list of `(txn_id, edge)`
  pairs with unique ids, which is what a Python dict is. Re-registering an
  id overwrites it in place.
- `tracer.dfy`: the search, written as three functions that mirror the
  three Python loops:
  - `Scan` is the inner `for txn_id, txn in SIM_LEDGER.items()`;
  - `Expand` is `for acct in queue`;
  - `Rounds` is the `while`.
- `tracer_properties.dfy`: soundness, completeness, no double reporting,
  each account queued at most once, and discovery order.
- `audit.dfy`: the tables and the trace read.
- `aggregate.dfy`: the flatten loop of `trace_using_db`.
- `engine.dfy`: the engine rules.
- `scenarios.dfy`: the three-transfer chain of `scripts/demo.py`, worked out
  concretely.

Behaviour worth noting:

- Registering an existing id replaces its edge in place; the ledger keeps
  one entry per id.
- The start account is not marked as visited. A cycle back into it
  re-queues it once.
- `trace_subtransactions_for_txn` returns the search result itself, with no
  `found` key.
- A search from `muleA` over the demo ledger with `max_hops = 5` reports
  all three transfers with `hops_searched = 4`. The fourth round expands
  `muleD` and finds nothing, and it is still counted.
- No operation retries or backs off.

## Model

| member | source | states |
|---|---|---|
| Ledger.Lookup | fastqtd/engine.py:122 | `SIM_LEDGER.get(id)` is absent exactly when the id was never registered; a hit is the registered edge |
| Ledger.LookupEntry | fastqtd/auto_traceback.py:71-73 | every ledger entry is what a lookup of its own id returns (ids are unique keys) |
| Ledger.Assign | fastqtd/auto_traceback.py:17 | dict assignment on the pair list grows it by one entry exactly when the id is new |
| Ledger.Register | fastqtd/auto_traceback.py:16-22 | after `SIM_LEDGER[id] = edge` the id maps to the new edge, every other id keeps its edge, and the key order is unchanged for a known id and extended by the id for a new one |
| Ledger.RegisterTxn | fastqtd/auto_traceback.py:16-22 | `register_simulated_txn` stores `{from, to, amount, timestamp: now}` under the id, leaves other ids alone, and grows the ledger only for a new id |
| Ledger.RegisterOverwritesInPlace | fastqtd/auto_traceback.py:17-22 | re-registering an id replaces its entry at the same position and touches no other entry (dict overwrite, not a duplicate) |
| Ledger.RegisterFreshAppends | fastqtd/auto_traceback.py:17-22 | registering a new id appends it after all existing entries (dict insertion order) |
| Text.NatToString | fastqtd/engine.py:47 | the decimal rendering of a counter is non-empty, all digits, with no leading zero |
| Text.NatToStringRoundTrip | fastqtd/engine.py:47 | parsing the rendered digits gives the number back |
| Text.IntToString | fastqtd/engine.py:125 | `str(n)` is the canonical decimal of `n`: at least one digit, no leading zero, a `-` first exactly when `n` is negative, and the digits read back as the magnitude |
| Text.Truncate | fastqtd/engine.py:103 | `int(x)` on a float truncates toward zero: the result is within one of `x` and on the zero side of it |
| Tracer.Visit1 | fastqtd/auto_traceback.py:41-52 | for one ledger entry: a matching id is marked visited; the record is appended to `results` and its id to `visited_txns` exactly when the entry leaves the account and its id was not yet visited, and nothing changes otherwise; its recipient is queued and marked, once, exactly when it is reported and not yet visited |
| Tracer.Scan | fastqtd/auto_traceback.py:40-52 | the ledger scan for one account only adds to `visited_txns`, `results` and `next_queue`, and every account it queues is added to `visited_accounts` at the same time, in the same order |
| Tracer.Expand | fastqtd/auto_traceback.py:38-52 | expanding a whole queue keeps the same growth-only facts and the same queue/visited correspondence |
| Tracer.Rounds | fastqtd/auto_traceback.py:36-54 | the round loop counts a hop only for a round it runs on a non-empty queue, never goes past `max_hops`, stops with an empty queue or at `max_hops`, and never drops a result |
| Tracer.Step | fastqtd/auto_traceback.py:37-54 | one round adds one hop, only adds to `results` and `visited_txns`, and its new queue is exactly the accounts it added to `visited_accounts` |
| Tracer.Search | fastqtd/auto_traceback.py:30-54 | a non-positive `max_hops` runs no round; otherwise between 1 and `max_hops` rounds run, and fewer than `max_hops` only when the queue ran empty |
| Tracer.BuildGraph | fastqtd/auto_traceback.py:24-60 | the result names the start account; `hops_searched` lies in `[1, max_hops]` for a positive bound and is 0 with no transactions otherwise |
| Tracer.TraceSubtransactions | fastqtd/auto_traceback.py:65-75 | the not-found answer is given exactly for unknown ids and carries the id; a found id starts the search at its own transfer's recipient and stays within `max_depth` hops |
| TracerProperties.Visit1Sound | fastqtd/auto_traceback.py:41-52 | one step of the innermost loop keeps the search invariant (reports are linked ledger edges, ids and recipients match `visited_txns` and `visited_accounts`) |
| TracerProperties.ScanSound | fastqtd/auto_traceback.py:40-52 | the ledger scan of an already-reached account keeps the search invariant |
| TracerProperties.ScanCovers | fastqtd/auto_traceback.py:40-42 | after scanning an account, every ledger edge leaving it is in `visited_txns` |
| TracerProperties.ExpandSound | fastqtd/auto_traceback.py:38-52 | expanding a queue of reached accounts keeps the search invariant |
| TracerProperties.ExpandCovers | fastqtd/auto_traceback.py:38-42 | after a round, every ledger edge leaving a queued account is in `visited_txns` |
| TracerProperties.RoundStep | fastqtd/auto_traceback.py:37-54 | one round keeps the round invariant, with the expanded queue added to the expanded accounts |
| TracerProperties.RoundsSound | fastqtd/auto_traceback.py:36-54 | the invariant holds when the loop stops, and an empty final queue means every reached account's outgoing edges were visited |
| TracerProperties.InitialInvariant | fastqtd/auto_traceback.py:30-35 | before the first round nothing is reported, the queue is the start account alone, the start account is not marked visited, and the round invariant holds |
| TracerProperties.SearchSound | fastqtd/auto_traceback.py:30-54 | the invariant and the coverage facts hold for a whole search from its initial state |
| TracerProperties.NoDoubleReporting | fastqtd/auto_traceback.py:41-49 | no transaction id is reported twice, and the reported ids are exactly `visited_txns` |
| TracerProperties.ReportsAreLinkedEdges | fastqtd/auto_traceback.py:38-52 | every report is a ledger edge leaving the start account or the recipient of an earlier report |
| TracerProperties.RoundQueuesFresh | fastqtd/auto_traceback.py:37-53 | a round's next queue is exactly the accounts newly added to `visited_accounts`, in order, with no duplicates and none visited before |
| TracerProperties.AccountsQueuedOnce | fastqtd/auto_traceback.py:50-52 | over a whole search no account is queued twice, and the visited accounts are exactly the reported recipients |
| TracerProperties.IdReported | fastqtd/auto_traceback.py:41-52 | a ledger id in `visited_txns` has its full record reported and its recipient visited |
| TracerProperties.EndsByEmptyQueue | fastqtd/auto_traceback.py:36-54 | with more hops than distinct recipients the loop always ends because the queue ran empty |
| TracerProperties.Completeness | fastqtd/auto_traceback.py:36-54 | with enough hops, every transfer on a chain leaving the start account is reported |
| TracerProperties.ChainReported | fastqtd/auto_traceback.py:38-52 | in a state closed under outgoing edges, each link of a chain from the start is reported and its recipient visited |
| TracerProperties.ReportEndsChain | fastqtd/auto_traceback.py:38-52 | every reported transaction ends a chain of ledger transfers that leaves the start account |
| TracerProperties.ScanOrder | fastqtd/auto_traceback.py:40-49 | scanning an account appends, in ledger order, exactly the not-yet-visited edges leaving it |
| TracerProperties.MatchingIgnoresAbsent | fastqtd/auto_traceback.py:41 | marking an id that the rest of the ledger does not hold does not change which of its edges match |
| TracerProperties.SubtraceIsRecipientSearch | fastqtd/auto_traceback.py:71-75 | a known transaction's sub-trace is the account search from its recipient with the same hop bound |
| Scenarios.DemoLedgerEntries | scripts/demo.py:34-36 | the demo's three registrations give the ledger T1, T2, T3 in that order |
| Scenarios.DemoTraceFromMuleA | fastqtd/auto_traceback.py:36-60 | the search from muleA with 5 hops reports T1, T2, T3 in chain order with `hops_searched = 4` |
| Scenarios.DemoOneHop | fastqtd/auto_traceback.py:36-60 | with one hop only T1 is reported |
| Scenarios.DemoTraceFromMuleB | fastqtd/auto_traceback.py:36-60 | from muleB, T2 and T3 are reported after 3 hops |
| Scenarios.DemoSubtransactions | scripts/demo.py:50 | `trace_subtransactions_for_txn("T1", 5)` is the muleB search result |
| Scenarios.DemoUnknownTxn | fastqtd/auto_traceback.py:71-72 | an unregistered id gives the not-found answer |
| Scenarios.DemoReRegister | fastqtd/auto_traceback.py:17-22 | registering T1 again keeps three entries and replaces T1's edge |
| Scenarios.SelfLoop | fastqtd/auto_traceback.py:36-54 | a single self-transfer is reported once, and the unmarked start account costs a second, empty round |
| Scenarios.DemoFreeze | scripts/demo.py:45 | the demo hold is 4000 INR with the given reason, written as one row |
| Scenarios.DemoRevert | scripts/demo.py:55 | reverting T1 with 4000 requested reverses 4000 from muleA to muleB and writes two rows, whatever the model and the draw |
| Audit.TracesFor | fastqtd/db.py:163-173 | `fetch_traces_for_account` returns at most one path per log row, and the newest row's path first when that row is a trace of the account (the full newest-first order and exactness are `TracesAfterAppend` and `TracesForExact`) |
| Audit.TracesAfterAppend | fastqtd/db.py:163-173 | a new trace row for the account is read back first; any other write leaves its rows unchanged |
| Audit.TracesForExact | fastqtd/db.py:167-172 | every trace row of the account is fetched, and every fetched path comes from such a row |
| Aggregate.FirstIndex | fastqtd/auto_traceback.py:91-95 | the position at which the loop first meets an account, the order `flat` is built in: the first position holding it, or the length when it is absent |
| Aggregate.DedupSnoc | fastqtd/auto_traceback.py:93-95 | one more account is appended exactly when it is not yet in `flat` |
| Aggregate.DedupElems | fastqtd/auto_traceback.py:91-95 | deduplication keeps exactly the input's accounts |
| Aggregate.DedupNoDup | fastqtd/auto_traceback.py:91-95 | the flattened list holds no account twice |
| Aggregate.DedupFirstAppearance | fastqtd/auto_traceback.py:91-95 | the flattened list orders accounts by first appearance |
| Aggregate.DedupPrefix | fastqtd/auto_traceback.py:91-95 | flattening more paths only extends the list already built |
| Aggregate.DedupOfNoDup | fastqtd/auto_traceback.py:91-95 | a path with no repeated account flattens to itself |
| Aggregate.ConcatElems | fastqtd/auto_traceback.py:88-93 | an account occurs in the concatenated paths exactly when some path holds it |
| Aggregate.ConcatCons | fastqtd/auto_traceback.py:88-93 | the newest path comes first in the concatenation |
| Aggregate.Flatten | fastqtd/auto_traceback.py:91-95 | the nested loop yields each account of the input paths once, no other account, in order of first appearance |
| Aggregate.TraceUsingDb | fastqtd/auto_traceback.py:80-96 | `rows_used` counts the account's trace rows, and `aggregated_paths` holds exactly the accounts on those rows, once each, newest row first |
| Engine.DetectTransaction | fastqtd/engine.py:16-37 | the score is the model's probability (flagged above 0.6) or the random draw (flagged above 0.85), and exactly one detection row is written with `checked_at` as its time |
| Engine.DetectionMonotone | fastqtd/engine.py:23-28 | for either score source, a higher score is flagged whenever a lower one is |
| Engine.FallbackStricter | fastqtd/engine.py:23-28 | the random fallback flags only what the model threshold would, and scores in (0.6, 0.85] are flagged only with a model |
| Engine.ScamPath | fastqtd/engine.py:45-47 | the fake path is the account followed by `scam_<account>_0`, `_1`, `_2` |
| Engine.ScamPathNoDup | fastqtd/engine.py:45-47 | the fake path holds no account twice |
| Engine.TraceAccount | fastqtd/engine.py:42-54 | the returned path is the fake path and exactly one trace row of the account stores it |
| Engine.TraceAccountReadBack | fastqtd/engine.py:45-53 | after `trace_account` the account's newest stored trace is the fake path, and the flattened database trace starts with it |
| Engine.FreezeTransaction | fastqtd/engine.py:59-78 | an amount at or below zero raises `ValueError("suspect_amount must be > 0")` and is logged as a traceback, with no hold; otherwise exactly one hold of that amount with its reason and currency is written |
| Engine.FreezeKeepsHoldsPositive | fastqtd/engine.py:65-74 | no call ever writes a hold on a non-positive amount |
| Engine.RecoverByAi | fastqtd/engine.py:80-107 | the success probability is one minus the fraud probability or 0.7 times the draw; success means above one half; a reversal ticket `rev_<id>_<second>` exists exactly on success; one recovery row is written |
| Engine.ReversalId | fastqtd/engine.py:103 | a reversal id (`rev_…` here, `ir_…` at lines 125 and 148) is the prefix, the transaction id and an underscore-joined suffix that is the canonical decimal of `int(time.time())` (no leading zero), with a `-` for a negative second |
| Engine.FallbackRecoveryOdds | fastqtd/engine.py:88-94 | without a model a draw in [0, 1) recovers exactly when it exceeds 5/7, and the success probability stays under 0.7 |
| Engine.FlaggedNotRecovered | fastqtd/engine.py:23-94 | with a model, a transaction that detection flags can never be recovered by the AI path |
| Engine.Advisory | fastqtd/engine.py:142-144 | the advisory is 0.4 without a model, which never exceeds one half; with a model it is the complement of the fraud probability, exceeds one half exactly when that probability is below one half, and is a probability when the model's is |
| Engine.ReversalRows | fastqtd/engine.py:134-136 | a performed reversal writes a reversal row and then a successful recovery row, both for the transaction and at the same time, the recovery naming the same reversal id, amount and meta as the reversal |
| Engine.InstantRevert | fastqtd/engine.py:112-158 | a ledger transaction is always reversed, for the requested amount or its own, naming its sender and recipient; otherwise the revert succeeds exactly when the advisory exceeds 0.5 or the draw is below 0.3; a success writes the reversal row and then a successful recovery row with id `ir_<id>_<second>`, and a failure writes one failed recovery row with the advisory |
| Engine.LedgerRevertIgnoresAdvice | fastqtd/engine.py:122-137 | reverting a ledger transaction does not depend on the model or the draw |
| Engine.NoModelRevertOdds | fastqtd/engine.py:138-145 | without a model and without a ledger entry a revert succeeds exactly when the draw is below 0.3 |
| Engine.RevertKeepsTraces | fastqtd/engine.py:112-158 | a revert, successful or not, leaves every account's stored traces as they were |
| Engine.RegisterSimTxn | fastqtd/engine.py:160-171 | the reply is always `{txn_id, registered: True}`; the ledger holds the new edge and nothing else changes; the sender's trace `[from, to]` is stored only when that write succeeds |
| Engine.RevertAfterRegister | fastqtd/engine.py:112-171 | a transaction registered through the engine is then reversed for its own amount, from its sender to its recipient |
| Engine.RegisteredIsTraceable | fastqtd/engine.py:160-171 | a registered transaction's sub-trace is the search from its recipient, and the sender's stored trace reads back first |

## Left out

- Database I/O. The writers in `fastqtd/db.py` are modelled as committed
  appends: connection handling, JSON encoding and `str(amount)` are not
  modelled. The writers call `c.connection.commit()` on the object
  `_conn()` returns, which is a `sqlite3.Connection`. That class has no
  `connection` attribute, so as written each write would raise
  `AttributeError` after its INSERT. The model follows the evident intent.
  The one write whose failure the source handles, the trace write of
  `register_sim_txn`, takes its success as the `traceWritten` parameter.
- The warning `register_sim_txn` prints when it swallows a failed trace
  write (fastqtd/engine.py:170). Console output is not modelled; the
  failure shows only as the missing trace row.
- `register_sim_txn`'s outer exception path. The in-memory registration
  cannot fail in the model, so the guarded traceback write and the re-raise
  are not modelled.
- Exception logging of the other operations. `add_traceback` on an
  unexpected exception is modelled only for `freeze_transaction`'s own
  `ValueError`. The traceback text, the exception objects and
  `fetch_tracebacks` are not modelled.
- The clock. Each operation takes one reading `now`, used for every
  `time.time()` call it makes: `frozen_at`, `attempted_at`, the reversal
  id's second, the meta timestamp and the `created_at` of the rows the
  database layer stamps itself. The source reads the clock separately for
  each, so those times can differ by the elapsed time. A detection row is
  the exception: its `created_at` is the result's own `checked_at`
  (fastqtd/db.py:80), one reading in the source as in the model.
- The model and the random draw. `_load_model` and `_txn_to_features` are
  replaced by the parameter `modelProba`, which holds the model's fraud
  probability or `None` when no model loads. `random.random()` becomes the
  parameter `draw`. Floating point is modelled as exact reals.
- Engine.FreezeKeepsHoldsPositive: holds for amounts modelled as reals. A
  Python float NaN fails the `suspect_amount <= 0` test
  (fastqtd/engine.py:65), so `freeze_transaction` would write a hold whose
  amount is not above zero; `--amount nan` reaches it through the command
  line (fastqtd/cli.py:31). Reals have no NaN, so the model cannot express
  that case.
- JSON. `json.dumps` output and the `indent=2` rendering are not modelled.
  The operations return the dictionaries as datatypes.
- `trace_using_db`'s `max_hops` parameter. The source never uses it, and
  the model accepts it and ignores it the same way.
- Other modules. `qcrypto.py`, `deepscan.py`, `scamalert.py`,
  `legalconnect.py`, `cli.py`, `scripts/train_model.py` and
  `scripts/setup_db.py` are outside this model. The alert and report tables
  exist only as opaque record constructors.
- Completeness. It is proved under the hypothesis that `max_hops` exceeds
  the number of distinct recipients, which guarantees the search ends by an
  empty queue. The finer statement, that a link at breadth-first depth `d`
  is reported when `d <= max_hops`, is not stated.
