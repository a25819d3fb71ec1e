/** The SQLite audit store of fastqtd/db.py as an append-only event log: one
    record constructor per table, one payload datatype per JSON column that
    the engine fills. A write appends one record; the autoincrement id of a
    row is its position in the log. */
module Audit {
  import opened Basics

  /** An exception the engine raises and records in `tracebacks`. */
  datatype Raised = ValueError(message: string)

  /** `result_json` of `detections`: `{txn_id, is_fraud, score, checked_at}`. */
  datatype Detection = Detection(txnId: string, isFraud: bool, score: real, checkedAt: real)

  /** `meta_json` of `freezes`: `{reason, frozen_amount, currency, frozen_at}`. */
  datatype FreezeMeta = FreezeMeta(reason: string, frozenAmount: real, currency: string, frozenAt: real)

  /** A reversed amount: a number, or the placeholder text
      `'unknown_demo_amount'` of a synthetic reversal with no requested amount. */
  datatype Amount = Amount(value: real) | UnknownDemoAmount

  /** `meta_json` of `reversals`: `{reversed_amount, orig_from, orig_to, method,
      timestamp}`, with `method` named `how` here; the two `orig_` keys exist
      only for a ledger reversal. */
  datatype ReversalMeta = ReversalMeta(
    reversedAmount: Amount, origFrom: Option<string>, origTo: Option<string>, how: string, timestamp: real)

  /** The `reversal` entry of a successful AI recovery. */
  datatype ReversalTicket = ReversalTicket(reversalTxnId: string, amountRecovered: string)

  /** `recovery_json` of `recoveries`, in the three shapes the engine writes. */
  datatype RecoveryInfo =
    | AiAttempt(txnId: string, attemptedAt: real, successProb: real, actions: seq<string>, reversal: Option<ReversalTicket>)
    | Reverted(reversalTxnId: string, amount: Amount, meta: ReversalMeta)
    | RevertFailed(reason: string, advisory: real)

  /** One row of one of the eight tables. `alert_json` and `report_json`
      are written by notifiers outside this model and stay opaque text. */
  datatype Record =
    | DetectionRow(txnId: string, result: Detection, createdAt: real)
    | TraceRow(accountId: string, path: seq<string>, createdAt: real)
    | AlertRow(alert: string, createdAt: real)
    | ReportRow(report: string, createdAt: real)
    | FreezeRow(txnId: string, reason: string, freezeMeta: FreezeMeta, createdAt: real)
    | RecoveryRow(txnId: string, info: RecoveryInfo, success: bool, createdAt: real)
    | TracebackRow(context: string, error: Raised, createdAt: real)
    | ReversalRow(txnId: string, reversalTxnId: string, amount: Amount, reversalMeta: ReversalMeta, createdAt: real)

  /** All rows ever written, oldest first. */
  type Log = seq<Record>

  predicate IsTraceOf(r: Record, account: string) {
    r.TraceRow? && r.accountId == account
  }

  /** `fetch_traces_for_account`: the paths of the account's trace rows,
      newest first (`ORDER BY id DESC`). */
  function TracesFor(log: Log, account: string): (rows: seq<seq<string>>)
    ensures |rows| <= |log|
    ensures log != [] && IsTraceOf(log[|log| - 1], account) ==> rows != [] && rows[0] == log[|log| - 1].path
    decreases |log|
  {
    if log == [] then []
    else
      var last := log[|log| - 1];
      var rest := TracesFor(log[..|log| - 1], account);
      if IsTraceOf(last, account) then [last.path] + rest else rest
  }

  /** A new trace row for the account is read back first; any other
      write leaves the account's rows as they were. */
  lemma TracesAfterAppend(log: Log, r: Record, account: string)
    ensures TracesFor(log + [r], account)
      == if IsTraceOf(r, account) then [r.path] + TracesFor(log, account) else TracesFor(log, account)
  {
    assert (log + [r])[..|log|] == log;
  }

  /** Every trace row of the account is fetched, and every fetched path
      comes from one. */
  lemma {:induction false} TracesForExact(log: Log, account: string)
    ensures forall i | 0 <= i < |log| && IsTraceOf(log[i], account) :: log[i].path in TracesFor(log, account)
    ensures forall p | p in TracesFor(log, account) ::
      exists i | 0 <= i < |log| :: IsTraceOf(log[i], account) && log[i].path == p
    decreases |log|
  {
    if log != [] {
      var init := log[..|log| - 1];
      TracesForExact(init, account);
      TracesAfterAppend(init, log[|log| - 1], account);
      assert log == init + [log[|log| - 1]];
      forall p | p in TracesFor(log, account)
        ensures exists i | 0 <= i < |log| :: IsTraceOf(log[i], account) && log[i].path == p
      {
        if p in TracesFor(init, account) {
          var i :| 0 <= i < |init| && IsTraceOf(init[i], account) && init[i].path == p;
          assert log[i] == init[i];
        } else {
          assert IsTraceOf(log[|log| - 1], account) && log[|log| - 1].path == p;
        }
      }
    }
  }
}
