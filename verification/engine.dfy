/** The decision rules of fastqtd/engine.py. Every operation takes the audit
    log and returns what it returns together with the log after its writes.
    The clock reading (`now`), the fraud probability of the trained model
    (`modelProba`, `None` when no model loads) and the uniform random draw
    (`draw`) are parameters. */
module Engine {
  import opened Basics
  import opened Text
  import opened Ledger
  import opened Tracer
  import opened Audit
  import opened Aggregate

  /** A returned value and the log after the call's writes. */
  datatype Outcome<+T> = Outcome(value: T, log: Log)

  // ---------------------------------------------------------------------
  // detect_transaction

  /** Fraud flag threshold on the model's probability. */
  const ModelThreshold: real := 0.6
  /** Fraud flag threshold on the random fallback score. */
  const FallbackThreshold: real := 0.85

  /** `detect_transaction(txn_id)`: the score is the model's fraud
      probability, or the random draw when no model loads; the flag compares
      it with the threshold of that source. The result is logged with
      `checked_at` as its row time. */
  function DetectTransaction(log: Log, txnId: string, modelProba: Option<real>, draw: real, now: real): (r: Outcome<Detection>)
    ensures r.value.txnId == txnId && r.value.checkedAt == now
    ensures modelProba.Some? ==> r.value.score == modelProba.value && (r.value.isFraud <==> r.value.score > ModelThreshold)
    ensures modelProba.None? ==> r.value.score == draw && (r.value.isFraud <==> r.value.score > FallbackThreshold)
    ensures r.log == log + [DetectionRow(txnId, r.value, now)]
  {
    var d := match modelProba
      case Some(p) => Detection(txnId, p > ModelThreshold, p, now)
      case None => Detection(txnId, draw > FallbackThreshold, draw, now);
    Outcome(d, log + [DetectionRow(txnId, d, now)])
  }

  /** For either score source, a higher score is flagged whenever a lower
      one is. */
  lemma DetectionMonotone(log: Log, txnId: string, p: real, q: real, now: real, model: bool)
    requires p <= q
    ensures var low := DetectTransaction(log, txnId, if model then Some(p) else None, p, now);
            var high := DetectTransaction(log, txnId, if model then Some(q) else None, q, now);
            low.value.isFraud ==> high.value.isFraud
  {
  }

  /** The fallback is stricter than the model: a random score flagged
      without a model would be flagged as the model's probability too, and
      the scores strictly between the two thresholds are flagged only by the
      model. */
  lemma FallbackStricter(log: Log, txnId: string, s: real, now: real)
    ensures DetectTransaction(log, txnId, None, s, now).value.isFraud ==> DetectTransaction(log, txnId, Some(s), s, now).value.isFraud
    ensures ModelThreshold < s <= FallbackThreshold ==>
      DetectTransaction(log, txnId, Some(s), s, now).value.isFraud && !DetectTransaction(log, txnId, None, s, now).value.isFraud
  {
  }

  // ---------------------------------------------------------------------
  // trace_account

  /** The `f'scam_{account_id}_{i}'` name of the `i`-th fake hop. */
  function ScamName(account: string, i: nat): string {
    "scam_" + account + "_" + NatToString(i)
  }

  /** The fake path of `trace_account`: the account and three scam hops. */
  function ScamPath(account: string): (p: seq<string>)
    ensures |p| == 4 && p[0] == account
    ensures forall i | 1 <= i < 4 :: p[i] == ScamName(account, i - 1)
  {
    [account, ScamName(account, 0), ScamName(account, 1), ScamName(account, 2)]
  }

  /** The returned `{account, path, traced_at}`. */
  datatype Trace = Trace(account: string, path: seq<string>, tracedAt: real)

  /** `trace_account(account_id)`: builds the fake path and stores it as one
      trace row of the account. */
  function TraceAccount(log: Log, account: string, now: real): (r: Outcome<Trace>)
    ensures r.value.account == account && r.value.tracedAt == now
    ensures r.value.path == ScamPath(account)
    ensures r.log == log + [TraceRow(account, r.value.path, now)]
  {
    var path := ScamPath(account);
    Outcome(Trace(account, path, now), log + [TraceRow(account, path, now)])
  }

  /** No account occurs twice on a fake path: each scam name is longer than
      the account, and the names differ in their last digit. */
  lemma ScamPathNoDup(account: string)
    ensures NoDup(ScamPath(account))
  {
    var p := ScamPath(account);
    forall i, j | 0 <= i < j < 4 ensures p[i] != p[j] {
      if i == 0 {
        assert |p[j]| > |account|;
      } else {
        assert p[i][|p[i]| - 1] != p[j][|p[j]| - 1];
      }
    }
  }

  /** After `trace_account`, the account's stored trace is read back first,
      and the flatten step of `trace_using_db` starts with the fake path. */
  lemma {:induction false} TraceAccountReadBack(log: Log, account: string, now: real)
    ensures var out := TraceAccount(log, account, now).log;
            TracesFor(out, account) == [ScamPath(account)] + TracesFor(log, account)
    ensures var flat := Dedup(Concat(TracesFor(TraceAccount(log, account, now).log, account)));
            |flat| >= 4 && flat[..4] == ScamPath(account)
  {
    var p := ScamPath(account);
    var rest := TracesFor(log, account);
    TracesAfterAppend(log, TraceRow(account, p, now), account);
    ConcatCons(p, rest);
    DedupPrefix(p, Concat(rest));
    ScamPathNoDup(account);
    DedupOfNoDup(p);
  }

  // ---------------------------------------------------------------------
  // freeze_transaction

  const DefaultReason: string := "suspected_fraud"
  const DefaultCurrency: string := "INR"

  /** The message of the `ValueError` for a non-positive amount. */
  const NonPositiveAmount: string := "suspect_amount must be > 0"

  /** The returned `{txn_id, frozen: True, meta}`. */
  datatype Frozen = Frozen(txnId: string, meta: FreezeMeta)

  /** `freeze_transaction(txn_id, suspect_amount, reason, currency)`: a
      positive amount is held by one freeze row; otherwise a `ValueError` is
      recorded in the traceback table and raised, and nothing is frozen. */
  function FreezeTransaction(log: Log, txnId: string, suspectAmount: real, now: real,
                             reason: string := DefaultReason, currency: string := DefaultCurrency): (r: Outcome<Result<Frozen, Raised>>)
    ensures r.value.Err? <==> suspectAmount <= 0.0
    ensures r.value.Err? ==>
      && r.value.error == ValueError(NonPositiveAmount)
      && r.log == log + [TracebackRow("freeze_transaction", r.value.error, now)]
    ensures r.value.Ok? ==>
      && r.value.value.txnId == txnId
      && r.value.value.meta == FreezeMeta(reason, suspectAmount, currency, now)
      && r.log == log + [FreezeRow(txnId, reason, r.value.value.meta, now)]
  {
    if suspectAmount <= 0.0 then
      var e := ValueError(NonPositiveAmount);
      Outcome(Err(e), log + [TracebackRow("freeze_transaction", e, now)])
    else
      var meta := FreezeMeta(reason, suspectAmount, currency, now);
      Outcome(Ok(Frozen(txnId, meta)), log + [FreezeRow(txnId, reason, meta, now)])
  }

  /** Every hold in the log is on a positive amount. */
  predicate FreezesPositive(log: Log) {
    forall i | 0 <= i < |log| && log[i].FreezeRow? :: log[i].freezeMeta.frozenAmount > 0.0
  }

  /** `freeze_transaction` never writes a hold on a non-positive amount, so
      a log whose holds are all positive stays so, whatever it is called with. */
  lemma FreezeKeepsHoldsPositive(log: Log, txnId: string, suspectAmount: real, now: real, reason: string, currency: string)
    requires FreezesPositive(log)
    ensures FreezesPositive(FreezeTransaction(log, txnId, suspectAmount, now, reason, currency).log)
  {
  }

  // ---------------------------------------------------------------------
  // recover_transaction_by_ai

  /** The fixed `actions` list of an AI recovery attempt. */
  const RecoveryActions: seq<string> := ["freeze_related_accounts", "notify_banks", "submit_legal_request"]

  /** Scale of the random success probability when no model loads. */
  const FallbackRecoveryScale: real := 0.7

  /** `f'{prefix}_{txn_id}_{int(time.time())}'`: the prefix, the transaction
      id and the whole second of the clock, joined by underscores. The
      second is read back from the text after the second underscore. */
  function ReversalId(prefix: string, txnId: string, now: real): (r: string)
    ensures var n := |prefix| + |txnId| + 2;
      n < |r| && r[..n] == prefix + "_" + txnId + "_"
    ensures var n := |prefix| + |txnId| + 2;
      Truncate(now) >= 0 ==> n < |r| && IsDecimal(r[n..]) && ParseNat(r[n..]) == Truncate(now)
    ensures var n := |prefix| + |txnId| + 2;
      Truncate(now) < 0 ==> n + 1 < |r| && r[n] == '-' && IsDecimal(r[n + 1..]) && ParseNat(r[n + 1..]) == -Truncate(now)
  {
    var head := prefix + "_" + txnId + "_";
    var second := IntToString(Truncate(now));
    var r := head + second;
    assert |head| == |prefix| + |txnId| + 2;
    assert r[..|head|] == head && r[|head|..] == second;
    assert Truncate(now) < 0 ==> r[|head| + 1..] == second[1..];
    r
  }

  /** The returned `{txn_id, recovered, details}`. */
  datatype Recovery = Recovery(txnId: string, recovered: bool, details: RecoveryInfo)

  /** `recover_transaction_by_ai(txn_id)`: the success probability is one
      minus the model's fraud probability, or 0.7 times the draw without a
      model; the attempt succeeds above one half, and only a success carries
      a reversal ticket. One recovery row records the attempt. */
  function RecoverByAi(log: Log, txnId: string, modelProba: Option<real>, draw: real, now: real): (r: Outcome<Recovery>)
    ensures r.value.txnId == txnId && r.value.details.AiAttempt?
    ensures var d := r.value.details;
      d.txnId == txnId && d.attemptedAt == now && d.actions == RecoveryActions
      && d.successProb == (if modelProba.Some? then 1.0 - modelProba.value else draw * FallbackRecoveryScale)
    ensures r.value.recovered <==> r.value.details.successProb > 0.5
    ensures r.value.details.reversal.Some? <==> r.value.recovered
    ensures r.value.recovered ==>
      r.value.details.reversal.value == ReversalTicket(ReversalId("rev", txnId, now), "partial_or_full_unknown_in_demo")
    ensures r.log == log + [RecoveryRow(txnId, r.value.details, r.value.recovered, now)]
  {
    var prob := match modelProba
      case Some(p) => 1.0 - p
      case None => draw * FallbackRecoveryScale;
    var success := prob > 0.5;
    var reversal := if success then Some(ReversalTicket(ReversalId("rev", txnId, now), "partial_or_full_unknown_in_demo")) else None;
    var info := AiAttempt(txnId, now, prob, RecoveryActions, reversal);
    Outcome(Recovery(txnId, success, info), log + [RecoveryRow(txnId, info, success, now)])
  }

  /** Without a model, a draw from `[0, 1)` recovers exactly when it
      exceeds 5/7, so the success probability stays below 0.7. */
  lemma FallbackRecoveryOdds(log: Log, txnId: string, draw: real, now: real)
    requires 0.0 <= draw < 1.0
    ensures RecoverByAi(log, txnId, None, draw, now).value.recovered <==> draw > 5.0 / 7.0
    ensures RecoverByAi(log, txnId, None, draw, now).value.details.successProb < FallbackRecoveryScale
  {
  }

  /** With a model, a transaction that detection flags as fraud cannot be
      recovered: its success probability is below 0.4. */
  lemma FlaggedNotRecovered(log: Log, txnId: string, p: real, draw: real, now: real)
    ensures DetectTransaction(log, txnId, Some(p), draw, now).value.isFraud ==>
      !RecoverByAi(log, txnId, Some(p), draw, now).value.recovered
  {
  }

  // ---------------------------------------------------------------------
  // instant_revert

  /** The advisory of a revert with no ledger entry when no model loads. */
  const DefaultAdvisory: real := 0.4
  /** Below this draw a synthetic revert succeeds whatever the advisory. */
  const RevertLuck: real := 0.3

  /** The returned `{txn_id, reversed: True, reversal_txn_id, meta}` or
      `{txn_id, reversed: False, advisory}`. */
  datatype Revert =
    | Reversed(txnId: string, reversalTxnId: string, meta: ReversalMeta)
    | NotReversed(txnId: string, advisory: real)

  /** The advisory of a synthetic revert: the model's probability that the
      transaction is legitimate, or 0.4 without a model, which on its own
      never exceeds one half. */
  function Advisory(modelProba: Option<real>): (r: real)
    ensures modelProba.None? ==> r == DefaultAdvisory && r <= 0.5
    ensures modelProba.Some? ==> r + modelProba.value == 1.0
    ensures modelProba.Some? ==> (r > 0.5 <==> modelProba.value < 0.5)
    ensures modelProba.Some? && 0.0 <= modelProba.value <= 1.0 ==> 0.0 <= r <= 1.0
  {
    match modelProba
    case Some(p) => 1.0 - p
    case None => DefaultAdvisory
  }

  /** The two rows of a performed reversal: the reversal, then the
      successful recovery that records it. */
  function ReversalRows(txnId: string, reversalTxnId: string, meta: ReversalMeta, now: real): (r: seq<Record>)
    ensures |r| == 2 && r[0].ReversalRow? && r[1].RecoveryRow?
    ensures r[0].txnId == txnId && r[1].txnId == txnId
    ensures r[0].reversalTxnId == reversalTxnId && r[0].amount == meta.reversedAmount && r[0].reversalMeta == meta
    ensures r[1].success && r[1].info.Reverted?
    ensures r[1].info.reversalTxnId == r[0].reversalTxnId && r[1].info.amount == r[0].amount && r[1].info.meta == r[0].reversalMeta
    ensures r[0].createdAt == now && r[1].createdAt == now
  {
    [ReversalRow(txnId, reversalTxnId, meta.reversedAmount, meta, now),
     RecoveryRow(txnId, Reverted(reversalTxnId, meta.reversedAmount, meta), true, now)]
  }

  /** `instant_revert(txn_id, requested_amount)`. A transaction in the
      ledger is always reversed, for the requested amount or else its own,
      and the meta names its sender and recipient. Otherwise the revert
      succeeds when the advisory exceeds one half or the draw falls below
      0.3, with no sender or recipient and with the placeholder amount when
      none was requested; a failure writes one failed recovery row. */
  function InstantRevert(l: Ledger, log: Log, txnId: string, requested: Option<real> := None,
                         modelProba: Option<real>, draw: real, now: real): (r: Outcome<Revert>)
    ensures r.value.txnId == txnId
    ensures r.value.Reversed? <==>
      Lookup(l, txnId).Some? || Advisory(modelProba) > 0.5 || draw < RevertLuck
    ensures r.value.Reversed? ==>
      && r.value.reversalTxnId == ReversalId("ir", txnId, now)
      && r.value.meta.timestamp == now
      && r.log == log + ReversalRows(txnId, r.value.reversalTxnId, r.value.meta, now)
    ensures r.value.Reversed? && requested.Some? ==> r.value.meta.reversedAmount == Amount(requested.value)
    ensures Lookup(l, txnId).Some? ==>
      && r.value.Reversed?
      && r.value.meta.origFrom == Some(Lookup(l, txnId).value.from)
      && r.value.meta.origTo == Some(Lookup(l, txnId).value.to)
      && r.value.meta.how == "instant_revert_simulation"
      && (requested.None? ==> r.value.meta.reversedAmount == Amount(Lookup(l, txnId).value.amount))
    ensures Lookup(l, txnId).None? && r.value.Reversed? ==>
      && r.value.meta.origFrom.None? && r.value.meta.origTo.None?
      && r.value.meta.how == "synthetic_instant_revert"
      && (requested.None? ==> r.value.meta.reversedAmount == UnknownDemoAmount)
    ensures r.value.NotReversed? ==>
      && r.value.advisory == Advisory(modelProba)
      && r.log == log + [RecoveryRow(txnId, RevertFailed("instant_revert_failed", r.value.advisory), false, now)]
  {
    var rid := ReversalId("ir", txnId, now);
    match Lookup(l, txnId)
    case Some(found) =>
      var amount := match requested
        case Some(a) => a
        case None => found.amount;
      var meta := ReversalMeta(Amount(amount), Some(found.from), Some(found.to), "instant_revert_simulation", now);
      Outcome(Reversed(txnId, rid, meta), log + ReversalRows(txnId, rid, meta, now))
    case None =>
      var adv := Advisory(modelProba);
      if adv > 0.5 || draw < RevertLuck then
        var amount := match requested
          case Some(a) => Amount(a)
          case None => UnknownDemoAmount;
        var meta := ReversalMeta(amount, None, None, "synthetic_instant_revert", now);
        Outcome(Reversed(txnId, rid, meta), log + ReversalRows(txnId, rid, meta, now))
      else
        Outcome(NotReversed(txnId, adv), log + [RecoveryRow(txnId, RevertFailed("instant_revert_failed", adv), false, now)])
  }

  /** A reversal of a ledger transaction does not consult the model or the
      draw. */
  lemma LedgerRevertIgnoresAdvice(l: Ledger, log: Log, txnId: string, requested: Option<real>,
                                  m1: Option<real>, d1: real, m2: Option<real>, d2: real, now: real)
    requires txnId in Ids(l)
    ensures InstantRevert(l, log, txnId, requested, m1, d1, now) == InstantRevert(l, log, txnId, requested, m2, d2, now)
  {
  }

  /** Without a model and without a ledger entry, a revert succeeds exactly
      when the draw falls below 0.3. */
  lemma NoModelRevertOdds(l: Ledger, log: Log, txnId: string, requested: Option<real>, draw: real, now: real)
    requires txnId !in Ids(l)
    ensures InstantRevert(l, log, txnId, requested, None, draw, now).value.Reversed? <==> draw < 0.3
  {
  }

  /** A revert writes no trace row, so it leaves every account's stored
      traces as they were. */
  lemma RevertKeepsTraces(l: Ledger, log: Log, txnId: string, requested: Option<real>,
                          modelProba: Option<real>, draw: real, now: real, account: string)
    ensures TracesFor(InstantRevert(l, log, txnId, requested, modelProba, draw, now).log, account)
      == TracesFor(log, account)
  {
    var r := InstantRevert(l, log, txnId, requested, modelProba, draw, now);
    if r.value.Reversed? {
      var rows := ReversalRows(txnId, r.value.reversalTxnId, r.value.meta, now);
      assert r.log == log + [rows[0]] + [rows[1]] by {
        assert r.log == log + rows;
      }
      NonTraceRowsKeepTraces(log, rows[0], rows[1], account);
    } else {
      var row := RecoveryRow(txnId, RevertFailed("instant_revert_failed", r.value.advisory), false, now);
      assert r.log == log + [row];
      TracesAfterAppend(log, row, account);
    }
  }

  lemma NonTraceRowsKeepTraces(log: Log, a: Record, b: Record, account: string)
    requires !a.TraceRow? && !b.TraceRow?
    ensures TracesFor(log + [a] + [b], account) == TracesFor(log, account)
  {
    TracesAfterAppend(log, a, account);
    TracesAfterAppend(log + [a], b, account);
  }

  // ---------------------------------------------------------------------
  // register_sim_txn

  /** The returned `{txn_id, registered: True}`. */
  datatype Registration = Registration(txnId: string, registered: bool)

  /** The reply, the ledger after the call and the log after the call. */
  datatype SimRegistration = SimRegistration(reply: Registration, ledger: Ledger, log: Log)

  /** `register_sim_txn(txn_id, from_acct, to_acct, amount)`: the ledger
      entry is written first; the trace `[from, to]` of the sender is then
      stored unless that write fails (`traceWritten` false), and a failed
      trace write is swallowed. The reply is always a registration. */
  function RegisterSimTxn(l: Ledger, log: Log, txnId: string, from: string, to: string, amount: real,
                          now: real, traceWritten: bool): (r: SimRegistration)
    ensures r.reply == Registration(txnId, true)
    ensures Lookup(r.ledger, txnId) == Some(Edge(from, to, amount, now))
    ensures forall k | k != txnId :: Lookup(r.ledger, k) == Lookup(l, k)
    ensures r.log == if traceWritten then log + [TraceRow(from, [from, to], now)] else log
  {
    var l' := RegisterTxn(l, txnId, from, to, amount, now);
    var log' := if traceWritten then log + [TraceRow(from, [from, to], now)] else log;
    SimRegistration(Registration(txnId, true), l', log')
  }

  /** A transaction registered through the engine is then reversed for its
      own amount, from its sender to its recipient, whatever the model and
      the draw say. */
  lemma RevertAfterRegister(l: Ledger, log: Log, txnId: string, from: string, to: string, amount: real,
                            t: real, traceWritten: bool, modelProba: Option<real>, draw: real, now: real)
    ensures var reg := RegisterSimTxn(l, log, txnId, from, to, amount, t, traceWritten);
            var rev := InstantRevert(reg.ledger, reg.log, txnId, None, modelProba, draw, now).value;
            rev.Reversed? && rev.meta.reversedAmount == Amount(amount)
            && rev.meta.origFrom == Some(from) && rev.meta.origTo == Some(to)
  {
  }

  /** A registered transaction can be traced: the sub-transaction search
      starts from its recipient, and the sender's stored trace, when it was
      written, is read back first. */
  lemma RegisteredIsTraceable(l: Ledger, log: Log, txnId: string, from: string, to: string, amount: real,
                              t: real, traceWritten: bool, maxDepth: int)
    ensures var reg := RegisterSimTxn(l, log, txnId, from, to, amount, t, traceWritten);
            TraceSubtransactions(reg.ledger, txnId, maxDepth) == Traced(BuildGraph(reg.ledger, to, maxDepth))
    ensures var reg := RegisterSimTxn(l, log, txnId, from, to, amount, t, traceWritten);
            traceWritten ==> TracesFor(reg.log, from) == [[from, to]] + TracesFor(log, from)
  {
    TracesAfterAppend(log, TraceRow(from, [from, to], t), from);
  }
}
