/** The forward-flow ("mule") tracer of fastqtd/auto_traceback.py: a bounded
    breadth-first search over the ledger's transfer edges, and the
    transaction-rooted variant that restarts it from a transfer's recipient.

    The three nested Python loops of `build_graph_from_start_account` are
    three functions here: `Scan` is the inner `for txn_id, txn in ledger`
    loop for one account, `Expand` is `for acct in queue`, and `Rounds` is
    the outer `while queue and hops < max_hops`. */
module Tracer {
  import opened Basics
  import opened Ledger

  /** One element of the result's `txns`: `{txn_id, from, to, amount, timestamp}`. */
  datatype TxnRecord = TxnRecord(txnId: string, from: string, to: string, amount: real, timestamp: real)

  function RecordOf(entry: Entry): TxnRecord {
    TxnRecord(entry.0, entry.1.from, entry.1.to, entry.1.amount, entry.1.timestamp)
  }

  /** The records of a sequence of ledger entries, in order. */
  function Records(entries: seq<Entry>): (rs: seq<TxnRecord>)
    ensures |rs| == |entries|
    ensures forall i | 0 <= i < |entries| :: rs[i] == RecordOf(entries[i])
  {
    seq(|entries|, i requires 0 <= i < |entries| => RecordOf(entries[i]))
  }

  function TxnIds(txns: seq<TxnRecord>): (ids: seq<string>)
    ensures |ids| == |txns|
    ensures forall i | 0 <= i < |txns| :: ids[i] == txns[i].txnId
  {
    seq(|txns|, i requires 0 <= i < |txns| => txns[i].txnId)
  }

  /** `{start_account, txns, hops_searched}`. */
  datatype TraceResult = TraceResult(startAccount: string, txns: seq<TxnRecord>, hopsSearched: nat)

  /** The call-local state of one search. `accounts` is `visited_accounts`,
      kept in the order accounts were added to it (the set of its elements is
      the Python set); `txnIds` is `visited_txns`; `txns` is `results`; `next`
      is `next_queue` of the round in progress. */
  datatype Visit = Visit(accounts: seq<string>, txnIds: set<string>, txns: seq<TxnRecord>, next: seq<string>)

  /** The body of the innermost loop, for the ledger entry `entry` while
      expanding `acct`. */
  function Visit1(v: Visit, acct: string, entry: Entry): (r: Visit)
    ensures entry.1.from == acct ==> entry.0 in r.txnIds
    ensures r.txns != v.txns <==> entry.1.from == acct && entry.0 !in v.txnIds
    ensures r.txns != v.txns ==> r.txns == v.txns + [RecordOf(entry)] && r.txnIds == v.txnIds + {entry.0}
    ensures r.txns == v.txns ==> r.txnIds == v.txnIds
    ensures r.next != v.next <==> r.txns != v.txns && entry.1.to !in v.accounts
    ensures r.next == v.next ==> r.accounts == v.accounts
    ensures r.next != v.next ==> r.next == v.next + [entry.1.to] && r.accounts == v.accounts + [entry.1.to]
  {
    var id := entry.0;
    var e := entry.1;
    if e.from == acct && id !in v.txnIds then
      var v1 := v.(txnIds := v.txnIds + {id}, txns := v.txns + [RecordOf(entry)]);
      if e.to !in v.accounts then v1.(accounts := v.accounts + [e.to], next := v.next + [e.to])
      else v1
    else v
  }

  /** `for txn_id, txn in list(SIM_LEDGER.items())` while expanding `acct`.
      Accounts are added to `visited_accounts` and to `next_queue` together,
      and nothing is ever removed. */
  function Scan(entries: seq<Entry>, acct: string, v: Visit): (r: Visit)
    ensures v.txns <= r.txns && v.txnIds <= r.txnIds
    ensures v.next <= r.next
    ensures r.accounts == v.accounts + r.next[|v.next|..]
    decreases |entries|
  {
    if entries == [] then v else Scan(entries[1..], acct, Visit1(v, acct, entries[0]))
  }

  /** `for acct in queue`: every account is scanned against the whole ledger,
      in queue order. */
  function Expand(l: Ledger, queue: seq<string>, v: Visit): (r: Visit)
    ensures v.txns <= r.txns && v.txnIds <= r.txnIds
    ensures v.next <= r.next
    ensures r.accounts == v.accounts + r.next[|v.next|..]
    decreases |queue|
  {
    if queue == [] then v
    else
      var w := Scan(l, queue[0], v);
      var r := Expand(l, queue[1..], w);
      SuffixJoin(v.next, w.next, r.next);
      r
  }

  /** What a longer prefix adds splits at the middle prefix. */
  lemma SuffixJoin(a: seq<string>, b: seq<string>, c: seq<string>)
    requires a <= b <= c
    ensures c[|a|..] == b[|a|..] + c[|b|..]
  {
  }

  /** The loop state between rounds: the search state, the queue to expand
      next, and `hops`. */
  datatype Run = Run(visit: Visit, queue: seq<string>, hops: nat)

  /** One round of the `while` body: an empty `next_queue`, the expansion
      of the queue, then `queue = next_queue` and one more hop, whether or
      not the round found anything. */
  function Step(l: Ledger, run: Run): (r: Run)
    ensures r.hops == run.hops + 1
    ensures run.visit.txns <= r.visit.txns && run.visit.txnIds <= r.visit.txnIds
    ensures r.queue == r.visit.next
    ensures r.visit.accounts == run.visit.accounts + r.queue
  {
    var v := Expand(l, run.queue, run.visit.(next := []));
    Run(v, v.next, run.hops + 1)
  }

  /** `while queue and hops < max_hops`. */
  function Rounds(l: Ledger, maxHops: int, run: Run): (out: Run)
    ensures out.hops >= run.hops
    ensures out.hops > run.hops ==> run.queue != [] && out.hops <= maxHops
    ensures out.queue == [] || out.hops >= maxHops
    ensures run.visit.txns <= out.visit.txns
    decreases if run.hops < maxHops then maxHops - run.hops else 0
  {
    if run.queue == [] || run.hops >= maxHops then run
    else
      Rounds(l, maxHops, Step(l, run))
  }

  /** The state before the first round: nothing visited (the start account
      is not marked), and the queue holds the start account. */
  function Initial(start: string): Run {
    Run(Visit([], {}, [], []), [start], 0)
  }

  /** The whole search, including its final state. */
  function Search(l: Ledger, start: string, maxHops: int): (r: Run)
    ensures maxHops <= 0 ==> r == Initial(start)
    ensures maxHops > 0 ==> 1 <= r.hops <= maxHops
    ensures r.hops < maxHops ==> r.queue == []
  {
    Rounds(l, maxHops, Initial(start))
  }

  /** `build_graph_from_start_account(start_account, max_hops)`. */
  function BuildGraph(l: Ledger, start: string, maxHops: int := 5): (r: TraceResult)
    ensures r.startAccount == start
    ensures maxHops <= 0 ==> r.txns == [] && r.hopsSearched == 0
    ensures 0 <= r.hopsSearched <= if maxHops > 0 then maxHops else 0
    ensures maxHops > 0 ==> r.hopsSearched >= 1
  {
    var run := Search(l, start, maxHops);
    TraceResult(start, run.visit.txns, run.hops)
  }

  /** The result of `trace_subtransactions_for_txn`: for an unknown id the
      dictionary `{txn_id, found: False, sub_txns: []}`, otherwise the search
      result itself, not wrapped and with no `found` key. */
  datatype SubTrace = NotFound(txnId: string) | Traced(trace: TraceResult)

  /** `trace_subtransactions_for_txn(txn_id, max_depth)`. */
  function TraceSubtransactions(l: Ledger, txnId: string, maxDepth: int := 5): (r: SubTrace)
    ensures r.NotFound? <==> txnId !in Ids(l)
    ensures r.NotFound? ==> r.txnId == txnId
    ensures r.Traced? ==> (exists k | 0 <= k < |l| :: l[k].0 == txnId && r.trace.startAccount == l[k].1.to)
    ensures r.Traced? ==> r.trace.hopsSearched <= if maxDepth > 0 then maxDepth else 0
  {
    match Lookup(l, txnId)
    case None => NotFound(txnId)
    case Some(e) => Traced(BuildGraph(l, e.to, maxDepth))
  }
}
