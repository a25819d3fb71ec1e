/** What `build_graph_from_start_account` guarantees: no transaction is
    reported twice and no account is queued twice within a call, every
    reported transaction is a ledger edge leaving the start account or an
    account reached earlier, the hop counter is bounded by `max_hops`, edges
    of one account come out in ledger order, and, given enough hops, every
    transaction reachable from the start account is reported. */
module TracerProperties {
  import opened Basics
  import opened Ledger
  import opened Tracer

  /** The recipients of `txns`, in order. */
  function Tos(txns: seq<TxnRecord>): (tos: seq<string>)
    ensures |tos| == |txns|
    ensures forall i | 0 <= i < |txns| :: tos[i] == txns[i].to
  {
    seq(|txns|, i requires 0 <= i < |txns| => txns[i].to)
  }

  /** `txns[i]` leaves the start account or the recipient of an earlier result. */
  ghost predicate Linked(start: string, txns: seq<TxnRecord>, i: nat)
    requires i < |txns|
  {
    txns[i].from == start || exists j | 0 <= j < i :: txns[j].to == txns[i].from
  }

  /** The search-state invariant: `visited_txns` is exactly the set of
      reported ids and no id is reported twice; every report is a ledger
      edge, linked to the start account; `visited_accounts` holds no account
      twice and is exactly the set of recipients of the reports. */
  ghost predicate Sound(l: seq<Entry>, start: string, v: Visit) {
    && NoDup(TxnIds(v.txns))
    && v.txnIds == Elems(TxnIds(v.txns))
    && (forall i | 0 <= i < |v.txns| :: v.txns[i] in Records(l))
    && (forall i | 0 <= i < |v.txns| :: Linked(start, v.txns, i))
    && NoDup(v.accounts)
    && Elems(v.accounts) == Elems(Tos(v.txns))
  }

  /** The set of accounts any ledger edge pays into. */
  function Recipients(l: seq<Entry>): set<string> {
    set k | 0 <= k < |l| :: l[k].1.to
  }

  /** `path` lists ledger positions of a chain of transfers that leaves
      `start`, each transfer leaving the recipient of the one before. */
  ghost predicate IsChain(l: seq<Entry>, start: string, path: seq<nat>) {
    && |path| > 0
    && (forall k | 0 <= k < |path| :: path[k] < |l|)
    && l[path[0]].1.from == start
    && (forall k | 0 < k < |path| :: l[path[k]].1.from == l[path[k - 1]].1.to)
  }

  // ---------------------------------------------------------------------
  // One step of the innermost loop keeps the invariant.

  lemma AppendRecord(txns: seq<TxnRecord>, r: TxnRecord)
    ensures TxnIds(txns + [r]) == TxnIds(txns) + [r.txnId]
    ensures Tos(txns + [r]) == Tos(txns) + [r.to]
    ensures Elems(TxnIds(txns + [r])) == Elems(TxnIds(txns)) + {r.txnId}
    ensures Elems(Tos(txns + [r])) == Elems(Tos(txns)) + {r.to}
  {
    assert TxnIds(txns + [r]) == TxnIds(txns) + [r.txnId];
    assert Tos(txns + [r]) == Tos(txns) + [r.to];
  }

  lemma LinkedAppend(start: string, txns: seq<TxnRecord>, r: TxnRecord, i: nat)
    requires i < |txns|
    requires Linked(start, txns, i)
    ensures Linked(start, txns + [r], i)
  {
    if txns[i].from != start {
      var j :| 0 <= j < i && txns[j].to == txns[i].from;
      assert (txns + [r])[j] == txns[j];
    }
  }

  lemma Visit1Sound(l: seq<Entry>, start: string, v: Visit, acct: string, entry: Entry)
    requires Sound(l, start, v)
    requires entry in l
    requires acct == start || acct in v.accounts
    ensures Sound(l, start, Visit1(v, acct, entry))
  {
    var id := entry.0;
    var e := entry.1;
    if e.from == acct && id !in v.txnIds {
      var r := RecordOf(entry);
      var txns := v.txns + [r];
      AppendRecord(v.txns, r);
      assert NoDup(TxnIds(txns)) by {
        forall i, j | 0 <= i < j < |txns| ensures TxnIds(txns)[i] != TxnIds(txns)[j] {
          if j == |v.txns| {
            assert TxnIds(txns)[i] == TxnIds(v.txns)[i] && TxnIds(txns)[i] in Elems(TxnIds(v.txns));
          } else {
            assert TxnIds(txns)[i] == TxnIds(v.txns)[i] && TxnIds(txns)[j] == TxnIds(v.txns)[j];
          }
        }
      }
      assert r in Records(l) by {
        var k :| 0 <= k < |l| && l[k] == entry;
        assert Records(l)[k] == r;
      }
      forall i | 0 <= i < |txns| ensures txns[i] in Records(l) && Linked(start, txns, i) {
        if i < |v.txns| {
          LinkedAppend(start, v.txns, r, i);
        } else if acct != start {
          assert acct in Elems(Tos(v.txns));
          var j :| 0 <= j < |v.txns| && Tos(v.txns)[j] == acct;
          assert txns[j].to == txns[i].from;
        }
      }
      if e.to !in v.accounts {
        var accounts := v.accounts + [e.to];
        assert Elems(accounts) == Elems(v.accounts) + {e.to};
        assert NoDup(accounts) by {
          forall i, j | 0 <= i < j < |accounts| ensures accounts[i] != accounts[j] {
            if j == |v.accounts| {
              assert accounts[i] in v.accounts;
            }
          }
        }
      } else {
        assert e.to in Elems(v.accounts);
      }
    }
  }

  // ---------------------------------------------------------------------
  // The inner loop and the queue loop keep the invariant, and cover every
  // edge leaving an expanded account.

  lemma {:induction false} ScanSound(l: seq<Entry>, start: string, entries: seq<Entry>, acct: string, v: Visit)
    requires Sound(l, start, v)
    requires forall k | 0 <= k < |entries| :: entries[k] in l
    requires acct == start || acct in v.accounts
    ensures Sound(l, start, Scan(entries, acct, v))
    decreases |entries|
  {
    if entries != [] {
      var w := Visit1(v, acct, entries[0]);
      Visit1Sound(l, start, v, acct, entries[0]);
      assert v.accounts <= w.accounts;
      ScanSound(l, start, entries[1..], acct, w);
    }
  }

  lemma {:induction false} ScanCovers(entries: seq<Entry>, acct: string, v: Visit)
    ensures forall k | 0 <= k < |entries| && entries[k].1.from == acct ::
      entries[k].0 in Scan(entries, acct, v).txnIds
    decreases |entries|
  {
    if entries != [] {
      var w := Visit1(v, acct, entries[0]);
      ScanCovers(entries[1..], acct, w);
      var r := Scan(entries, acct, v);
      assert r == Scan(entries[1..], acct, w);
      forall k | 0 <= k < |entries| && entries[k].1.from == acct ensures entries[k].0 in r.txnIds {
        if k > 0 {
          assert entries[k] == entries[1..][k - 1];
        }
      }
    }
  }

  lemma {:induction false} ExpandSound(l: Ledger, start: string, queue: seq<string>, v: Visit)
    requires Sound(l, start, v)
    requires forall i | 0 <= i < |queue| :: queue[i] == start || queue[i] in v.accounts
    ensures Sound(l, start, Expand(l, queue, v))
    decreases |queue|
  {
    if queue != [] {
      var w := Scan(l, queue[0], v);
      ScanSound(l, start, l, queue[0], v);
      assert v.accounts <= w.accounts;
      ExpandSound(l, start, queue[1..], w);
    }
  }

  lemma {:induction false} ExpandCovers(l: Ledger, queue: seq<string>, v: Visit)
    ensures forall k | 0 <= k < |l| && l[k].1.from in queue :: l[k].0 in Expand(l, queue, v).txnIds
    decreases |queue|
  {
    if queue != [] {
      var w := Scan(l, queue[0], v);
      ScanCovers(l, queue[0], v);
      ExpandCovers(l, queue[1..], w);
      forall k | 0 <= k < |l| && l[k].1.from in queue ensures l[k].0 in Expand(l, queue, v).txnIds {
        if l[k].1.from != queue[0] {
          assert l[k].1.from in queue[1..];
        }
      }
    }
  }

  // ---------------------------------------------------------------------
  // The round loop.

  lemma ElemsConcat<T>(a: seq<T>, b: seq<T>)
    ensures Elems(a + b) == Elems(a) + Elems(b)
  {
  }

  /** Every ledger edge leaving an account of `from` has been visited. */
  ghost predicate CoversFrom(l: seq<Entry>, from: set<string>, v: Visit) {
    forall k | 0 <= k < |l| && l[k].1.from in from :: l[k].0 in v.txnIds
  }

  /** The round-loop invariant; `done` is the set of accounts expanded in
      earlier rounds. Each round that leaves a non-empty queue has visited at
      least one new account. */
  ghost predicate RoundInvariant(l: seq<Entry>, start: string, run: Run, done: set<string>) {
    && Sound(l, start, run.visit)
    && done + Elems(run.queue) == {start} + Elems(run.visit.accounts)
    && CoversFrom(l, done, run.visit)
    && (run.queue != [] ==> |run.visit.accounts| >= run.hops)
  }

  /** What holds when the round loop exits. */
  ghost predicate Settled(l: seq<Entry>, start: string, out: Run) {
    && Sound(l, start, out.visit)
    && (out.queue != [] ==> |out.visit.accounts| >= out.hops)
    && (out.queue == [] ==> CoversFrom(l, {start} + Elems(out.visit.accounts), out.visit))
  }

  lemma RoundStep(l: Ledger, start: string, run: Run, done: set<string>)
    requires RoundInvariant(l, start, run, done)
    requires run.queue != []
    ensures RoundInvariant(l, start, Step(l, run), done + Elems(run.queue))
  {
    var v0 := run.visit.(next := []);
    var v := Expand(l, run.queue, v0);
    forall i | 0 <= i < |run.queue| ensures run.queue[i] == start || run.queue[i] in v0.accounts {
      assert run.queue[i] in {start} + Elems(run.visit.accounts);
    }
    ExpandSound(l, start, run.queue, v0);
    ExpandCovers(l, run.queue, v0);
    assert v.accounts == run.visit.accounts + v.next;
    ElemsConcat(run.visit.accounts, v.next);
    var done' := done + Elems(run.queue);
    forall k | 0 <= k < |l| && l[k].1.from in done' ensures l[k].0 in v.txnIds {
      if l[k].1.from in done {
        assert l[k].0 in run.visit.txnIds;
      } else {
        assert l[k].1.from in run.queue;
      }
    }
  }

  /** The round invariant gives the exit facts. */
  lemma InvariantSettles(l: Ledger, start: string, run: Run, done: set<string>)
    requires RoundInvariant(l, start, run, done)
    ensures Settled(l, start, run)
  {
    if run.queue == [] {
      assert done == {start} + Elems(run.visit.accounts);
    }
  }

  lemma {:induction false} RoundsSound(l: Ledger, start: string, maxHops: int, run: Run, done: set<string>)
    requires RoundInvariant(l, start, run, done)
    ensures Settled(l, start, Rounds(l, maxHops, run))
    decreases if run.hops < maxHops then maxHops - run.hops else 0
  {
    if run.queue == [] || run.hops >= maxHops {
      InvariantSettles(l, start, run, done);
      assert Rounds(l, maxHops, run) == run;
    } else {
      var next := Step(l, run);
      RoundStep(l, start, run, done);
      RoundsSound(l, start, maxHops, next, done + Elems(run.queue));
      assert Rounds(l, maxHops, run) == Rounds(l, maxHops, next);
    }
  }

  /** Before the first round nothing is reported or visited, the start
      account is queued but not marked visited, and the round invariant
      holds with no account expanded yet. */
  lemma InitialInvariant(l: Ledger, start: string)
    ensures Initial(start).queue == [start] && Initial(start).hops == 0
    ensures Initial(start).visit.txns == [] && start !in Initial(start).visit.accounts
    ensures RoundInvariant(l, start, Initial(start), {})
  {
    assert Elems(Initial(start).queue) == {start};
  }

  /** The invariant and the coverage facts for a whole search. */
  lemma SearchSound(l: Ledger, start: string, maxHops: int)
    ensures Settled(l, start, Search(l, start, maxHops))
  {
    InitialInvariant(l, start);
    RoundsSound(l, start, maxHops, Initial(start), {});
  }

  // ---------------------------------------------------------------------
  // The guarantees of one call.

  /** No transaction is reported twice, and the reported set is exactly
      `visited_txns`. */
  lemma NoDoubleReporting(l: Ledger, start: string, maxHops: int)
    ensures NoDup(TxnIds(BuildGraph(l, start, maxHops).txns))
    ensures Search(l, start, maxHops).visit.txnIds == Elems(TxnIds(BuildGraph(l, start, maxHops).txns))
  {
    SearchSound(l, start, maxHops);
  }

  /** Every reported transaction is a ledger edge, and it leaves either the
      start account or the recipient of an earlier-reported transaction. */
  lemma ReportsAreLinkedEdges(l: Ledger, start: string, maxHops: int)
    ensures forall i | 0 <= i < |BuildGraph(l, start, maxHops).txns| ::
      BuildGraph(l, start, maxHops).txns[i] in Records(l)
    ensures forall i | 0 <= i < |BuildGraph(l, start, maxHops).txns| ::
      Linked(start, BuildGraph(l, start, maxHops).txns, i)
  {
    SearchSound(l, start, maxHops);
  }

  /** No account is appended to a next queue twice in one call: the
      accounts of a round's next queue are new, distinct, and appended to
      `visited_accounts` in the same order, and `visited_accounts` never
      holds an account twice. The start account is not marked, so it can be
      queued once more by an edge back into it. */
  lemma RoundQueuesFresh(l: Ledger, start: string, queue: seq<string>, v: Visit)
    requires Sound(l, start, v)
    requires forall i | 0 <= i < |queue| :: queue[i] == start || queue[i] in v.accounts
    ensures Expand(l, queue, v.(next := [])).accounts == v.accounts + Expand(l, queue, v.(next := [])).next
    ensures NoDup(Expand(l, queue, v.(next := [])).next)
    ensures forall i | 0 <= i < |Expand(l, queue, v.(next := [])).next| ::
      Expand(l, queue, v.(next := [])).next[i] !in v.accounts
  {
    var v0 := v.(next := []);
    var w := Expand(l, queue, v0);
    ExpandSound(l, start, queue, v0);
    assert w.accounts == v.accounts + w.next;
    forall i, j | 0 <= i < j < |w.next| ensures w.next[i] != w.next[j] {
      assert w.accounts[|v.accounts| + i] != w.accounts[|v.accounts| + j];
    }
    forall i | 0 <= i < |w.next| ensures w.next[i] !in v.accounts {
      forall j | 0 <= j < |v.accounts| ensures v.accounts[j] != w.next[i] {
        assert w.accounts[j] != w.accounts[|v.accounts| + i];
      }
    }
  }

  lemma AccountsQueuedOnce(l: Ledger, start: string, maxHops: int)
    ensures NoDup(Search(l, start, maxHops).visit.accounts)
    ensures Elems(Search(l, start, maxHops).visit.accounts) == Elems(Tos(BuildGraph(l, start, maxHops).txns))
  {
    SearchSound(l, start, maxHops);
  }

  /** A ledger id found among the reports brings its whole edge along. */
  lemma IdReported(l: Ledger, start: string, v: Visit, k: nat)
    requires Sound(l, start, v)
    requires k < |l| && l[k].0 in v.txnIds
    ensures RecordOf(l[k]) in v.txns
    ensures l[k].1.to in v.accounts
  {
    assert l[k].0 in Elems(TxnIds(v.txns));
    var i :| 0 <= i < |v.txns| && TxnIds(v.txns)[i] == l[k].0;
    assert v.txns[i] in Records(l);
    var m :| 0 <= m < |l| && Records(l)[m] == v.txns[i];
    SameIdSameEntry(l, m, k);
    assert Tos(v.txns)[i] == l[k].1.to;
    assert l[k].1.to in Elems(Tos(v.txns));
  }

  /** With more hops than there are distinct recipients, the search always
      ends because its queue ran empty. */
  lemma EndsByEmptyQueue(l: Ledger, start: string, maxHops: int)
    requires maxHops > |Recipients(l)|
    ensures Search(l, start, maxHops).queue == []
  {
    var run := Search(l, start, maxHops);
    SearchSound(l, start, maxHops);
    if run.queue != [] {
      var v := run.visit;
      forall i | 0 <= i < |v.accounts| ensures v.accounts[i] in Recipients(l) {
        assert v.accounts[i] in Elems(Tos(v.txns));
        var j :| 0 <= j < |v.txns| && Tos(v.txns)[j] == v.accounts[i];
        assert v.txns[j] in Records(l);
        var m :| 0 <= m < |l| && Records(l)[m] == v.txns[j];
        assert l[m].1.to == v.accounts[i];
      }
      NoDupBounded(v.accounts, Recipients(l));
      assert false;
    }
  }

  /** Completeness: when `max_hops` exceeds the number of distinct
      recipients, every transaction on a chain of transfers leaving the start
      account is reported. */
  lemma Completeness(l: Ledger, start: string, maxHops: int, path: seq<nat>)
    requires maxHops > |Recipients(l)|
    requires IsChain(l, start, path)
    ensures forall k | 0 <= k < |path| :: RecordOf(l[path[k]]) in BuildGraph(l, start, maxHops).txns
  {
    var v := Search(l, start, maxHops).visit;
    EndsByEmptyQueue(l, start, maxHops);
    SearchSound(l, start, maxHops);
    forall k | 0 <= k < |path| ensures RecordOf(l[path[k]]) in v.txns {
      ChainReported(l, start, v, path, k);
    }
  }

  lemma {:induction false} ChainReported(l: Ledger, start: string, v: Visit, path: seq<nat>, k: nat)
    requires Sound(l, start, v)
    requires forall m | 0 <= m < |l| && (l[m].1.from == start || l[m].1.from in v.accounts) :: l[m].0 in v.txnIds
    requires IsChain(l, start, path)
    requires k < |path|
    ensures RecordOf(l[path[k]]) in v.txns
    ensures l[path[k]].1.to in v.accounts
  {
    if k > 0 {
      ChainReported(l, start, v, path, k - 1);
    }
    IdReported(l, start, v, path[k]);
  }

  /** Soundness in path form: every reported transaction ends a chain of
      ledger transfers leaving the start account. */
  lemma {:induction false} ReportEndsChain(l: Ledger, start: string, txns: seq<TxnRecord>, i: nat)
    returns (path: seq<nat>)
    requires forall j | 0 <= j < |txns| :: txns[j] in Records(l) && Linked(start, txns, j)
    requires i < |txns|
    ensures IsChain(l, start, path)
    ensures RecordOf(l[path[|path| - 1]]) == txns[i]
    decreases i
  {
    var m :| 0 <= m < |l| && Records(l)[m] == txns[i];
    if txns[i].from == start {
      path := [m];
    } else {
      var j :| 0 <= j < i && txns[j].to == txns[i].from;
      var prefix := ReportEndsChain(l, start, txns, j);
      path := prefix + [m];
      assert IsChain(l, start, path) by {
        forall k | 0 < k < |path| ensures l[path[k]].1.from == l[path[k - 1]].1.to {
          if k < |prefix| {
            assert path[k] == prefix[k] && path[k - 1] == prefix[k - 1];
          }
        }
      }
    }
  }

  // ---------------------------------------------------------------------
  // Discovery order.

  /** The entries of `entries` that leave `acct` and whose ids are not in
      `seen`, in ledger order. */
  function Matching(entries: seq<Entry>, acct: string, seen: set<string>): seq<Entry>
    decreases |entries|
  {
    if entries == [] then []
    else
      (if entries[0].1.from == acct && entries[0].0 !in seen then [entries[0]] else [])
      + Matching(entries[1..], acct, seen)
  }

  lemma {:induction false} MatchingIgnoresAbsent(entries: seq<Entry>, acct: string, seen: set<string>, id: string)
    requires id !in Ids(entries)
    ensures Matching(entries, acct, seen + {id}) == Matching(entries, acct, seen)
    decreases |entries|
  {
    if entries != [] {
      assert Ids(entries)[0] == entries[0].0;
      assert id !in Ids(entries[1..]) by {
        assert Ids(entries[1..]) == Ids(entries)[1..];
      }
      MatchingIgnoresAbsent(entries[1..], acct, seen, id);
    }
  }

  lemma RecordsConcat(a: seq<Entry>, b: seq<Entry>)
    ensures Records(a + b) == Records(a) + Records(b)
  {
    assert Records(a + b) == Records(a) + Records(b);
  }

  /** What one step of the innermost loop does to `results` and `visited_txns`. */
  lemma Visit1Reports(v: Visit, acct: string, entry: Entry)
    ensures var hit := entry.1.from == acct && entry.0 !in v.txnIds;
      && Visit1(v, acct, entry).txns == (if hit then v.txns + [RecordOf(entry)] else v.txns)
      && Visit1(v, acct, entry).txnIds == (if hit then v.txnIds + {entry.0} else v.txnIds)
  {
  }

  /** Expanding one account reports, after what was already reported, the
      not-yet-visited edges leaving that account, in ledger order. */
  lemma {:induction false} ScanOrder(entries: seq<Entry>, acct: string, v: Visit)
    requires NoDup(Ids(entries))
    ensures Scan(entries, acct, v).txns == v.txns + Records(Matching(entries, acct, v.txnIds))
    decreases |entries|
  {
    if entries != [] {
      var w := Visit1(v, acct, entries[0]);
      IdsTail(entries);
      ScanOrder(entries[1..], acct, w);
      MatchingHead(entries, acct, v);
      assert Scan(entries, acct, v) == Scan(entries[1..], acct, w);
    }
  }

  /** The head entry's step followed by the rest of the matches is the
      whole list of matches. */
  lemma MatchingHead(entries: seq<Entry>, acct: string, v: Visit)
    requires entries != [] && entries[0].0 !in Ids(entries[1..])
    ensures var w := Visit1(v, acct, entries[0]);
      w.txns + Records(Matching(entries[1..], acct, w.txnIds))
      == v.txns + Records(Matching(entries, acct, v.txnIds))
  {
    var e0 := entries[0];
    var rest := Matching(entries[1..], acct, v.txnIds);
    if e0.1.from == acct && e0.0 !in v.txnIds {
      assert Matching(entries, acct, v.txnIds) == [e0] + rest;
      MatchingHit(entries[1..], acct, v, e0);
    } else {
      assert Visit1(v, acct, e0) == v;
      assert Matching(entries, acct, v.txnIds) == rest;
    }
  }

  lemma MatchingHit(tail: seq<Entry>, acct: string, v: Visit, e0: Entry)
    requires e0.1.from == acct && e0.0 !in v.txnIds && e0.0 !in Ids(tail)
    ensures var w := Visit1(v, acct, e0);
      w.txns + Records(Matching(tail, acct, w.txnIds))
      == v.txns + Records([e0] + Matching(tail, acct, v.txnIds))
  {
    var rest := Matching(tail, acct, v.txnIds);
    var w := Visit1(v, acct, e0);
    assert w.txns == v.txns + [RecordOf(e0)] && w.txnIds == v.txnIds + {e0.0} by {
      Visit1Reports(v, acct, e0);
    }
    assert Matching(tail, acct, w.txnIds) == rest by {
      MatchingIgnoresAbsent(tail, acct, v.txnIds, e0.0);
    }
    assert Records([e0] + rest) == [RecordOf(e0)] + Records(rest) by {
      RecordsConcat([e0], rest);
      assert Records([e0]) == [RecordOf(e0)];
    }
    assert v.txns + ([RecordOf(e0)] + Records(rest)) == (v.txns + [RecordOf(e0)]) + Records(rest);
  }

  // ---------------------------------------------------------------------
  // Transaction-rooted tracing.

  /** `trace_subtransactions_for_txn` on a known id is exactly the account
      search from that transaction's recipient, with the same hop bound. */
  lemma SubtraceIsRecipientSearch(l: Ledger, k: nat, maxDepth: int)
    requires k < |l|
    ensures TraceSubtransactions(l, l[k].0, maxDepth) == Traced(BuildGraph(l, l[k].1.to, maxDepth))
  {
    LookupEntry(l, k);
  }
}
