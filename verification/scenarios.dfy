/** Concrete traces over the ledger that scripts/demo.py registers: three
    transfers muleA -> muleB -> muleC -> muleD. Clock readings are left
    symbolic. */
module Scenarios {
  import opened Basics
  import opened Ledger
  import opened Tracer
  import opened Audit
  import opened Engine

  /** The ledger after the three `register_sim_txn` calls of the demo. */
  function DemoLedger(t1: real, t2: real, t3: real): Ledger {
    var l1 := RegisterTxn([], "T1", "muleA", "muleB", 5000.0, t1);
    var l2 := RegisterTxn(l1, "T2", "muleB", "muleC", 4000.0, t2);
    RegisterTxn(l2, "T3", "muleC", "muleD", 3900.0, t3)
  }

  function E1(t1: real): Entry { ("T1", Edge("muleA", "muleB", 5000.0, t1)) }
  function E2(t2: real): Entry { ("T2", Edge("muleB", "muleC", 4000.0, t2)) }
  function E3(t3: real): Entry { ("T3", Edge("muleC", "muleD", 3900.0, t3)) }

  /** Three fresh ids are appended in registration order. */
  lemma DemoLedgerEntries(t1: real, t2: real, t3: real)
    ensures DemoLedger(t1, t2, t3) == [E1(t1), E2(t2), E3(t3)]
  {
    RegisterFirst(t1);
    RegisterSecond(t1, t2);
    RegisterThird(t1, t2, t3);
  }

  lemma RegisterFirst(t1: real)
    ensures RegisterTxn([], "T1", "muleA", "muleB", 5000.0, t1) == [E1(t1)]
  {
    RegisterFreshAppends([], "T1", E1(t1).1);
  }

  lemma RegisterSecond(t1: real, t2: real)
    ensures RegisterTxn([E1(t1)], "T2", "muleB", "muleC", 4000.0, t2) == [E1(t1), E2(t2)]
  {
    var l1: Ledger := [E1(t1)];
    assert Ids(l1) == ["T1"];
    RegisterFreshAppends(l1, "T2", E2(t2).1);
  }

  lemma RegisterThird(t1: real, t2: real, t3: real)
    ensures RegisterTxn([E1(t1), E2(t2)], "T3", "muleC", "muleD", 3900.0, t3) == [E1(t1), E2(t2), E3(t3)]
  {
    var l2: Ledger := [E1(t1), E2(t2)];
    assert Ids(l2) == ["T1", "T2"];
    RegisterFreshAppends(l2, "T3", E3(t3).1);
  }

  /** A lookup in a three-entry list for an id none of them has. */
  lemma LookupMissThree(a: Entry, b: Entry, c: Entry, id: string)
    requires id != a.0 && id != b.0 && id != c.0
    ensures Lookup([a, b, c], id) == None
  {
    assert [a, b, c][1..] == [b, c];
    assert [b, c][1..] == [c];
    assert [c][1..] == [];
  }

  /** Scanning a three-entry ledger applies the loop body to each entry in turn. */
  lemma ScanThree(a: Entry, b: Entry, c: Entry, acct: string, v: Visit)
    ensures Scan([a, b, c], acct, v) == Visit1(Visit1(Visit1(v, acct, a), acct, b), acct, c)
  {
    var va := Visit1(v, acct, a);
    var vb := Visit1(va, acct, b);
    var vc := Visit1(vb, acct, c);
    assert [a, b, c][1..] == [b, c];
    assert [b, c][1..] == [c];
    assert [c][1..] == [];
    assert Scan([c], acct, vb) == Scan([], acct, vc) == vc;
    assert Scan([b, c], acct, va) == Scan([c], acct, vb);
    assert Scan([a, b, c], acct, v) == Scan([b, c], acct, va);
  }

  /** One round from a one-account queue. */
  lemma SingleRound(l: Ledger, maxHops: int, run: Run)
    requires |run.queue| == 1 && run.hops < maxHops
    ensures Rounds(l, maxHops, run)
      == var v := Scan(l, run.queue[0], run.visit.(next := []));
         Rounds(l, maxHops, Run(v, v.next, run.hops + 1))
  {
    var v0 := run.visit.(next := []);
    assert run.queue[1..] == [];
    assert Expand(l, run.queue, v0) == Expand(l, [], Scan(l, run.queue[0], v0));
  }

  function R1(t1: real): TxnRecord { RecordOf(E1(t1)) }
  function R2(t2: real): TxnRecord { RecordOf(E2(t2)) }
  function R3(t3: real): TxnRecord { RecordOf(E3(t3)) }

  /** The search state after each round of the demo search from muleA. */
  function Demo1(t1: real): Visit {
    Visit(["muleB"], {"T1"}, [R1(t1)], ["muleB"])
  }

  function Demo2(t1: real, t2: real): Visit {
    Visit(["muleB", "muleC"], {"T1", "T2"}, [R1(t1), R2(t2)], ["muleC"])
  }

  function Demo3(t1: real, t2: real, t3: real): Visit {
    Visit(["muleB", "muleC", "muleD"], {"T1", "T2", "T3"}, [R1(t1), R2(t2), R3(t3)], ["muleD"])
  }

  lemma DemoRound1(t1: real, t2: real, t3: real)
    ensures Scan([E1(t1), E2(t2), E3(t3)], "muleA", Visit([], {}, [], [])) == Demo1(t1)
  {
    ScanThree(E1(t1), E2(t2), E3(t3), "muleA", Visit([], {}, [], []));
  }

  lemma DemoRound2(t1: real, t2: real, t3: real)
    ensures Scan([E1(t1), E2(t2), E3(t3)], "muleB", Demo1(t1).(next := [])) == Demo2(t1, t2)
  {
    var v := Demo1(t1).(next := []);
    ScanThree(E1(t1), E2(t2), E3(t3), "muleB", v);
    assert Visit1(v, "muleB", E1(t1)) == v;
    assert "muleC" !in v.accounts;
  }

  lemma DemoRound3(t1: real, t2: real, t3: real)
    ensures Scan([E1(t1), E2(t2), E3(t3)], "muleC", Demo2(t1, t2).(next := [])) == Demo3(t1, t2, t3)
  {
    var v := Demo2(t1, t2).(next := []);
    ScanThree(E1(t1), E2(t2), E3(t3), "muleC", v);
    assert Visit1(v, "muleC", E1(t1)) == v;
    assert Visit1(v, "muleC", E2(t2)) == v;
    assert "muleD" !in v.accounts;
  }

  lemma DemoRound4(t1: real, t2: real, t3: real)
    ensures Scan([E1(t1), E2(t2), E3(t3)], "muleD", Demo3(t1, t2, t3).(next := [])) == Demo3(t1, t2, t3).(next := [])
  {
    var v := Demo3(t1, t2, t3).(next := []);
    ScanThree(E1(t1), E2(t2), E3(t3), "muleD", v);
  }

  /** From muleA with five hops the chain is reported as T1, T2, T3, and
      `hops_searched` is 4: the fourth round expands muleD and finds nothing,
      and it is counted. */
  lemma DemoTraceFromMuleA(t1: real, t2: real, t3: real)
    ensures BuildGraph(DemoLedger(t1, t2, t3), "muleA", 5)
      == TraceResult("muleA", [R1(t1), R2(t2), R3(t3)], 4)
  {
    DemoLedgerEntries(t1, t2, t3);
    var l: Ledger := [E1(t1), E2(t2), E3(t3)];
    var s1, s2, s3 := Demo1(t1), Demo2(t1, t2), Demo3(t1, t2, t3);
    var s4 := s3.(next := []);
    DemoRound1(t1, t2, t3);
    SingleRound(l, 5, Initial("muleA"));
    DemoRound2(t1, t2, t3);
    SingleRound(l, 5, Run(s1, ["muleB"], 1));
    DemoRound3(t1, t2, t3);
    SingleRound(l, 5, Run(s2, ["muleC"], 2));
    DemoRound4(t1, t2, t3);
    SingleRound(l, 5, Run(s3, ["muleD"], 3));
    assert Rounds(l, 5, Run(s4, [], 4)) == Run(s4, [], 4);
  }

  /** With one hop only the first round runs: T1 alone, `hops_searched` 1. */
  lemma DemoOneHop(t1: real, t2: real, t3: real)
    ensures BuildGraph(DemoLedger(t1, t2, t3), "muleA", 1) == TraceResult("muleA", [R1(t1)], 1)
  {
    DemoLedgerEntries(t1, t2, t3);
    var l: Ledger := [E1(t1), E2(t2), E3(t3)];
    DemoRound1(t1, t2, t3);
    SingleRound(l, 1, Initial("muleA"));
    var run1 := Run(Demo1(t1), ["muleB"], 1);
    assert Rounds(l, 1, run1) == run1;
  }

  lemma MuleBRound1(t1: real, t2: real, t3: real)
    ensures Scan([E1(t1), E2(t2), E3(t3)], "muleB", Visit([], {}, [], []))
      == Visit(["muleC"], {"T2"}, [R2(t2)], ["muleC"])
  {
    ScanThree(E1(t1), E2(t2), E3(t3), "muleB", Visit([], {}, [], []));
  }

  lemma MuleBRound2(t1: real, t2: real, t3: real)
    ensures Scan([E1(t1), E2(t2), E3(t3)], "muleC", Visit(["muleC"], {"T2"}, [R2(t2)], []))
      == Visit(["muleC", "muleD"], {"T2", "T3"}, [R2(t2), R3(t3)], ["muleD"])
  {
    var v := Visit(["muleC"], {"T2"}, [R2(t2)], []);
    ScanThree(E1(t1), E2(t2), E3(t3), "muleC", v);
    assert Visit1(v, "muleC", E1(t1)) == v;
    assert Visit1(v, "muleC", E2(t2)) == v;
    assert "muleD" !in v.accounts;
  }

  lemma MuleBRound3(t1: real, t2: real, t3: real)
    ensures Scan([E1(t1), E2(t2), E3(t3)], "muleD", Visit(["muleC", "muleD"], {"T2", "T3"}, [R2(t2), R3(t3)], []))
      == Visit(["muleC", "muleD"], {"T2", "T3"}, [R2(t2), R3(t3)], [])
  {
    ScanThree(E1(t1), E2(t2), E3(t3), "muleD", Visit(["muleC", "muleD"], {"T2", "T3"}, [R2(t2), R3(t3)], []));
  }

  /** From muleB the demo search reports T2, T3 in three rounds, the last one empty. */
  lemma DemoTraceFromMuleB(t1: real, t2: real, t3: real)
    ensures BuildGraph(DemoLedger(t1, t2, t3), "muleB", 5) == TraceResult("muleB", [R2(t2), R3(t3)], 3)
  {
    DemoLedgerEntries(t1, t2, t3);
    var l: Ledger := [E1(t1), E2(t2), E3(t3)];
    var s1 := Visit(["muleC"], {"T2"}, [R2(t2)], ["muleC"]);
    var s2 := Visit(["muleC", "muleD"], {"T2", "T3"}, [R2(t2), R3(t3)], ["muleD"]);
    var s3 := s2.(next := []);
    MuleBRound1(t1, t2, t3);
    SingleRound(l, 5, Initial("muleB"));
    MuleBRound2(t1, t2, t3);
    SingleRound(l, 5, Run(s1, ["muleC"], 1));
    MuleBRound3(t1, t2, t3);
    SingleRound(l, 5, Run(s2, ["muleD"], 2));
    assert Rounds(l, 5, Run(s3, [], 3)) == Run(s3, [], 3);
  }

  /** `trace_subtransactions_for_txn("T1", 5)` restarts from T1's recipient
      muleB and returns that search's result unwrapped. */
  lemma DemoSubtransactions(t1: real, t2: real, t3: real)
    ensures TraceSubtransactions(DemoLedger(t1, t2, t3), "T1", 5)
      == Traced(TraceResult("muleB", [R2(t2), R3(t3)], 3))
  {
    DemoLedgerEntries(t1, t2, t3);
    var l: Ledger := [E1(t1), E2(t2), E3(t3)];
    LookupEntry(l, 0);
    DemoTraceFromMuleB(t1, t2, t3);
  }

  /** An id that was never registered is reported as not found. */
  lemma DemoUnknownTxn(t1: real, t2: real, t3: real)
    ensures TraceSubtransactions(DemoLedger(t1, t2, t3), "unknown_txn", 5) == NotFound("unknown_txn")
  {
    DemoLedgerEntries(t1, t2, t3);
    LookupMissThree(E1(t1), E2(t2), E3(t3), "unknown_txn");
    var r := TraceSubtransactions(DemoLedger(t1, t2, t3), "unknown_txn", 5);
    assert r.NotFound? && r.txnId == "unknown_txn";
  }

  /** Registering T1 a second time replaces its edge and keeps one entry. */
  lemma DemoReRegister(t1: real, t2: real, t3: real, t4: real)
    ensures RegisterTxn(DemoLedger(t1, t2, t3), "T1", "muleA", "muleX", 10.0, t4)
      == [("T1", Edge("muleA", "muleX", 10.0, t4)), E2(t2), E3(t3)]
  {
    DemoLedgerEntries(t1, t2, t3);
    ReRegisterFirst(t1, t2, t3, t4);
  }

  lemma ReRegisterFirst(t1: real, t2: real, t3: real, t4: real)
    ensures RegisterTxn([E1(t1), E2(t2), E3(t3)], "T1", "muleA", "muleX", 10.0, t4)
      == [("T1", Edge("muleA", "muleX", 10.0, t4)), E2(t2), E3(t3)]
  {
    var entries := [E1(t1), E2(t2), E3(t3)];
    assert Ids(entries) == ["T1", "T2", "T3"];
    var e := Edge("muleA", "muleX", 10.0, t4);
    AssignInPlace(entries, "T1", e, 0);
    var r := Assign(entries, "T1", e);
    assert r[1] == E2(t2) && r[2] == E3(t3);
  }

  /** A self-loop a -> a: the unmarked start account is queued once more by
      the loop edge, the second round finds the edge already visited, and
      the edge is reported once. */
  lemma SelfLoop(amount: real, t: real)
    ensures BuildGraph([("S", Edge("a", "a", amount, t))], "a", 5)
      == TraceResult("a", [RecordOf(("S", Edge("a", "a", amount, t)))], 2)
  {
    var entry := ("S", Edge("a", "a", amount, t));
    var l: Ledger := [entry];
    var rec := RecordOf(entry);
    var s1 := Visit(["a"], {"S"}, [rec], ["a"]);
    var s2 := s1.(next := []);
    assert l[1..] == [];
    assert Scan(l, "a", Visit([], {}, [], [])) == Scan([], "a", s1);
    SingleRound(l, 5, Initial("a"));
    assert Scan(l, "a", s2) == Scan([], "a", s2);
    SingleRound(l, 5, Run(s1, ["a"], 1));
    assert Rounds(l, 5, Run(s2, [], 2)) == Run(s2, [], 2);
  }

  /** Step 3 of the demo: 4000 of T1 is held with the reason "pattern matched". */
  lemma DemoFreeze(log: Log, now: real)
    ensures var r := FreezeTransaction(log, "T1", 4000.0, now, "pattern matched");
            r.value == Ok(Frozen("T1", FreezeMeta("pattern matched", 4000.0, "INR", now)))
            && |r.log| == |log| + 1
  {
  }

  /** Step 5 of the demo: T1 is in the ledger, so it is reversed for the
      requested 4000 (not its own 5000) from muleA to muleB, whatever the
      model and the draw. */
  lemma DemoRevert(t1: real, t2: real, t3: real, log: Log, modelProba: Option<real>, draw: real, now: real)
    ensures var r := InstantRevert(DemoLedger(t1, t2, t3), log, "T1", Some(4000.0), modelProba, draw, now);
            && r.value.Reversed?
            && r.value.meta == ReversalMeta(Amount(4000.0), Some("muleA"), Some("muleB"), "instant_revert_simulation", now)
            && |r.log| == |log| + 2
  {
    DemoLedgerEntries(t1, t2, t3);
    var l: Ledger := [E1(t1), E2(t2), E3(t3)];
    LookupEntry(l, 0);
  }
}
