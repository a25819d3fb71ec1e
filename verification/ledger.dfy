/** The simulated in-memory ledger `SIM_LEDGER` of fastqtd/auto_traceback.py:
    a dictionary from transaction id to a transfer edge. A Python dict
    iterates in insertion order, and the tracer depends on that order, so
    the ledger is a sequence of (id, edge) pairs whose ids are unique. */
module Ledger {
  import opened Basics

  /** One registered transfer: `{from, to, amount, timestamp}`. */
  datatype Edge = Edge(from: string, to: string, amount: real, timestamp: real)

  type Entry = (string, Edge)

  /** The ids of `entries`, in iteration order. */
  function Ids(entries: seq<Entry>): (ids: seq<string>)
    ensures |ids| == |entries|
    ensures forall i | 0 <= i < |entries| :: ids[i] == entries[i].0
  {
    seq(|entries|, i requires 0 <= i < |entries| => entries[i].0)
  }

  /** The ids of a non-empty sequence: the head's id, then the tail's ids. */
  lemma IdsSplit(entries: seq<Entry>)
    requires entries != []
    ensures Ids(entries) == [entries[0].0] + Ids(entries[1..])
  {
  }

  /** A dictionary's keys are unique. */
  type Ledger = entries: seq<Entry> | NoDup(Ids(entries)) witness []

  /** `SIM_LEDGER.get(id)`. */
  function Lookup(entries: seq<Entry>, id: string): (r: Option<Edge>)
    ensures r.None? <==> id !in Ids(entries)
    ensures r.Some? ==> (id, r.value) in entries
  {
    if entries == [] then None
    else if entries[0].0 == id then Some(entries[0].1)
    else
      assert Ids(entries) == [entries[0].0] + Ids(entries[1..]);
      Lookup(entries[1..], id)
  }

  /** In a ledger an id names at most one entry, and `Lookup` finds it. */
  lemma {:induction false} LookupEntry(l: Ledger, k: nat)
    requires k < |l|
    ensures Lookup(l, l[k].0) == Some(l[k].1)
  {
    if k > 0 {
      var tail: seq<Entry> := l[1..];
      assert l[0].0 != l[k].0 by {
        assert Ids(l)[0] != Ids(l)[k];
      }
      assert NoDup(Ids(tail)) by {
        IdsTail(l);
      }
      assert tail[k - 1] == l[k];
      LookupEntry(tail, k - 1);
    }
  }

  /** Two entries of a ledger with the same id are the same entry. */
  lemma SameIdSameEntry(l: Ledger, i: nat, j: nat)
    requires i < |l| && j < |l|
    requires l[i].0 == l[j].0
    ensures l[i] == l[j]
  {
    LookupEntry(l, i);
    LookupEntry(l, j);
  }

  /** The tail of a ledger is a ledger that does not mention the head's id. */
  lemma IdsTail(entries: seq<Entry>)
    requires entries != [] && NoDup(Ids(entries))
    ensures NoDup(Ids(entries[1..]))
    ensures entries[0].0 !in Ids(entries[1..])
  {
    var tail := entries[1..];
    forall i | 0 <= i < |tail| ensures Ids(tail)[i] == Ids(entries)[i + 1] {
    }
    forall i | 0 <= i < |tail| ensures Ids(tail)[i] != entries[0].0 {
      assert Ids(entries)[0] != Ids(entries)[i + 1];
    }
    forall i, j | 0 <= i < j < |tail| ensures Ids(tail)[i] != Ids(tail)[j] {
      assert Ids(entries)[i + 1] != Ids(entries)[j + 1];
    }
  }

  /** Dictionary assignment on the pair sequence: an existing id keeps its
      place and its edge is replaced; a new id goes last. */
  function Assign(entries: seq<Entry>, id: string, e: Edge): (r: seq<Entry>)
    ensures |r| == if id in Ids(entries) then |entries| else |entries| + 1
    decreases |entries|
  {
    if entries == [] then [(id, e)]
    else if entries[0].0 == id then [(id, e)] + entries[1..]
    else [entries[0]] + Assign(entries[1..], id, e)
  }

  lemma {:induction false} AssignIds(entries: seq<Entry>, id: string, e: Edge)
    ensures Ids(Assign(entries, id, e)) == if id in Ids(entries) then Ids(entries) else Ids(entries) + [id]
    decreases |entries|
  {
    if entries != [] {
      var tail := entries[1..];
      IdsSplit(entries);
      var r := Assign(entries, id, e);
      if entries[0].0 == id {
        assert r == [(id, e)] + tail;
        IdsSplit(r);
        assert r[1..] == tail;
      } else {
        AssignIds(tail, id, e);
        assert r == [entries[0]] + Assign(tail, id, e);
        IdsSplit(r);
        assert r[1..] == Assign(tail, id, e);
        assert id in Ids(entries) <==> id in Ids(tail);
      }
    }
  }

  lemma {:induction false} AssignLookup(entries: seq<Entry>, id: string, e: Edge, k: string)
    ensures Lookup(Assign(entries, id, e), k) == if k == id then Some(e) else Lookup(entries, k)
    decreases |entries|
  {
    if entries != [] && entries[0].0 != id {
      AssignLookup(entries[1..], id, e, k);
    }
  }

  /** `SIM_LEDGER[txn_id] = {...}`: the edge registered under `id` replaces
      any earlier one, every other id keeps its edge, and the ids stay unique. */
  function Register(l: Ledger, id: string, e: Edge): (r: Ledger)
    ensures Ids(r) == if id in Ids(l) then Ids(l) else Ids(l) + [id]
    ensures Lookup(r, id) == Some(e)
    ensures forall k | k != id :: Lookup(r, k) == Lookup(l, k)
  {
    AssignIds(l, id, e);
    AssignUnique(l, id, e);
    AssignLookup(l, id, e, id);
    forall k | k != id ensures Lookup(Assign(l, id, e), k) == Lookup(l, k) {
      AssignLookup(l, id, e, k);
    }
    Assign(l, id, e)
  }

  /** Assignment keeps the ids unique. */
  lemma AssignUnique(entries: seq<Entry>, id: string, e: Edge)
    requires NoDup(Ids(entries))
    ensures NoDup(Ids(Assign(entries, id, e)))
  {
    AssignIds(entries, id, e);
    var ids := Ids(entries);
    if id !in ids {
      var ids' := ids + [id];
      forall i, j | 0 <= i < j < |ids'| ensures ids'[i] != ids'[j] {
        if j == |ids| {
          assert ids'[i] == ids[i];
        } else {
          assert ids'[i] == ids[i] && ids'[j] == ids[j];
        }
      }
    }
  }

  /** `register_simulated_txn`: the edge stamped with the current clock. */
  function RegisterTxn(l: Ledger, id: string, from: string, to: string, amount: real, now: real): (r: Ledger)
    ensures Lookup(r, id) == Some(Edge(from, to, amount, now))
    ensures forall k | k != id :: Lookup(r, k) == Lookup(l, k)
    ensures |r| == if id in Ids(l) then |l| else |l| + 1
  {
    Register(l, id, Edge(from, to, amount, now))
  }

  /** Re-registering an id overwrites its entry in place: the iteration order
      is unchanged and only the entry at the id's position differs. */
  lemma RegisterOverwritesInPlace(l: Ledger, id: string, e: Edge, k: nat)
    requires k < |l| && l[k].0 == id
    ensures |Register(l, id, e)| == |l|
    ensures Register(l, id, e)[k] == (id, e)
    ensures forall i | 0 <= i < |l| && i != k :: Register(l, id, e)[i] == l[i]
  {
    forall i | 0 <= i < |l| && i != k ensures l[i].0 != id {
      if i < k { assert Ids(l)[i] != Ids(l)[k]; } else { assert Ids(l)[k] != Ids(l)[i]; }
    }
    AssignInPlace(l, id, e, k);
  }

  lemma {:induction false} AssignInPlace(entries: seq<Entry>, id: string, e: Edge, k: nat)
    requires k < |entries| && entries[k].0 == id
    requires forall i | 0 <= i < |entries| && i != k :: entries[i].0 != id
    ensures |Assign(entries, id, e)| == |entries|
    ensures Assign(entries, id, e)[k] == (id, e)
    ensures forall i | 0 <= i < |entries| && i != k :: Assign(entries, id, e)[i] == entries[i]
    decreases |entries|
  {
    if k == 0 {
      AssignAtHead(entries, id, e);
    } else {
      var tail := entries[1..];
      assert entries[0].0 != id;
      forall i | 0 <= i < |tail| && i != k - 1 ensures tail[i].0 != id {
        assert tail[i] == entries[i + 1];
      }
      AssignInPlace(tail, id, e, k - 1);
      AssignPastHead(entries, id, e);
    }
  }

  lemma AssignAtHead(entries: seq<Entry>, id: string, e: Edge)
    requires entries != [] && entries[0].0 == id
    ensures |Assign(entries, id, e)| == |entries|
    ensures Assign(entries, id, e)[0] == (id, e)
    ensures forall i | 0 < i < |entries| :: Assign(entries, id, e)[i] == entries[i]
  {
    assert Assign(entries, id, e) == [(id, e)] + entries[1..];
  }

  lemma AssignPastHead(entries: seq<Entry>, id: string, e: Edge)
    requires entries != [] && entries[0].0 != id
    ensures Assign(entries, id, e)[0] == entries[0]
    ensures |Assign(entries, id, e)| == 1 + |Assign(entries[1..], id, e)|
    ensures forall i | 0 < i < |Assign(entries, id, e)| :: Assign(entries, id, e)[i] == Assign(entries[1..], id, e)[i - 1]
  {
    assert Assign(entries, id, e) == [entries[0]] + Assign(entries[1..], id, e);
  }

  /** Registering a fresh id appends its entry after all existing ones. */
  lemma {:induction false} RegisterFreshAppends(l: Ledger, id: string, e: Edge)
    requires id !in Ids(l)
    ensures Register(l, id, e) == l + [(id, e)]
  {
    AssignFresh(l, id, e);
  }

  lemma {:induction false} AssignFresh(entries: seq<Entry>, id: string, e: Edge)
    requires id !in Ids(entries)
    ensures Assign(entries, id, e) == entries + [(id, e)]
    decreases |entries|
  {
    if entries != [] {
      var tail := entries[1..];
      IdsSplit(entries);
      assert id != entries[0].0 && id !in Ids(tail);
      AssignFresh(tail, id, e);
      assert Assign(entries, id, e) == [entries[0]] + (tail + [(id, e)]);
      assert entries + [(id, e)] == [entries[0]] + (tail + [(id, e)]);
    }
  }
}
