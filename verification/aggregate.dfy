/** The flatten step of `trace_using_db` in fastqtd/auto_traceback.py: the
    stored trace paths of an account are merged into one sequence that holds
    each account once, in order of first appearance. */
module Aggregate {
  import opened Basics
  import opened Audit

  /** The paths laid end to end, in order. */
  function Concat(paths: seq<seq<string>>): seq<string>
    decreases |paths|
  {
    if paths == [] then [] else Concat(paths[..|paths| - 1]) + paths[|paths| - 1]
  }

  /** The elements of `s`, each kept at its first occurrence. */
  function Dedup(s: seq<string>): seq<string>
    decreases |s|
  {
    if s == [] then []
    else
      var d := Dedup(s[..|s| - 1]);
      if s[|s| - 1] in d then d else d + [s[|s| - 1]]
  }

  /** Position of the first occurrence of `x` in `s`, or `|s|` if absent. */
  function FirstIndex(s: seq<string>, x: string): (k: nat)
    ensures k <= |s|
    ensures k < |s| <==> x in s
    ensures k < |s| ==> s[k] == x && forall j | 0 <= j < k :: s[j] != x
    decreases |s|
  {
    if s == [] then 0 else if s[0] == x then 0 else 1 + FirstIndex(s[1..], x)
  }

  // ---------------------------------------------------------------------
  // What `Dedup` keeps.

  lemma DedupSnoc(s: seq<string>, x: string)
    ensures Dedup(s + [x]) == if x in Dedup(s) then Dedup(s) else Dedup(s) + [x]
  {
    assert (s + [x])[..|s|] == s;
  }

  /** Dedup keeps exactly the elements of its input. */
  lemma {:induction false} DedupElems(s: seq<string>)
    ensures forall x :: x in Dedup(s) <==> x in s
    decreases |s|
  {
    if s != [] {
      var init := s[..|s| - 1];
      DedupElems(init);
      assert s == init + [s[|s| - 1]];
    }
  }

  /** Dedup holds no element twice. */
  lemma {:induction false} DedupNoDup(s: seq<string>)
    ensures NoDup(Dedup(s))
    decreases |s|
  {
    if s != [] {
      DedupNoDup(s[..|s| - 1]);
    }
  }

  lemma FirstIndexSnoc(s: seq<string>, x: string, y: string)
    requires y in s
    ensures FirstIndex(s + [x], y) == FirstIndex(s, y)
  {
    var k := FirstIndex(s, y);
    var t := s + [x];
    assert t[k] == y;
    assert forall j | 0 <= j < k :: t[j] != y;
    FirstIndexUnique(t, y, k);
  }

  lemma FirstIndexUnique(s: seq<string>, x: string, k: nat)
    requires k < |s| && s[k] == x && forall j | 0 <= j < k :: s[j] != x
    ensures FirstIndex(s, x) == k
  {
    var m := FirstIndex(s, x);
    assert x in s;
    assert !(m < k) && !(k < m);
  }

  /** Dedup lists its elements in the order of their first occurrence. */
  lemma {:induction false} DedupFirstAppearance(s: seq<string>)
    ensures forall i, j | 0 <= i < j < |Dedup(s)| :: FirstIndex(s, Dedup(s)[i]) < FirstIndex(s, Dedup(s)[j])
    decreases |s|
  {
    if s != [] {
      var init := s[..|s| - 1];
      var x := s[|s| - 1];
      var d := Dedup(init);
      DedupFirstAppearance(init);
      DedupElems(init);
      assert s == init + [x];
      forall y | y in d ensures FirstIndex(s, y) == FirstIndex(init, y) {
        FirstIndexSnoc(init, x, y);
      }
      if x !in d {
        assert FirstIndex(s, x) == |init| by {
          FirstIndexUnique(s, x, |init|);
        }
        var e := d + [x];
        forall i, j | 0 <= i < j < |e| ensures FirstIndex(s, e[i]) < FirstIndex(s, e[j]) {
          assert e[i] in d;
          if j < |d| {
            assert e[j] in d;
          }
        }
      }
    }
  }

  /** Dedup of a concatenation starts with Dedup of the first part. */
  lemma {:induction false} DedupPrefix(a: seq<string>, b: seq<string>)
    ensures |Dedup(a)| <= |Dedup(a + b)|
    ensures Dedup(a + b)[..|Dedup(a)|] == Dedup(a)
    decreases |b|
  {
    if b == [] {
      assert a + b == a;
    } else {
      var b' := b[..|b| - 1];
      DedupPrefix(a, b');
      assert a + b == (a + b') + [b[|b| - 1]];
      DedupSnoc(a + b', b[|b| - 1]);
    }
  }

  /** A duplicate-free sequence is its own Dedup. */
  lemma {:induction false} DedupOfNoDup(s: seq<string>)
    requires NoDup(s)
    ensures Dedup(s) == s
    decreases |s|
  {
    if s != [] {
      var init := s[..|s| - 1];
      assert NoDup(init);
      DedupOfNoDup(init);
      DedupElems(init);
      assert s[|s| - 1] !in init by {
        forall i | 0 <= i < |init| ensures init[i] != s[|s| - 1] {
          assert s[i] != s[|s| - 1];
        }
      }
      assert s == init + [s[|s| - 1]];
    }
  }

  // ---------------------------------------------------------------------
  // Concatenation.

  lemma {:induction false} ConcatElems(paths: seq<seq<string>>)
    ensures forall x :: x in Concat(paths) <==> exists i | 0 <= i < |paths| :: x in paths[i]
    decreases |paths|
  {
    if paths != [] {
      var init := paths[..|paths| - 1];
      ConcatElems(init);
      forall x | x in Concat(paths) ensures exists i | 0 <= i < |paths| :: x in paths[i] {
        if x in Concat(init) {
          var i :| 0 <= i < |init| && x in init[i];
          assert paths[i] == init[i];
        }
      }
      forall x, i | 0 <= i < |paths| && x in paths[i] ensures x in Concat(paths) {
        if i < |init| {
          assert init[i] == paths[i];
        }
      }
    }
  }

  lemma {:induction false} ConcatCons(p: seq<string>, rest: seq<seq<string>>)
    ensures Concat([p] + rest) == p + Concat(rest)
    decreases |rest|
  {
    if rest != [] {
      var init := rest[..|rest| - 1];
      ConcatCons(p, init);
      assert ([p] + rest)[..|rest|] == [p] + init;
    } else {
      assert [p] + rest == [p];
      assert [p][..0] == [];
    }
  }

  // ---------------------------------------------------------------------
  // The loop.

  /** The result of `trace_using_db`: `{account, aggregated_paths, rows_used}`. */
  datatype DbTrace = DbTrace(account: string, aggregatedPaths: seq<string>, rowsUsed: nat)

  /** The nested `for p in aggregated: for a in p: if a not in flat` loop.
      The result has no duplicates, holds exactly the accounts of the input
      paths, and lists them by first appearance (path order, then position
      within the path). */
  method Flatten(paths: seq<seq<string>>) returns (flat: seq<string>)
    ensures flat == Dedup(Concat(paths))
    ensures NoDup(flat)
    ensures forall a :: a in flat <==> exists i | 0 <= i < |paths| :: a in paths[i]
    ensures forall i, j | 0 <= i < j < |flat| ::
      FirstIndex(Concat(paths), flat[i]) < FirstIndex(Concat(paths), flat[j])
  {
    flat := [];
    var i := 0;
    while i < |paths|
      invariant 0 <= i <= |paths|
      invariant flat == Dedup(Concat(paths[..i]))
    {
      var p := paths[i];
      var j := 0;
      assert Concat(paths[..i]) + p[..0] == Concat(paths[..i]);
      while j < |p|
        invariant 0 <= j <= |p|
        invariant flat == Dedup(Concat(paths[..i]) + p[..j])
      {
        DedupStep(Concat(paths[..i]), p, j);
        if p[j] !in flat {
          flat := flat + [p[j]];
        }
        j := j + 1;
      }
      ConcatStep(paths, i);
      i := i + 1;
    }
    assert paths[..i] == paths;
    FlattenSpec(paths);
  }

  /** One step of the inner loop. */
  lemma DedupStep(prefix: seq<string>, p: seq<string>, j: nat)
    requires j < |p|
    ensures Dedup(prefix + p[..j + 1])
      == if p[j] in Dedup(prefix + p[..j]) then Dedup(prefix + p[..j]) else Dedup(prefix + p[..j]) + [p[j]]
  {
    DedupSnoc(prefix + p[..j], p[j]);
    assert prefix + p[..j + 1] == (prefix + p[..j]) + [p[j]];
  }

  /** One step of the outer loop. */
  lemma ConcatStep(paths: seq<seq<string>>, i: nat)
    requires i < |paths|
    ensures Concat(paths[..i + 1]) == Concat(paths[..i]) + paths[i][..|paths[i]|]
  {
    assert paths[..i + 1][..i] == paths[..i];
    assert paths[i][..|paths[i]|] == paths[i];
  }

  /** What the flattened list of a sequence of paths is. */
  lemma FlattenSpec(paths: seq<seq<string>>)
    ensures NoDup(Dedup(Concat(paths)))
    ensures forall a :: a in Dedup(Concat(paths)) <==> exists i | 0 <= i < |paths| :: a in paths[i]
    ensures forall i, j | 0 <= i < j < |Dedup(Concat(paths))| ::
      FirstIndex(Concat(paths), Dedup(Concat(paths))[i]) < FirstIndex(Concat(paths), Dedup(Concat(paths))[j])
  {
    DedupNoDup(Concat(paths));
    DedupElems(Concat(paths));
    ConcatElems(paths);
    DedupFirstAppearance(Concat(paths));
  }

  /** `trace_using_db(account_id, max_hops)`: the stored paths of the
      account, newest first, flattened; `rows_used` is the number of rows.
      `max_hops` is accepted and ignored. */
  method TraceUsingDb(log: Log, account: string, maxHops: int := 4) returns (r: DbTrace)
    ensures r.account == account
    ensures r.rowsUsed == |TracesFor(log, account)|
    ensures NoDup(r.aggregatedPaths)
    ensures forall a :: a in r.aggregatedPaths <==>
      exists i | 0 <= i < |log| :: IsTraceOf(log[i], account) && a in log[i].path
    ensures r.aggregatedPaths == Dedup(Concat(TracesFor(log, account)))
  {
    var rows := TracesFor(log, account);
    var flat := Flatten(rows);
    TracesForExact(log, account);
    forall a ensures a in flat <==> exists i | 0 <= i < |log| :: IsTraceOf(log[i], account) && a in log[i].path {
      if a in flat {
        var k :| 0 <= k < |rows| && a in rows[k];
        assert rows[k] in rows;
        var i :| 0 <= i < |log| && IsTraceOf(log[i], account) && log[i].path == rows[k];
      }
      if exists i | 0 <= i < |log| :: IsTraceOf(log[i], account) && a in log[i].path {
        var i :| 0 <= i < |log| && IsTraceOf(log[i], account) && a in log[i].path;
        assert log[i].path in rows;
        var k :| 0 <= k < |rows| && rows[k] == log[i].path;
      }
    }
    r := DbTrace(account, flat, |rows|);
  }
}
