/** The list of live connections (server.py, `active_connections`) and the
    three ways the hub changes it: appending on connect, the guarded
    `if c in conns: conns.remove(c)` used by disconnect cleanup and by
    broadcast pruning, and pruning a whole list of failed connections.

    A connection is an abstract number standing for `id(websocket)`. */
module Registry {

  type ConnId = nat

  /** No connection is registered twice. */
  predicate NoDup(r: seq<ConnId>) {
    forall i, j :: 0 <= i < j < |r| ==> r[i] != r[j]
  }

  /** Python's `list.remove`: drops the first occurrence of `c`. */
  function RemoveFirst(r: seq<ConnId>, c: ConnId): (r': seq<ConnId>)
    requires c in r
    ensures |r'| == |r| - 1
    ensures multiset(r') == multiset(r) - multiset{c}
  {
    assert r == [r[0]] + r[1..];
    if r[0] == c then r[1..] else [r[0]] + RemoveFirst(r[1..], c)
  }

  /** `list.remove` takes out the first occurrence of `c` and keeps every
      other element in its place and order. */
  lemma RemoveFirstSplits(r: seq<ConnId>, c: ConnId) returns (i: nat)
    requires c in r
    ensures i < |r| && r[i] == c && c !in r[..i]
    ensures RemoveFirst(r, c) == r[..i] + r[i + 1..]
  {
    i := 0;
    while r[i] != c
      invariant i < |r| && c in r[i..] && c !in r[..i]
      decreases |r| - i
    {
      assert r[i..] == [r[i]] + r[i + 1..];
      assert r[..i + 1] == r[..i] + [r[i]];
      i := i + 1;
    }
    RemoveFirstAt(r, c, i);
  }

  /** Removing the first occurrence, once its position is known. */
  lemma {:induction false} RemoveFirstAt(r: seq<ConnId>, c: ConnId, i: nat)
    requires i < |r| && r[i] == c && c !in r[..i]
    ensures RemoveFirst(r, c) == r[..i] + r[i + 1..]
    decreases i
  {
    if i > 0 {
      var t := r[1..];
      assert r[0] in r[..i];
      assert t[..i - 1] == r[1..i];
      RemoveFirstAt(t, c, i - 1);
      assert r[..i] == [r[0]] + t[..i - 1];
      assert r[i + 1..] == t[i..];
    }
  }

  /** The membership-guarded removal: a no-op when `c` is absent. */
  function Discard(r: seq<ConnId>, c: ConnId): (r': seq<ConnId>)
    ensures multiset(r') == multiset(r) - multiset{c}
  {
    if c in r then RemoveFirst(r, c) else r
  }

  /** The guarded removal of an absent connection returns the list as it was. */
  lemma DiscardAbsent(r: seq<ConnId>, c: ConnId)
    requires c !in r
    ensures Discard(r, c) == r
  {
  }

  /** Second phase of a broadcast: discard every collected connection in turn. */
  function Prune(r: seq<ConnId>, failed: seq<ConnId>): (r': seq<ConnId>)
    ensures multiset(r') <= multiset(r)
    decreases |failed|
  {
    if |failed| == 0 then r else Prune(Discard(r, failed[0]), failed[1..])
  }

  /** The connections of `r` whose send fails, in registry order (the list the
      first broadcast loop collects). */
  function Failures(r: seq<ConnId>, failing: set<ConnId>): (f: seq<ConnId>)
    ensures |f| + |Survivors(r, failing)| == |r|
  {
    if |r| == 0 then []
    else (if r[0] in failing then [r[0]] else []) + Failures(r[1..], failing)
  }

  /** The collected list names exactly the failing registered connections,
      each as often as it is registered. */
  lemma {:induction false} FailuresAreFailing(r: seq<ConnId>, failing: set<ConnId>)
    ensures forall c :: c in Failures(r, failing) <==> c in r && c in failing
    ensures forall c :: c in failing ==> multiset(Failures(r, failing))[c] == multiset(r)[c]
    ensures forall c :: c !in failing ==> multiset(Failures(r, failing))[c] == 0
    decreases |r|
  {
    if |r| > 0 {
      assert r == [r[0]] + r[1..];
      FailuresAreFailing(r[1..], failing);
    }
  }

  /** A connection that does not fail is never collected. */
  lemma {:induction false} FailuresSkip(r: seq<ConnId>, failing: set<ConnId>, x: ConnId)
    requires x !in failing
    ensures x !in Failures(r, failing)
    decreases |r|
  {
    if |r| > 0 {
      FailuresSkip(r[1..], failing, x);
    }
  }

  /** Unfolding `Failures` at position `i`, for loops that walk the registry. */
  lemma FailuresStep(r: seq<ConnId>, i: nat, failing: set<ConnId>)
    requires i < |r|
    ensures Failures(r[i..], failing) == (if r[i] in failing then [r[i]] else []) + Failures(r[i + 1..], failing)
    ensures Failures(r[|r|..], failing) == []
  {
  }

  /** Reference definition of the registry after pruning: `r` with every
      failing connection filtered out, everything else kept in order. */
  function Survivors(r: seq<ConnId>, failing: set<ConnId>): (s: seq<ConnId>)
  {
    if |r| == 0 then []
    else (if r[0] in failing then [] else [r[0]]) + Survivors(r[1..], failing)
  }

  /** A connection survives exactly when it was registered and did not fail;
      a survivor keeps every one of its registrations, a failing one none. */
  lemma {:induction false} SurvivorsMembers(r: seq<ConnId>, failing: set<ConnId>)
    ensures forall c :: c in Survivors(r, failing) <==> c in r && c !in failing
    ensures forall c :: c !in failing ==> multiset(Survivors(r, failing))[c] == multiset(r)[c]
    ensures forall c :: c in failing ==> multiset(Survivors(r, failing))[c] == 0
    decreases |r|
  {
    if |r| > 0 {
      assert r == [r[0]] + r[1..];
      SurvivorsMembers(r[1..], failing);
    }
  }

  /** `a` is `b` with some elements dropped and the rest in their order. */
  predicate Subsequence(a: seq<ConnId>, b: seq<ConnId>)
    decreases |b|
  {
    if |a| == 0 then true
    else if |b| == 0 then false
    else (a[0] == b[0] && Subsequence(a[1..], b[1..])) || Subsequence(a, b[1..])
  }

  /** Survivors keep their relative order. */
  lemma {:induction false} SurvivorsKeepOrder(r: seq<ConnId>, failing: set<ConnId>)
    ensures Subsequence(Survivors(r, failing), r)
    decreases |r|
  {
    if |r| > 0 {
      SurvivorsKeepOrder(r[1..], failing);
      var s := Survivors(r, failing);
      if r[0] !in failing {
        assert s[1..] == Survivors(r[1..], failing);
      } else {
        assert s == Survivors(r[1..], failing);
      }
    }
  }

  /** When nothing in `r` fails, filtering changes nothing. */
  lemma {:induction false} SurvivorsOfUntouched(r: seq<ConnId>, failing: set<ConnId>)
    requires forall c :: c in r ==> c !in failing
    ensures Survivors(r, failing) == r
    decreases |r|
  {
    if |r| > 0 {
      assert r == [r[0]] + r[1..];
      SurvivorsOfUntouched(r[1..], failing);
    }
  }

  lemma NoDupTail(r: seq<ConnId>)
    requires |r| > 0 && NoDup(r)
    ensures NoDup(r[1..]) && r[0] !in r[1..]
  {
  }

  lemma NoDupCons(x: ConnId, t: seq<ConnId>)
    requires x !in t && NoDup(t)
    ensures NoDup([x] + t)
  {
  }

  /** Filtering never introduces a duplicate. */
  lemma {:induction false} SurvivorsNoDup(r: seq<ConnId>, failing: set<ConnId>)
    requires NoDup(r)
    ensures NoDup(Survivors(r, failing))
    decreases |r|
  {
    if |r| > 0 {
      NoDupTail(r);
      SurvivorsNoDup(r[1..], failing);
      if r[0] !in failing {
        SurvivorsMembers(r[1..], failing);
        NoDupCons(r[0], Survivors(r[1..], failing));
      }
    }
  }

  /** Removing some connection other than the head leaves the head in place. */
  lemma DiscardSkipsHead(x: ConnId, t: seq<ConnId>, c: ConnId)
    requires c != x
    ensures Discard([x] + t, c) == [x] + Discard(t, c)
  {
  }

  /** Pruning a list that does not mention the head leaves the head in place. */
  lemma {:induction false} PruneSkipsHead(x: ConnId, t: seq<ConnId>, failed: seq<ConnId>)
    requires x !in failed
    ensures Prune([x] + t, failed) == [x] + Prune(t, failed)
    decreases |failed|
  {
    if |failed| > 0 {
      DiscardSkipsHead(x, t, failed[0]);
      PruneSkipsHead(x, Discard(t, failed[0]), failed[1..]);
    }
  }

  /** The two-phase prune of a broadcast removes exactly the failing
      connections and keeps everything else in order. No uniqueness of ids is
      needed: a connection registered twice fails twice and is removed twice. */
  lemma {:induction false} PruneFailuresIsSurvivors(r: seq<ConnId>, failing: set<ConnId>)
    ensures Prune(r, Failures(r, failing)) == Survivors(r, failing)
    decreases |r|
  {
    if |r| > 0 {
      var x, t := r[0], r[1..];
      assert r == [x] + t;
      PruneFailuresIsSurvivors(t, failing);
      if x in failing {
        PruneFailingHead(x, t, failing);
      } else {
        PruneKeptHead(x, t, failing);
      }
    }
  }

  /** A failing head is collected first, and its removal takes it off the front. */
  lemma PruneFailingHead(x: ConnId, t: seq<ConnId>, failing: set<ConnId>)
    requires x in failing
    ensures Prune([x] + t, Failures([x] + t, failing)) == Prune(t, Failures(t, failing))
  {
    var r, ft := [x] + t, Failures(t, failing);
    assert r[1..] == t;
    assert Failures(r, failing) == [x] + ft;
    assert Discard(r, x) == t;
    assert ([x] + ft)[1..] == ft;
  }

  /** A head that does not fail is never collected, so it stays in front. */
  lemma PruneKeptHead(x: ConnId, t: seq<ConnId>, failing: set<ConnId>)
    requires x !in failing
    ensures Prune([x] + t, Failures([x] + t, failing)) == [x] + Prune(t, Failures(t, failing))
  {
    assert ([x] + t)[1..] == t;
    assert Failures([x] + t, failing) == Failures(t, failing);
    FailuresSkip(t, failing, x);
    PruneSkipsHead(x, t, Failures(t, failing));
  }

  /** With unique ids, the guarded removal is filtering out one connection. */
  lemma {:induction false} DiscardIsSurvivors(r: seq<ConnId>, c: ConnId)
    requires NoDup(r)
    ensures Discard(r, c) == Survivors(r, {c})
    decreases |r|
  {
    if |r| > 0 {
      var x, t := r[0], r[1..];
      assert r == [x] + t;
      NoDupTail(r);
      if x == c {
        SurvivorsOfUntouched(t, {c});
      } else {
        DiscardIsSurvivors(t, c);
        DiscardSkipsHead(x, t, c);
      }
    }
  }

  /** Disconnect cleanup applied twice equals applying it once. */
  lemma DiscardIdempotent(r: seq<ConnId>, c: ConnId)
    requires NoDup(r)
    ensures c !in Discard(r, c)
    ensures Discard(Discard(r, c), c) == Discard(r, c)
    ensures NoDup(Discard(r, c))
  {
    DiscardIsSurvivors(r, c);
    SurvivorsMembers(r, {c});
    SurvivorsNoDup(r, {c});
  }

  /** Cleanup after a broadcast already pruned the connection is a no-op. */
  lemma DiscardAfterPrune(r: seq<ConnId>, failing: set<ConnId>, c: ConnId)
    requires c in failing
    ensures Discard(Prune(r, Failures(r, failing)), c) == Prune(r, Failures(r, failing))
  {
    PruneFailuresIsSurvivors(r, failing);
    SurvivorsMembers(r, failing);
  }

  /** Appending a fresh id keeps the registry free of duplicates, and removing
      it again restores the registry. */
  lemma AppendFresh(r: seq<ConnId>, c: ConnId)
    requires NoDup(r) && c !in r
    ensures NoDup(r + [c])
    ensures Discard(r + [c], c) == r
  {
    var r' := r + [c];
    forall i, j | 0 <= i < j < |r'|
      ensures r'[i] != r'[j]
    {
      if j == |r| {
        assert r'[i] == r[i];
      }
    }
    DiscardIsSurvivors(r', c);
    SurvivorsAppendFresh(r, c);
  }

  lemma {:induction false} SurvivorsAppendFresh(r: seq<ConnId>, c: ConnId)
    requires c !in r
    ensures Survivors(r + [c], {c}) == r
    decreases |r|
  {
    if |r| == 0 {
      assert r + [c] == [c];
    } else {
      assert (r + [c])[0] == r[0];
      assert (r + [c])[1..] == r[1..] + [c];
      SurvivorsAppendFresh(r[1..], c);
      assert r == [r[0]] + r[1..];
    }
  }

  /** Filtering twice is filtering once by the union. */
  lemma {:induction false} SurvivorsTwice(r: seq<ConnId>, a: set<ConnId>, b: set<ConnId>)
    ensures Survivors(Survivors(r, a), b) == Survivors(r, a + b)
    decreases |r|
  {
    if |r| > 0 {
      SurvivorsTwice(r[1..], a, b);
      var s := Survivors(r, a);
      if r[0] !in a {
        assert s[0] == r[0] && s[1..] == Survivors(r[1..], a);
        assert Survivors(s, b) == (if r[0] in b then [] else [r[0]]) + Survivors(s[1..], b);
      } else {
        assert s == Survivors(r[1..], a);
      }
      assert r[0] in a + b <==> r[0] in a || r[0] in b;
    }
  }
}
