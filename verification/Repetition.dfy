/** What a run still sends when an earlier one has done its work. */
module Repetition {
  import opened Client
  import opened Resources
  import opened Algebra
  import opened Machine
  import opened Guarantees
  import opened Trace

  /** An update of the entry's resource that names nothing but paths that recur, and at least one. */
  predicate RecursOnly(env: Env, it: Item, found: Option<Resource>, c: Call)
    requires found.Some? ==> Fits(it, found.value)
  {
    c.UpdateCall? && c.key == KeyOf(env, it) && c.mask != [] && forall p :: p in c.mask ==> Recurs(env, it, found, p)
  }

  lemma MaskAtTarget(env: Env, it: Item, found: Option<Resource>, p: Path)
    requires Sound(it) && !it.createOnly && (found.Some? ==> Fits(it, found.value))
    ensures p in Diff(it, Target(env, it, found)) <==> Recurs(env, it, found, p)
  {
    var t := Target(env, it, found);
    TargetDrift(env, it, found, p);
    DiffMembers(it, t);
    if Drifts(it, t, p) {
      AllPathsCovered(it, t, p);
    }
  }

  /** An entry is sent as a whole mask first, and only masks within it. */
  lemma CallsWithinMask(env: Env, it: Item, r: Resource)
    requires Fits(it, r) && !it.createOnly
    ensures
      var calls, mask := ItemCalls(env, it, Some(r)), Diff(it, r);
      && (forall i :: 0 <= i < |calls| ==>
            && calls[i].UpdateCall? && calls[i].key == KeyOf(env, it) && calls[i].mask != []
            && (forall p :: p in calls[i].mask ==> p in mask))
      && (mask != [] ==> calls != [] && calls[0].mask == mask)
  {
  }

  /** The calls an entry costs once it is at its target: every path that recurs, and no other. */
  lemma SecondItemCalls(env: Env, it: Item, found: Option<Resource>)
    requires Sound(it) && (found.Some? ==> Fits(it, found.value))
    ensures
      var calls := ItemCalls(env, it, Some(Target(env, it, found)));
      && (forall i :: 0 <= i < |calls| ==> RecursOnly(env, it, found, calls[i]))
      && (forall p :: Recurs(env, it, found, p) ==> calls != [] && p in calls[0].mask)
  {
    if !it.createOnly {
      CallsWithinMask(env, it, Target(env, it, found));
      forall p
        ensures p in Diff(it, Target(env, it, found)) <==> Recurs(env, it, found, p)
      {
        MaskAtTarget(env, it, found, p);
      }
    }
  }

  /** The calls the n-th entry costs in this store. */
  function CallsAt(env: Env, all: seq<Item>, s: Store, n: nat): seq<Call>
    requires n < |all|
  {
    ItemCalls(env, all[n], Lookup(s, KeyOf(env, all[n])))
  }

  lemma RunCallsStep(env: Env, all: seq<Item>, s: Store, n: nat)
    requires n < |all|
    ensures RunCalls(env, all[..n + 1], s) == RunCalls(env, all[..n], s) + CallsAt(env, all, s, n)
  {
    assert all[..n + 1][..n] == all[..n];
  }

  lemma SecondEntryCalls(env: Env, all: seq<Item>, origin: Store, n: nat)
    requires WellFormed(env, all) && n < |all|
    ensures
      var found, calls := Lookup(origin, KeyOf(env, all[n])), CallsAt(env, all, TargetStore(env, all, origin), n);
      && (forall i :: 0 <= i < |calls| ==> RecursOnly(env, all[n], found, calls[i]))
      && (forall p :: Recurs(env, all[n], found, p) ==> calls != [] && p in calls[0].mask)
  {
    TargetStoreLookup(env, all, origin);
    SecondItemCalls(env, all[n], Lookup(origin, KeyOf(env, all[n])));
  }

  /** The call is an update of some entry that names only paths recurring there. */
  ghost predicate Repeats(env: Env, items: seq<Item>, origin: Store, c: Call) {
    exists j :: 0 <= j < |items| && RecursOnly(env, items[j], Lookup(origin, KeyOf(env, items[j])), c)
  }

  /** Some update of the resource names the path. */
  predicate Sends(calls: seq<Call>, k: Key, p: Path) {
    exists i :: 0 <= i < |calls| && calls[i].UpdateCall? && calls[i].key == k && p in calls[i].mask
  }

  lemma SendsConcat(a: seq<Call>, b: seq<Call>, k: Key, p: Path)
    ensures Sends(a + b, k, p) <==> Sends(a, k, p) || Sends(b, k, p)
  {
    if Sends(a, k, p) {
      var i :| 0 <= i < |a| && a[i].UpdateCall? && a[i].key == k && p in a[i].mask;
      assert (a + b)[i] == a[i];
    }
    if Sends(b, k, p) {
      var i :| 0 <= i < |b| && b[i].UpdateCall? && b[i].key == k && p in b[i].mask;
      assert (a + b)[|a| + i] == b[i];
    }
  }

  /** A second run sends nothing but what recurs. */
  lemma {:induction false} SecondRunRepeats(env: Env, all: seq<Item>, origin: Store, n: nat)
    requires WellFormed(env, all) && n <= |all|
    ensures
      var calls := RunCalls(env, all[..n], TargetStore(env, all, origin));
      forall i :: 0 <= i < |calls| ==> Repeats(env, all, origin, calls[i])
  {
    if n > 0 {
      var once := TargetStore(env, all, origin);
      SecondRunRepeats(env, all, origin, n - 1);
      SecondEntryCalls(env, all, origin, n - 1);
      RunCallsStep(env, all, once, n - 1);
      var earlier, own := RunCalls(env, all[..n - 1], once), CallsAt(env, all, once, n - 1);
      forall i | 0 <= i < |earlier + own|
        ensures Repeats(env, all, origin, (earlier + own)[i])
      {
        if i >= |earlier| {
          assert RecursOnly(env, all[n - 1], Lookup(origin, KeyOf(env, all[n - 1])), own[i - |earlier|]);
        }
      }
    }
  }

  /** What one entry sends, the run sends. */
  lemma {:induction false} RunSends(env: Env, all: seq<Item>, s: Store, n: nat, j: nat, k: Key, p: Path)
    requires j < n <= |all| && Sends(CallsAt(env, all, s, j), k, p)
    ensures Sends(RunCalls(env, all[..n], s), k, p)
  {
    var earlier, own := RunCalls(env, all[..n - 1], s), CallsAt(env, all, s, n - 1);
    if j < n - 1 {
      RunSends(env, all, s, n - 1, j, k, p);
    }
    assert Sends(earlier, k, p) || Sends(own, k, p);
    SendsConcat(earlier, own, k, p);
    RunCallsStep(env, all, s, n - 1);
    assert RunCalls(env, all[..n], s) == earlier + own;
  }

  /** Every entry's recurring paths are among what it sends. */
  lemma EntrySends(env: Env, all: seq<Item>, origin: Store, j: nat, p: Path)
    requires WellFormed(env, all) && j < |all|
    requires Recurs(env, all[j], Lookup(origin, KeyOf(env, all[j])), p)
    ensures Sends(CallsAt(env, all, TargetStore(env, all, origin), j), KeyOf(env, all[j]), p)
  {
    SecondEntryCalls(env, all, origin, j);
    var calls := CallsAt(env, all, TargetStore(env, all, origin), j);
    assert RecursOnly(env, all[j], Lookup(origin, KeyOf(env, all[j])), calls[0]);
  }

  /** Exactly the recurring paths are sent again. */
  lemma SentAgain(env: Env, items: seq<Item>, origin: Store, calls: seq<Call>, j: nat, p: Path)
    requires WellFormed(env, items) && j < |items| && calls == RunCalls(env, items, TargetStore(env, items, origin))
    ensures Sends(calls, KeyOf(env, items[j]), p) <==> Recurs(env, items[j], Lookup(origin, KeyOf(env, items[j])), p)
  {
    assert items[..|items|] == items;
    if Recurs(env, items[j], Lookup(origin, KeyOf(env, items[j])), p) {
      EntrySends(env, items, origin, j, p);
      RunSends(env, items, TargetStore(env, items, origin), |items|, j, KeyOf(env, items[j]), p);
    }
    SecondRunRepeats(env, items, origin, |items|);
    OnlyRecurringSent(env, items, origin, calls, j, p);
  }

  lemma OnlyRecurringSent(env: Env, items: seq<Item>, origin: Store, calls: seq<Call>, j: nat, p: Path)
    requires DistinctKeys(env, items) && j < |items|
    requires forall i :: 0 <= i < |calls| ==> Repeats(env, items, origin, calls[i])
    ensures Sends(calls, KeyOf(env, items[j]), p) ==> Recurs(env, items[j], Lookup(origin, KeyOf(env, items[j])), p)
  {
    var k := KeyOf(env, items[j]);
    if Sends(calls, k, p) {
      var i :| 0 <= i < |calls| && calls[i].UpdateCall? && calls[i].key == k && p in calls[i].mask;
      RepeatedPathRecurs(env, items, origin, calls[i], j, p);
    }
  }

  lemma RepeatedPathRecurs(env: Env, items: seq<Item>, origin: Store, c: Call, j: nat, p: Path)
    requires DistinctKeys(env, items) && j < |items| && Repeats(env, items, origin, c)
    requires c.key == KeyOf(env, items[j]) && c.UpdateCall? && p in c.mask
    ensures Recurs(env, items[j], Lookup(origin, c.key), p)
  {
    var n :| 0 <= n < |items| && RecursOnly(env, items[n], Lookup(origin, KeyOf(env, items[n])), c);
    assert n == j;
  }

  /** An update that names nothing but refused paths, and at least one. */
  predicate OnlyRefused(env: Env, c: Call) {
    c.UpdateCall? && c.mask != [] && forall p :: p in c.mask ==> p in RefusedKey(env, c.key)
  }

  predicate NothingStuck(env: Env, items: seq<Item>) {
    forall j :: 0 <= j < |items| ==> forall p :: p in PathsOf(items[j]) ==> !Stuck(env, items[j], p)
  }

  lemma RepeatedCall(env: Env, items: seq<Item>, origin: Store, c: Call)
    requires Repeats(env, items, origin, c)
    ensures env.defaults.None? ==> OnlyRefused(env, c)
    ensures !NothingStuck(env, items)
  {
    var j :| 0 <= j < |items| && RecursOnly(env, items[j], Lookup(origin, KeyOf(env, items[j])), c);
    var it, found, p := items[j], Lookup(origin, KeyOf(env, items[j])), c.mask[0];
    assert Recurs(env, it, found, p);
    if found.Some? {
      AllPathsCovered(it, found.value, p);
    } else {
      EveryOtherPathIsASubPath(p);
    }
    assert p in PathsOf(it) && Stuck(env, it, p);
  }

  /** Whole-config idempotence: after a clean run the store is a fixed point of every further one, and
      a further run sends exactly the paths that recur: only refused ones where no default gets in,
      and no mutating call at all where nothing is stuck. */
  lemma SecondRunIsIdle(env: Env, items: seq<Item>, origin: Store, faults: seq<Fault>)
    requires WellFormed(env, items) && Quiet(faults) && |faults| >= 11 * |items|
    ensures
      var once := TargetStore(env, items, origin);
      var calls := SoloTrace(env, items, once, StartRun(false), faults);
      && Solo(env, items, once, StartRun(false), faults).0 == once
      && (forall j, p :: 0 <= j < |items| ==>
            (Sends(calls, KeyOf(env, items[j]), p) <==>
             Recurs(env, items[j], Lookup(origin, KeyOf(env, items[j])), p)))
      && (env.defaults.None? ==> forall i :: 0 <= i < |calls| ==> OnlyRefused(env, calls[i]))
      && (NothingStuck(env, items) ==> calls == [])
  {
    var once := TargetStore(env, items, origin);
    QuietRunCompletes(env, items, once, false, faults);
    CompletedRun(env, items, once, faults);
    TargetStoreIdempotent(env, items, origin);
    SecondRunRepeats(env, items, origin, |items|);
    assert items[..|items|] == items;
    var calls := RunCalls(env, items, once);
    forall i | 0 <= i < |calls|
      ensures (env.defaults.None? ==> OnlyRefused(env, calls[i])) && !NothingStuck(env, items)
    {
      RepeatedCall(env, items, origin, calls[i]);
    }
    if calls != [] {
      assert Repeats(env, items, origin, calls[0]);
    }
    forall j, p | 0 <= j < |items|
      ensures Sends(calls, KeyOf(env, items[j]), p) <==>
              Recurs(env, items[j], Lookup(origin, KeyOf(env, items[j])), p)
    {
      SentAgain(env, items, origin, calls, j, p);
    }
  }

  // ----- any number of runs -----

  /** The store after quiet runs, one after the other. */
  function AfterRuns(env: Env, items: seq<Item>, s: Store, runs: seq<seq<Fault>>): Store {
    if runs == [] then s
    else
      var n := |runs| - 1;
      Solo(env, items, AfterRuns(env, items, s, runs[..n]), StartRun(false), runs[n]).0
  }

  predicate LongEnough(items: seq<Item>, runs: seq<seq<Fault>>) {
    forall i :: 0 <= i < |runs| ==> Quiet(runs[i]) && |runs[i]| >= 11 * |items|
  }

  /** However many runs there were, the store is the target store of the first. */
  lemma {:induction false} AfterRunsIsTarget(env: Env, items: seq<Item>, s: Store, runs: seq<seq<Fault>>)
    requires WellFormed(env, items) && runs != [] && LongEnough(items, runs)
    ensures AfterRuns(env, items, s, runs) == TargetStore(env, items, s)
  {
    var n := |runs| - 1;
    var before := AfterRuns(env, items, s, runs[..n]);
    assert Quiet(runs[n]) && |runs[n]| >= 11 * |items|;
    QuietRunCompletes(env, items, before, false, runs[n]);
    CompletedRun(env, items, before, runs[n]);
    if n > 0 {
      assert LongEnough(items, runs[..n]) by {
        assert forall i :: 0 <= i < n ==> runs[..n][i] == runs[i];
      }
      AfterRunsIsTarget(env, items, s, runs[..n]);
      TargetStoreIdempotent(env, items, s);
    }
  }
}
