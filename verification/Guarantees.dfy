/** The guarantees over whole executions: every schedule, any number of runs, dry or real,
    fatal errors at any call. */
module Guarantees {
  import opened Client
  import opened Reconcile
  import opened Resources
  import opened Algebra
  import opened Machine
  import opened Confluence
  import opened Interleaving

  /** The system some schedule leads to. */
  ghost function Reached(env: Env, items: seq<Item>, origin: Store, modes: seq<bool>, schedule: seq<Event>): System {
    Exec(env, items, Start(origin, modes), schedule)
  }

  ghost predicate Reachable(env: Env, items: seq<Item>, origin: Store, s: Store) {
    exists modes, schedule :: Reached(env, items, origin, modes, schedule).store == s
  }

  // ----- every field initial or target, at every moment -----

  /** At every moment each named resource is as it was, freshly created, or has each of its fields
      at its initial or its target value; no other resource has changed. */
  lemma InitialOrTarget(env: Env, items: seq<Item>, origin: Store, s: Store)
    requires WellFormed(env, items) && Reachable(env, items, origin, s)
    ensures forall i :: 0 <= i < |items| ==>
              var k := KeyOf(env, items[i]);
              match Lookup(s, k)
              case None => Lookup(origin, k).None?
              case Some(r) => Midway(env, items[i], Lookup(origin, k), r)
    ensures forall k {:trigger Named(env, items, k)} :: !Named(env, items, k) ==> Lookup(s, k) == Lookup(origin, k)
  {
    var modes, schedule :| Reached(env, items, origin, modes, schedule).store == s;
    var slots := SlotsOf(env, items, origin);
    ExecKeeps(env, items, slots, origin, modes, schedule);
    forall i | 0 <= i < |items|
      ensures
        var k := KeyOf(env, items[i]);
        match Lookup(s, k)
        case None => Lookup(origin, k).None?
        case Some(r) => Midway(env, items[i], Lookup(origin, k), r)
    {
      assert SlotOnTheWay(slots[i], s);
    }
    forall k | !Named(env, items, k)
      ensures Lookup(s, k) == Lookup(origin, k)
    {
      forall i | 0 <= i < |slots|
        ensures slots[i].key != k
      {
        assert KeyOf(env, items[i]) != k;
      }
      assert !Covered(slots, k);
    }
  }

  // ----- confluence -----

  /** As soon as any real run has completed, the store is the target store, whatever the other
      runs have done, are doing or still hold in flight. */
  lemma ConcurrentRunsConverge(
    env: Env, items: seq<Item>, origin: Store, modes: seq<bool>, schedule: seq<Event>, i: nat)
    requires WellFormed(env, items)
    requires i < |modes|
    requires
      var run := Reached(env, items, origin, modes, schedule).runs[i];
      !run.dry && Complete(items, run)
    ensures Reached(env, items, origin, modes, schedule).store == TargetStore(env, items, origin)
  {
    var sys := Reached(env, items, origin, modes, schedule);
    var slots := SlotsOf(env, items, origin);
    ExecKeeps(env, items, slots, origin, modes, schedule);
    assert Behind(slots, sys.store, sys.runs[i]);
    assert Reachable(env, items, origin, sys.store);
    InitialOrTarget(env, items, origin, sys.store);
    TargetStoreLookup(env, items, origin);
    forall k
      ensures Lookup(sys.store, k) == Lookup(TargetStore(env, items, origin), k)
    {
      if Named(env, items, k) {
        var j :| 0 <= j < |items| && KeyOf(env, items[j]) == k;
        assert Arrived(slots[j], sys.store);
      }
    }
    SameLookups(sys.store, TargetStore(env, items, origin));
  }

  // ----- resumability -----

  /** Wherever a crowd of runs was stopped, reconciling from there has the same target store. */
  lemma TargetIsStable(env: Env, items: seq<Item>, origin: Store, s: Store)
    requires WellFormed(env, items) && Reachable(env, items, origin, s)
    ensures TargetStore(env, items, s) == TargetStore(env, items, origin)
  {
    InitialOrTarget(env, items, origin, s);
    TargetStoreLookup(env, items, origin);
    TargetStoreLookup(env, items, s);
    forall k
      ensures Lookup(TargetStore(env, items, s), k) == Lookup(TargetStore(env, items, origin), k)
    {
      if Named(env, items, k) {
        var j :| 0 <= j < |items| && KeyOf(env, items[j]) == k;
        if Lookup(s, k).Some? {
          TargetFromMidway(env, items[j], Lookup(origin, k), Lookup(s, k).value);
        }
      }
    }
    SameLookups(TargetStore(env, items, s), TargetStore(env, items, origin));
  }

  /** Runs cut off at any call, with or without effect, followed by any number of further runs:
      the first to complete leaves what one clean run would have left from the original store. */
  lemma InterruptedRunsResume(
    env: Env, items: seq<Item>, origin: Store,
    modes: seq<bool>, schedule: seq<Event>,
    modes': seq<bool>, schedule': seq<Event>, i: nat)
    requires WellFormed(env, items)
    requires i < |modes'|
    requires
      var middle := Reached(env, items, origin, modes, schedule).store;
      var run := Reached(env, items, middle, modes', schedule').runs[i];
      !run.dry && Complete(items, run)
    ensures
      var middle := Reached(env, items, origin, modes, schedule).store;
      Reached(env, items, middle, modes', schedule').store == TargetStore(env, items, origin)
  {
    var middle := Reached(env, items, origin, modes, schedule).store;
    assert Reachable(env, items, origin, middle);
    TargetIsStable(env, items, origin, middle);
    ConcurrentRunsConverge(env, items, middle, modes', schedule', i);
  }

  // ----- idempotence of the store -----

  lemma TargetStoreIdempotent(env: Env, items: seq<Item>, origin: Store)
    requires WellFormed(env, items)
    ensures TargetStore(env, items, TargetStore(env, items, origin)) == TargetStore(env, items, origin)
  {
    var t := TargetStore(env, items, origin);
    TargetStoreLookup(env, items, origin);
    TargetStoreLookup(env, items, t);
    forall k
      ensures Lookup(TargetStore(env, items, t), k) == Lookup(t, k)
    {
      if Named(env, items, k) {
        var j :| 0 <= j < |items| && KeyOf(env, items[j]) == k;
        TargetIdempotent(env, items[j], Lookup(origin, k));
      }
    }
    SameLookups(TargetStore(env, items, t), t);
  }

  /** Once converged, no interleaving of any runs, failing ones included, changes anything. */
  lemma ConvergedStoreIsFixed(env: Env, items: seq<Item>, origin: Store, s: Store)
    requires WellFormed(env, items)
    requires Reachable(env, items, TargetStore(env, items, origin), s)
    ensures s == TargetStore(env, items, origin)
  {
    var t := TargetStore(env, items, origin);
    InitialOrTarget(env, items, t, s);
    TargetStoreIdempotent(env, items, origin);
    TargetStoreLookup(env, items, t);
    forall k
      ensures Lookup(s, k) == Lookup(t, k)
    {
      if Named(env, items, k) {
        var j :| 0 <= j < |items| && KeyOf(env, items[j]) == k;
        var goal := Lookup(t, k).value;
        assert Target(env, items[j], Some(goal)) == goal;
        var r := Lookup(s, k).value;
        forall p
          ensures FieldEq(r, goal, p)
        {
          assert FieldEq(r, goal, p);
        }
        FieldsDetermine(r, goal);
      }
    }
    SameLookups(s, t);
  }

  // ----- failures and references -----

  /** A run fails only where a fault struck one of its own calls: the endpoint, strict or not,
      never answers a validated work list with an error of its own. */
  lemma {:induction false} OnlyFaultsFail(
    env: Env, items: seq<Item>, origin: Store, modes: seq<bool>, schedule: seq<Event>, i: nat)
    requires WellFormed(env, items)
    requires i < |modes| && Reached(env, items, origin, modes, schedule).runs[i].failed
    ensures exists n :: 0 <= n < |schedule| && schedule[n].who == i && !schedule[n].fault.NoFault?
  {
    if schedule != [] {
      var n := |schedule| - 1;
      var before := Reached(env, items, origin, modes, schedule[..n]);
      if before.runs[i].failed {
        OnlyFaultsFail(env, items, origin, modes, schedule[..n], i);
        var j :| 0 <= j < n && schedule[..n][j].who == i && !schedule[..n][j].fault.NoFault?;
        assert schedule[j].who == i && !schedule[j].fault.NoFault?;
      } else {
        var slots := SlotsOf(env, items, origin);
        ExecKeeps(env, items, slots, origin, modes, schedule[..n]);
        StepKeeps(env, items, slots, origin, before, schedule[n]);
        assert schedule[n].who == i && !schedule[n].fault.NoFault?;
      }
    }
  }

  /** Whatever call a run is about to make, the topics it refers to already exist. */
  lemma ReferencesExist(
    env: Env, items: seq<Item>, origin: Store, modes: seq<bool>, schedule: seq<Event>, i: nat)
    requires WellFormed(env, items) && i < |modes|
    requires Active(items, Reached(env, items, origin, modes, schedule).runs[i])
    ensures
      var sys := Reached(env, items, origin, modes, schedule);
      RefersToExisting(sys.store, RequestOf(env, items, sys.runs[i]))
  {
    var sys := Reached(env, items, origin, modes, schedule);
    var slots := SlotsOf(env, items, origin);
    ExecKeeps(env, items, slots, origin, modes, schedule);
    PendingRefersToExisting(env, items, slots, origin, sys.store, sys.runs[i]);
  }

  // ----- every run ends -----

  /** An upper bound on the calls a run still makes. */
  function CallsLeft(items: seq<Item>, run: Run): nat
    requires ProperPhase(items, run)
  {
    if !Active(items, run) then 0
    else
      11 * (|items| - run.idx - 1) +
      match run.phase
      case Reading => 11
      case Creating => 1
      case Batching(_, mask) => 1 + |mask|
      case Splitting(_, mask, pos) => |mask| - pos
  }

  lemma {:induction false} SelectIsShorter<T>(xs: seq<T>, keep: T -> bool)
    ensures |Select(xs, keep)| <= |xs|
  {
    if xs != [] {
      SelectIsShorter(xs[..|xs| - 1], keep);
    }
  }

  lemma AdvanceShrinks(env: Env, items: seq<Item>, s: Store, run: Run, f: Fault)
    requires ProperPhase(items, run) && Active(items, run)
    ensures CallsLeft(items, Advance(env, items, s, run, f).1) < CallsLeft(items, run)
  {
    var it := items[run.idx];
    if run.phase.Reading? {
      var o := Lookup(s, KeyOf(env, it));
      if o.Some? {
        SelectIsShorter(PathsOf(it), DriftTest(it, o.value));
      }
    }
  }

  function Turns(schedule: seq<Event>, i: nat): nat {
    if schedule == [] then 0
    else Turns(schedule[..|schedule| - 1], i) + if schedule[|schedule| - 1].who == i then 1 else 0
  }

  lemma {:induction false} TurnsExhaust(
    env: Env, items: seq<Item>, origin: Store, modes: seq<bool>, schedule: seq<Event>, i: nat)
    requires i < |modes|
    ensures
      var left := CallsLeft(items, Reached(env, items, origin, modes, schedule).runs[i]);
      left == 0 || left + Turns(schedule, i) <= 11 * |items|
  {
    if schedule != [] {
      var n := |schedule| - 1;
      TurnsExhaust(env, items, origin, modes, schedule[..n], i);
      var before := Reached(env, items, origin, modes, schedule[..n]);
      if schedule[n].who == i && Active(items, before.runs[i]) {
        AdvanceShrinks(env, items, before.store, before.runs[i], schedule[n].fault);
      }
    }
  }

  /** Total correctness of any fault-free interleaving: once every run has had 11 turns per entry,
      all have completed, and if any of them was real the store is the target store. */
  lemma FairRunsFinish(env: Env, items: seq<Item>, origin: Store, modes: seq<bool>, schedule: seq<Event>)
    requires WellFormed(env, items)
    requires forall n :: 0 <= n < |schedule| ==> schedule[n].fault.NoFault?
    requires forall i :: 0 <= i < |modes| ==> Turns(schedule, i) >= 11 * |items|
    ensures
      var sys := Reached(env, items, origin, modes, schedule);
      && (forall i :: 0 <= i < |modes| ==> Complete(items, sys.runs[i]))
      && (false in modes ==> sys.store == TargetStore(env, items, origin))
  {
    var sys := Reached(env, items, origin, modes, schedule);
    forall i | 0 <= i < |modes|
      ensures Complete(items, sys.runs[i])
    {
      TurnsExhaust(env, items, origin, modes, schedule, i);
      if sys.runs[i].failed {
        OnlyFaultsFail(env, items, origin, modes, schedule, i);
      }
    }
    if false in modes {
      var i :| 0 <= i < |modes| && !modes[i];
      ModesKept(env, items, origin, modes, schedule);
      ConcurrentRunsConverge(env, items, origin, modes, schedule, i);
    }
  }

  lemma {:induction false} ModesKept(
    env: Env, items: seq<Item>, origin: Store, modes: seq<bool>, schedule: seq<Event>)
    ensures forall i :: 0 <= i < |modes| ==> Reached(env, items, origin, modes, schedule).runs[i].dry == modes[i]
  {
    if schedule != [] {
      ModesKept(env, items, origin, modes, schedule[..|schedule| - 1]);
    }
  }
}
