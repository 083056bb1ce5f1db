/** One run on its own: the exact calls it makes, and what a dry run previews. */
module Trace {
  import opened Client
  import opened Reconcile
  import opened Resources
  import opened Machine
  import opened Interleaving
  import opened Guarantees

  /** A mutating call, as the log names it. */
  datatype Call = CreateCall(key: Key) | UpdateCall(key: Key, mask: seq<Path>)

  function CallsOf(req: Request): seq<Call> {
    match req
    case GetReq(_) => []
    case CreateReq(k, _) => [CreateCall(k)]
    case UpdateReq(k, _, mask) => [UpdateCall(k, mask)]
  }

  /** What a dry run announces for an entry found in this state. */
  function PreviewOf(env: Env, it: Item, found: Option<Resource>): seq<Call>
    requires found.Some? ==> Fits(it, found.value)
  {
    var k := KeyOf(env, it);
    match found
    case None => [CreateCall(k)]
    case Some(r) => if it.createOnly || Diff(it, r) == [] then [] else [UpdateCall(k, Diff(it, r))]
  }

  /** What the next step of a run adds to its record: a mutating call, or in a dry run, if the read
      is answered, a preview. */
  function Emit(env: Env, items: seq<Item>, s: Store, run: Run, f: Fault): seq<Call>
    requires ProperPhase(items, run)
  {
    if !Active(items, run) then []
    else if run.dry then
      if f.NoFault? then PreviewOf(env, items[run.idx], Lookup(s, KeyOf(env, items[run.idx]))) else []
    else CallsOf(RequestOf(env, items, run))
  }

  // ----- one run, call by call -----

  /** The store and the run after one step per fault listed. */
  function Solo(env: Env, items: seq<Item>, s: Store, run: Run, faults: seq<Fault>): (r: (Store, Run))
    requires ProperPhase(items, run)
    ensures ProperPhase(items, r.1)
  {
    if faults == [] then (s, run)
    else
      var before := Solo(env, items, s, run, faults[..|faults| - 1]);
      Advance(env, items, before.0, before.1, faults[|faults| - 1])
  }

  function SoloTrace(env: Env, items: seq<Item>, s: Store, run: Run, faults: seq<Fault>): seq<Call>
    requires ProperPhase(items, run)
  {
    if faults == [] then []
    else
      var before := Solo(env, items, s, run, faults[..|faults| - 1]);
      SoloTrace(env, items, s, run, faults[..|faults| - 1]) + Emit(env, items, before.0, before.1, faults[|faults| - 1])
  }

  function Alone(faults: seq<Fault>): seq<Event> {
    seq(|faults|, i requires 0 <= i < |faults| => Event(0, faults[i]))
  }

  /** A run on its own is the interleaving of one. */
  lemma {:induction false} SoloIsExec(env: Env, items: seq<Item>, s: Store, dry: bool, faults: seq<Fault>)
    ensures
      var r := Solo(env, items, s, StartRun(dry), faults);
      Reached(env, items, s, [dry], Alone(faults)) == System(r.0, [r.1])
  {
    if faults != [] {
      var n := |faults| - 1;
      SoloIsExec(env, items, s, dry, faults[..n]);
      assert Alone(faults)[..n] == Alone(faults[..n]);
    }
  }

  predicate Quiet(faults: seq<Fault>) {
    forall i :: 0 <= i < |faults| ==> faults[i].NoFault?
  }

  // ----- what a clean run sends -----

  function Singles(k: Key, mask: seq<Path>): seq<Call> {
    seq(|mask|, i requires 0 <= i < |mask| => UpdateCall(k, [mask[i]]))
  }

  /** The calls one entry costs: nothing, one create, the whole mask, or the mask and then each path. */
  function ItemCalls(env: Env, it: Item, found: Option<Resource>): seq<Call>
    requires found.Some? ==> Fits(it, found.value)
  {
    var k := KeyOf(env, it);
    match found
    case None => [CreateCall(k)]
    case Some(r) =>
      var mask := Diff(it, r);
      if it.createOnly || mask == [] then []
      else if |mask| > 1 && AnyRefused(env, KeyOf(env, it), mask) then [UpdateCall(k, mask)] + Singles(k, mask)
      else [UpdateCall(k, mask)]
  }

  /** The calls of a whole run, all read off the store it started from. */
  function RunCalls(env: Env, items: seq<Item>, s: Store): seq<Call> {
    if items == [] then []
    else
      var it := items[|items| - 1];
      RunCalls(env, items[..|items| - 1], s) + ItemCalls(env, it, Lookup(s, KeyOf(env, it)))
  }

  function Previews(env: Env, items: seq<Item>, s: Store): seq<Call> {
    if items == [] then []
    else
      var it := items[|items| - 1];
      Previews(env, items[..|items| - 1], s) + PreviewOf(env, it, Lookup(s, KeyOf(env, it)))
  }

  lemma ApplyNothing(r: Resource, m: Resource)
    requires SameKind(r, m)
    ensures Apply(r, m, []) == r
  {
  }

  lemma ApplyMore(r: Resource, m: Resource, mask: seq<Path>, p: Path)
    requires SameKind(r, m)
    ensures Apply(Apply(r, m, mask), m, [p]) == Apply(r, m, mask + [p])
  {
  }

  lemma PutSame(s: Store, k: Key, r: Resource)
    requires Lookup(s, k) == Some(r)
    ensures Put(s, k, r) == s
  {
  }

  lemma PutTwice(s: Store, k: Key, a: Resource, b: Resource)
    requires KindOfKey(k, a) && KindOfKey(k, b)
    ensures Put(Put(s, k, a), k, b) == Put(s, k, b)
  {
  }

  lemma NotNamedBefore(env: Env, items: seq<Item>, n: nat)
    requires DistinctKeys(env, items) && n < |items|
    ensures !Named(env, items[..n], KeyOf(env, items[n]))
  {
  }

  /** Earlier entries have not touched the resource the run is about to look at. */
  lemma NextIsUntouched(env: Env, items: seq<Item>, origin: Store, n: nat)
    requires DistinctKeys(env, items) && n < |items|
    ensures
      var k := KeyOf(env, items[n]);
      Lookup(TargetStore(env, items[..n], origin), k) == Lookup(origin, k)
  {
    TargetStoreLookup(env, items[..n], origin);
    NotNamedBefore(env, items, n);
  }

  /** Where a clean run stands: the part behind it is done exactly, the part ahead untouched. */
  ghost predicate CleanAt(env: Env, items: seq<Item>, origin: Store, s: Store, run: Run, trace: seq<Call>) {
    && !run.dry && !run.failed && run.idx <= |items| && ProperPhase(items, run)
    && var base, done := TargetStore(env, items[..run.idx], origin), RunCalls(env, items[..run.idx], origin);
    match run.phase
    case Reading => s == base && trace == done
    case Creating =>
      s == base && trace == done && Lookup(origin, KeyOf(env, items[run.idx])).None?
    case Batching(m, mask) =>
      s == base && trace == done && Planned(env, items[run.idx], origin, m, mask)
    case Splitting(m, mask, pos) =>
      var it, k := items[run.idx], KeyOf(env, items[run.idx]);
      && Planned(env, it, origin, m, mask)
      && |mask| > 1 && AnyRefused(env, KeyOf(env, it), mask)
      && s == Put(base, k, Apply(Lookup(origin, k).value, Stored(env, m), Accepted(env, it, mask[..pos])))
      && trace == done + [UpdateCall(k, mask)] + Singles(k, mask[..pos])
  }

  ghost predicate Planned(env: Env, it: Item, origin: Store, m: Resource, mask: seq<Path>) {
    var found := Lookup(origin, KeyOf(env, it));
    found.Some? && !it.createOnly && m == Payload(env, it, found.value) && mask == Diff(it, found.value) && mask != []
  }

  /** The bookkeeping when an entry is finished. */
  lemma EntryDone(env: Env, items: seq<Item>, origin: Store, s: Store, run: Run, trace: seq<Call>)
    requires DistinctKeys(env, items)
    requires !run.dry && !run.failed && run.idx < |items|
    requires
      var it := items[run.idx];
      var found := Lookup(origin, KeyOf(env, it));
      && s == Put(TargetStore(env, items[..run.idx], origin), KeyOf(env, it), Target(env, it, found))
      && trace == RunCalls(env, items[..run.idx], origin) + ItemCalls(env, it, found)
    ensures CleanAt(env, items, origin, s, NextItem(run), trace)
  {
    assert items[..run.idx + 1][..run.idx] == items[..run.idx];
  }

  lemma CleanRead(env: Env, items: seq<Item>, origin: Store, s: Store, run: Run, trace: seq<Call>)
    requires DistinctKeys(env, items) && CleanAt(env, items, origin, s, run, trace)
    requires Active(items, run) && run.phase.Reading?
    ensures
      var (s', run') := Advance(env, items, s, run, NoFault);
      CleanAt(env, items, origin, s', run', trace + Emit(env, items, s, run, NoFault))
  {
    var it := items[run.idx];
    var k := KeyOf(env, it);
    NextIsUntouched(env, items, origin, run.idx);
    assert trace + Emit(env, items, s, run, NoFault) == trace;
    match Lookup(s, k) {
      case None =>
      case Some(r) =>
        if it.createOnly || Diff(it, r) == [] {
          ApplyNothing(r, Written(env, it, r));
          PutSame(s, k, r);
          assert trace + [] == trace;
          EntryDone(env, items, origin, s, run, trace);
        }
    }
  }

  lemma CleanCreate(env: Env, items: seq<Item>, origin: Store, s: Store, run: Run, trace: seq<Call>)
    requires DistinctKeys(env, items) && CleanAt(env, items, origin, s, run, trace)
    requires Active(items, run) && run.phase.Creating?
    requires RefersToExisting(s, RequestOf(env, items, run))
    ensures
      var (s', run') := Advance(env, items, s, run, NoFault);
      CleanAt(env, items, origin, s', run', trace + Emit(env, items, s, run, NoFault))
  {
    NextIsUntouched(env, items, origin, run.idx);
    var (s', _) := Advance(env, items, s, run, NoFault);
    EntryDone(env, items, origin, s', run, trace + Emit(env, items, s, run, NoFault));
  }

  lemma NothingAccepted(env: Env, it: Item)
    ensures Accepted(env, it, []) == []
  {
  }

  lemma CleanBatchRefused(env: Env, items: seq<Item>, origin: Store, s: Store, run: Run, trace: seq<Call>)
    requires DistinctKeys(env, items) && CleanAt(env, items, origin, s, run, trace)
    requires Active(items, run) && run.phase.Batching? && AnyRefused(env, KeyOf(env, items[run.idx]), run.phase.mask)
    ensures
      var (s', run') := Advance(env, items, s, run, NoFault);
      CleanAt(env, items, origin, s', run', trace + Emit(env, items, s, run, NoFault))
  {
    var mask := run.phase.mask;
    var trace' := trace + [UpdateCall(KeyOf(env, items[run.idx]), mask)];
    assert AnyRefused(env, KeyOf(env, items[run.idx]), run.phase.mask);
    AdvanceBatch(env, items, s, run);
    if |mask| == 1 {
      RefusedAlone(env, items, origin, s, run, trace);
      EntryDone(env, items, origin, s, run, trace');
    } else {
      RefusedBatch(env, items, origin, s, run, trace);
    }
  }

  /** A mask of one refused path ends the entry where it was. */
  lemma RefusedAlone(env: Env, items: seq<Item>, origin: Store, s: Store, run: Run, trace: seq<Call>)
    requires DistinctKeys(env, items) && CleanAt(env, items, origin, s, run, trace)
    requires Active(items, run) && run.phase.Batching? && AnyRefused(env, KeyOf(env, items[run.idx]), run.phase.mask)
    requires |run.phase.mask| == 1
    ensures
      var it := items[run.idx];
      var found := Lookup(origin, KeyOf(env, it));
      && s == Put(TargetStore(env, items[..run.idx], origin), KeyOf(env, it), Target(env, it, found))
      && trace + [UpdateCall(KeyOf(env, it), run.phase.mask)]
         == RunCalls(env, items[..run.idx], origin) + ItemCalls(env, it, found)
  {
    var it := items[run.idx];
    var k := KeyOf(env, it);
    var r := Lookup(origin, k).value;
    NextIsUntouched(env, items, origin, run.idx);
    RefusedTarget(env, it, r);
    PutSame(s, k, r);
  }

  lemma RefusedTarget(env: Env, it: Item, r: Resource)
    requires Fits(it, r) && |Diff(it, r)| == 1 && AnyRefused(env, KeyOf(env, it), Diff(it, r)) && !it.createOnly
    ensures Target(env, it, Some(r)) == r
    ensures ItemCalls(env, it, Some(r)) == [UpdateCall(KeyOf(env, it), Diff(it, r))]
  {
    SelectNone(Diff(it, r), AcceptedTest(env, it));
    ApplyNothing(r, Written(env, it, r));
  }

  /** A longer refused mask is taken up again path by path, from its first. */
  lemma RefusedBatch(env: Env, items: seq<Item>, origin: Store, s: Store, run: Run, trace: seq<Call>)
    requires DistinctKeys(env, items) && CleanAt(env, items, origin, s, run, trace)
    requires Active(items, run) && run.phase.Batching? && AnyRefused(env, KeyOf(env, items[run.idx]), run.phase.mask)
    requires |run.phase.mask| > 1
    ensures CleanAt(env, items, origin, s, run.(phase := Splitting(run.phase.message, run.phase.mask, 0)),
                    trace + [UpdateCall(KeyOf(env, items[run.idx]), run.phase.mask)])
  {
    var it, m, mask := items[run.idx], run.phase.message, run.phase.mask;
    var k := KeyOf(env, it);
    var r := Lookup(origin, k).value;
    var trace' := trace + [UpdateCall(k, mask)];
    NextIsUntouched(env, items, origin, run.idx);
    NothingAccepted(env, it);
    ApplyNothing(r, Stored(env, m));
    PutSame(s, k, r);
    assert mask[..0] == [];
    assert trace' + Singles(k, []) == trace';
  }

  lemma CleanBatch(env: Env, items: seq<Item>, origin: Store, s: Store, run: Run, trace: seq<Call>)
    requires DistinctKeys(env, items) && CleanAt(env, items, origin, s, run, trace)
    requires Active(items, run) && run.phase.Batching?
    requires RefersToExisting(s, RequestOf(env, items, run))
    ensures
      var (s', run') := Advance(env, items, s, run, NoFault);
      CleanAt(env, items, origin, s', run', trace + Emit(env, items, s, run, NoFault))
  {
    var it, m, mask := items[run.idx], run.phase.message, run.phase.mask;
    var k := KeyOf(env, it);
    var r := Lookup(origin, k).value;
    var trace' := trace + Emit(env, items, s, run, NoFault);
    NextIsUntouched(env, items, origin, run.idx);
    AdvanceBatch(env, items, s, run);
    if AnyRefused(env, KeyOf(env, it), mask) {
      CleanBatchRefused(env, items, origin, s, run, trace);
    } else {
      assert !AnyRefused(env, KeyOf(env, items[run.idx]), run.phase.mask);
      SelectAll(mask, AcceptedTest(env, it));
      EntryDone(env, items, origin, Put(s, k, Apply(r, Stored(env, m), mask)), run, trace');
    }
  }

  /** The record grows by one single-path update. */
  lemma SinglesGrow(done: seq<Call>, k: Key, mask: seq<Path>, pos: nat)
    requires pos < |mask|
    ensures done + [UpdateCall(k, mask)] + Singles(k, mask[..pos]) + [UpdateCall(k, [mask[pos]])]
            == done + [UpdateCall(k, mask)] + Singles(k, mask[..pos + 1])
    ensures pos + 1 == |mask| ==>
              done + [UpdateCall(k, mask)] + Singles(k, mask[..pos + 1])
              == done + ([UpdateCall(k, mask)] + Singles(k, mask))
  {
  }

  /** The store moves by the path just sent, if the endpoint took it. */
  lemma SplitStore(env: Env, items: seq<Item>, origin: Store, s: Store, run: Run, trace: seq<Call>)
    requires DistinctKeys(env, items) && CleanAt(env, items, origin, s, run, trace)
    requires Active(items, run) && run.phase.Splitting?
    requires RefersToExisting(s, RequestOf(env, items, run))
    ensures
      var it, m, mask, pos := items[run.idx], run.phase.message, run.phase.mask, run.phase.pos;
      var k := KeyOf(env, it);
      var base := TargetStore(env, items[..run.idx], origin);
      Advance(env, items, s, run, NoFault) ==
      (Put(base, k, Apply(Lookup(origin, k).value, Stored(env, m), Accepted(env, it, mask[..pos + 1]))),
       PastPath(run, m, mask, pos + 1))
  {
    var it, m, mask, pos := items[run.idx], run.phase.message, run.phase.mask, run.phase.pos;
    var k, p := KeyOf(env, it), mask[pos];
    var r := Lookup(origin, k).value;
    var sent := Accepted(env, it, mask[..pos]);
    AdvanceSplit(env, items, s, run);
    SelectStep(mask, AcceptedTest(env, it), pos);
    var req := RequestOf(env, items, run);
    assert req.mask[0] == p;
    if p in Refused(env, it) {
      assert AnyRefused(env, req.key, req.mask);
      assert sent + [] == sent;
    } else {
      assert !AnyRefused(env, req.key, req.mask);
      ApplyMore(r, Stored(env, m), sent, p);
      PutTwice(TargetStore(env, items[..run.idx], origin), k, Apply(r, Stored(env, m), sent), Apply(r, Stored(env, m), sent + [p]));
    }
  }

  lemma CleanSplit(env: Env, items: seq<Item>, origin: Store, s: Store, run: Run, trace: seq<Call>)
    requires DistinctKeys(env, items) && CleanAt(env, items, origin, s, run, trace)
    requires Active(items, run) && run.phase.Splitting?
    requires RefersToExisting(s, RequestOf(env, items, run))
    ensures
      var (s', run') := Advance(env, items, s, run, NoFault);
      CleanAt(env, items, origin, s', run', trace + Emit(env, items, s, run, NoFault))
  {
    var mask, pos := run.phase.mask, run.phase.pos;
    SplitStore(env, items, origin, s, run, trace);
    SinglesGrow(RunCalls(env, items[..run.idx], origin), KeyOf(env, items[run.idx]), mask, pos);
    if pos + 1 == |mask| {
      assert mask[..pos + 1] == mask;
      var (s', _) := Advance(env, items, s, run, NoFault);
      EntryDone(env, items, origin, s', run, trace + Emit(env, items, s, run, NoFault));
    }
  }

  lemma CleanStep(env: Env, items: seq<Item>, origin: Store, s: Store, run: Run, trace: seq<Call>)
    requires DistinctKeys(env, items) && CleanAt(env, items, origin, s, run, trace) && Active(items, run)
    requires RefersToExisting(s, RequestOf(env, items, run))
    ensures
      var (s', run') := Advance(env, items, s, run, NoFault);
      CleanAt(env, items, origin, s', run', trace + Emit(env, items, s, run, NoFault))
  {
    match run.phase
    case Reading => CleanRead(env, items, origin, s, run, trace);
    case Creating => CleanCreate(env, items, origin, s, run, trace);
    case Batching(_, _) => CleanBatch(env, items, origin, s, run, trace);
    case Splitting(_, _, _) => CleanSplit(env, items, origin, s, run, trace);
  }

  /** A run on its own that has not failed has followed the plan exactly, call by call. */
  lemma {:induction false} RunFollowsPlan(env: Env, items: seq<Item>, origin: Store, faults: seq<Fault>)
    requires WellFormed(env, items) && !Solo(env, items, origin, StartRun(false), faults).1.failed
    ensures
      var (s, run) := Solo(env, items, origin, StartRun(false), faults);
      CleanAt(env, items, origin, s, run, SoloTrace(env, items, origin, StartRun(false), faults))
  {
    if faults == [] {
      assert items[..0] == [];
    } else {
      var n := |faults| - 1;
      var (s, run) := Solo(env, items, origin, StartRun(false), faults[..n]);
      var trace := SoloTrace(env, items, origin, StartRun(false), faults[..n]);
      RunFollowsPlan(env, items, origin, faults[..n]);
      if Active(items, run) {
        SoloIsExec(env, items, origin, false, faults[..n]);
        ReferencesExist(env, items, origin, [false], Alone(faults[..n]), 0);
        if !faults[n].NoFault? {
          FaultyStep(env, items, s, run, faults[n]);
        }
        CleanStep(env, items, origin, s, run, trace);
      } else {
        assert trace + [] == trace;
      }
    }
  }

  /** Without faults a run on its own does not fail. */
  lemma QuietRunSucceeds(env: Env, items: seq<Item>, origin: Store, dry: bool, faults: seq<Fault>)
    requires WellFormed(env, items) && Solo(env, items, origin, StartRun(dry), faults).1.failed
    ensures !Quiet(faults)
  {
    SoloIsExec(env, items, origin, dry, faults);
    OnlyFaultsFail(env, items, origin, [dry], Alone(faults), 0);
    var n :| 0 <= n < |Alone(faults)| && !Alone(faults)[n].fault.NoFault?;
    assert !faults[n].NoFault?;
  }

  /** A real run that completed alone: at the target store, with exactly the planned calls made. */
  lemma CompletedRun(env: Env, items: seq<Item>, origin: Store, faults: seq<Fault>)
    requires WellFormed(env, items) && Complete(items, Solo(env, items, origin, StartRun(false), faults).1)
    ensures Solo(env, items, origin, StartRun(false), faults).0 == TargetStore(env, items, origin)
    ensures SoloTrace(env, items, origin, StartRun(false), faults) == RunCalls(env, items, origin)
  {
    RunFollowsPlan(env, items, origin, faults);
    var (s, run) := Solo(env, items, origin, StartRun(false), faults);
    PlanIsDone(env, items, origin, s, run, SoloTrace(env, items, origin, StartRun(false), faults));
  }

  lemma PlanIsDone(env: Env, items: seq<Item>, origin: Store, s: Store, run: Run, trace: seq<Call>)
    requires CleanAt(env, items, origin, s, run, trace) && Complete(items, run)
    ensures s == TargetStore(env, items, origin) && trace == RunCalls(env, items, origin)
  {
    assert items[..|items|] == items;
  }

  lemma {:induction false} AloneTurns(faults: seq<Fault>)
    ensures Turns(Alone(faults), 0) == |faults|
  {
    if faults != [] {
      AloneTurns(faults[..|faults| - 1]);
      assert Alone(faults)[..|faults| - 1] == Alone(faults[..|faults| - 1]);
    }
  }

  /** Given its 11 steps per entry, a quiet run on its own has completed. */
  lemma QuietRunCompletes(env: Env, items: seq<Item>, origin: Store, dry: bool, faults: seq<Fault>)
    requires WellFormed(env, items) && Quiet(faults) && |faults| >= 11 * |items|
    ensures Complete(items, Solo(env, items, origin, StartRun(dry), faults).1)
  {
    SoloIsExec(env, items, origin, dry, faults);
    AloneTurns(faults);
    TurnsExhaust(env, items, origin, [dry], Alone(faults), 0);
    if Solo(env, items, origin, StartRun(dry), faults).1.failed {
      QuietRunSucceeds(env, items, origin, dry, faults);
    }
  }

  // ----- dry runs -----

  /** A dry run never changes the store, whatever befalls its reads, and as long as it has not
      failed it has previewed exactly what it passed. */
  lemma {:induction false} DryRunPreviews(env: Env, items: seq<Item>, origin: Store, faults: seq<Fault>)
    ensures
      var (s, run) := Solo(env, items, origin, StartRun(true), faults);
      && s == origin
      && run.dry && run.phase.Reading? && run.idx <= |items|
      && (!run.failed ==>
            SoloTrace(env, items, origin, StartRun(true), faults) == Previews(env, items[..run.idx], origin))
  {
    if faults == [] {
      assert items[..0] == [];
    } else {
      var n := |faults| - 1;
      DryRunPreviews(env, items, origin, faults[..n]);
      var (s, run) := Solo(env, items, origin, StartRun(true), faults[..n]);
      if Active(items, run) {
        DryStep(env, items, s, run, faults[n]);
        assert items[..run.idx + 1][..run.idx] == items[..run.idx];
      } else {
        assert Previews(env, items[..run.idx], origin) + [] == Previews(env, items[..run.idx], origin);
      }
    }
  }

  lemma DryStep(env: Env, items: seq<Item>, s: Store, run: Run, f: Fault)
    requires Active(items, run) && run.dry && run.phase.Reading?
    ensures Advance(env, items, s, run, f) == (s, if f.NoFault? then NextItem(run) else run.(failed := true))
  {
  }

  // ----- fidelity -----

  predicate Touches(calls: seq<Call>, k: Key) {
    exists i :: 0 <= i < |calls| && calls[i].key == k
  }

  /** The first call on each resource. */
  function FirstPerKey(calls: seq<Call>): seq<Call> {
    if calls == [] then []
    else
      var init, last := calls[..|calls| - 1], calls[|calls| - 1];
      FirstPerKey(init) + if Touches(init, last.key) then [] else [last]
  }

  lemma {:induction false} FirstOfBlock(calls: seq<Call>, block: seq<Call>, k: Key)
    requires !Touches(calls, k)
    requires forall i :: 0 <= i < |block| ==> block[i].key == k
    ensures FirstPerKey(calls + block) == FirstPerKey(calls) + if block == [] then [] else [block[0]]
  {
    if block == [] {
      assert calls + block == calls;
    } else {
      var n := |block| - 1;
      FirstOfBlock(calls, block[..n], k);
      assert (calls + block)[..|calls + block| - 1] == calls + block[..n];
      if n > 0 {
        assert (calls + block[..n])[|calls|].key == k;
      } else {
        assert calls + block[..n] == calls;
      }
    }
  }

  /** The calls of one entry all concern its resource, and the first of them is the preview. */
  lemma ItemBlock(env: Env, it: Item, found: Option<Resource>)
    requires found.Some? ==> Fits(it, found.value)
    ensures
      var block := ItemCalls(env, it, found);
      && (forall i :: 0 <= i < |block| ==> block[i].key == KeyOf(env, it))
      && PreviewOf(env, it, found) == if block == [] then [] else [block[0]]
  {
  }

  lemma {:induction false} UnnamedUntouched(env: Env, items: seq<Item>, s: Store, k: Key)
    requires !Named(env, items, k)
    ensures !Touches(RunCalls(env, items, s), k)
  {
    if items != [] {
      var n := |items| - 1;
      assert KeyOf(env, items[n]) != k;
      forall i | 0 <= i < n
        ensures KeyOf(env, items[..n][i]) != k
      {
        assert KeyOf(env, items[i]) != k;
      }
      UnnamedUntouched(env, items[..n], s, k);
      ItemBlock(env, items[n], Lookup(s, KeyOf(env, items[n])));
      assert RunCalls(env, items, s)
          == RunCalls(env, items[..n], s) + ItemCalls(env, items[n], Lookup(s, KeyOf(env, items[n])));
    }
  }

  /** What a dry run previews is, resource by resource, the first mutating call of a real run. */
  lemma {:induction false} PreviewIsFirstCall(env: Env, items: seq<Item>, s: Store)
    requires DistinctKeys(env, items)
    ensures FirstPerKey(RunCalls(env, items, s)) == Previews(env, items, s)
  {
    if items != [] {
      var n := |items| - 1;
      var k := KeyOf(env, items[n]);
      PreviewIsFirstCall(env, items[..n], s);
      NotNamedBefore(env, items, n);
      UnnamedUntouched(env, items[..n], s, k);
      ItemBlock(env, items[n], Lookup(s, k));
      FirstOfBlock(RunCalls(env, items[..n], s), ItemCalls(env, items[n], Lookup(s, k)), k);
    }
  }

  /** Dry-run fidelity, over whole runs: both finish, the dry one leaves the store alone, and what it
      previewed is the first call the real one made on each resource. */
  lemma DryRunIsFaithful(env: Env, items: seq<Item>, origin: Store, faults: seq<Fault>)
    requires WellFormed(env, items) && Quiet(faults) && |faults| >= 11 * |items|
    ensures Complete(items, Solo(env, items, origin, StartRun(true), faults).1)
    ensures Complete(items, Solo(env, items, origin, StartRun(false), faults).1)
    ensures Solo(env, items, origin, StartRun(true), faults).0 == origin
    ensures SoloTrace(env, items, origin, StartRun(true), faults)
            == FirstPerKey(SoloTrace(env, items, origin, StartRun(false), faults))
  {
    QuietRunCompletes(env, items, origin, false, faults);
    CompletedRun(env, items, origin, faults);
    QuietRunCompletes(env, items, origin, true, faults);
    DryRunPreviews(env, items, origin, faults);
    assert items[..|items|] == items;
    PreviewIsFirstCall(env, items, origin);
  }
}
