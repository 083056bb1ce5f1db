/** Any number of runs, interleaved call by call, stale reads and fatal errors included. */
module Interleaving {
  import opened Client
  import opened Resources
  import opened Algebra
  import opened Machine
  import opened Confluence

  // ----- one call keeps the invariant -----

  ghost predicate Setting(env: Env, items: seq<Item>, slots: seq<Slot>, origin: Store, s: Store, run: Run) {
    && WellFormed(env, items) && Describes(slots, env, items, origin) && ProperSlots(slots)
    && OnTheWay(slots, origin, s)
    && ProperPhase(items, run) && DeclaredDeadLetter(env, items, run) && RunOk(env, slots, s, run)
  }

  /** What one undisturbed step of an active run has to achieve. */
  ghost predicate GoodStep(env: Env, items: seq<Item>, slots: seq<Slot>, origin: Store, s: Store, run: Run)
    requires ProperSlots(slots) && ProperPhase(items, run)
  {
    var (s', run') := Advance(env, items, s, run, NoFault);
    && Progress(slots, origin, s, s')
    && DeclaredDeadLetter(env, items, run')
    && RunOk(env, slots, s', run')
    && !run'.failed
  }

  lemma Reread(env: Env, it: Item, origin: Store, s: Store, r: Resource, p: Path)
    requires Sound(it) && SlotOnTheWay(SlotOf(env, it, origin), s) && Lookup(s, KeyOf(env, it)) == Some(r)
    ensures it.createOnly || p !in Diff(it, r) ==> Home(SlotOf(env, it, origin), s, p)
    ensures !it.createOnly && p in Diff(it, r) && p !in Refused(env, it) ==>
              FieldEq(Written(env, it, r), SlotOf(env, it, origin).goal, p)
  {
    var found := Lookup(origin, KeyOf(env, it));
    DiffMembers(it, r);
    if it.createOnly {
      MidwayHome(env, it, found, r, p);
    } else {
      MidwayRead(env, it, found, r, p);
      if Drifts(it, r, p) {
        AllPathsCovered(it, r, p);
      }
    }
  }

  /** After reading `r` a run may skip the entry only if it has arrived. */
  lemma SkipIsSafe(env: Env, it: Item, origin: Store, s: Store, r: Resource)
    requires Sound(it) && SlotOnTheWay(SlotOf(env, it, origin), s) && Lookup(s, KeyOf(env, it)) == Some(r)
    requires it.createOnly || Diff(it, r) == []
    ensures Arrived(SlotOf(env, it, origin), s)
  {
    forall p
      ensures Home(SlotOf(env, it, origin), s, p)
    {
      Reread(env, it, origin, s, r, p);
    }
    AllHome(SlotOf(env, it, origin), s);
  }

  /** Otherwise what it plans to send is right. */
  lemma PlanIsRight(env: Env, it: Item, origin: Store, s: Store, r: Resource)
    requires Sound(it) && SlotOnTheWay(SlotOf(env, it, origin), s) && Lookup(s, KeyOf(env, it)) == Some(r)
    requires !it.createOnly && Diff(it, r) != []
    ensures PendingUpdate(SlotOf(env, it, origin), Refused(env, it), s, Written(env, it, r), Diff(it, r), 0)
  {
    var mask := Diff(it, r);
    forall p
      ensures p !in mask ==> Home(SlotOf(env, it, origin), s, p)
      ensures p in mask && p !in Refused(env, it) ==>
                FieldEq(Written(env, it, r), SlotOf(env, it, origin).goal, p)
    {
      Reread(env, it, origin, s, r, p);
    }
    assert mask[0..] == mask;
  }

  /** The read showed drift, so an update is planned; a dry run moves on. */
  lemma ReadPlans(env: Env, items: seq<Item>, slots: seq<Slot>, origin: Store, s: Store, run: Run, r: Resource)
    requires Setting(env, items, slots, origin, s, run) && Active(items, run) && run.phase.Reading?
    requires Lookup(s, KeyOf(env, items[run.idx])) == Some(r)
    requires !items[run.idx].createOnly && Diff(items[run.idx], r) != []
    ensures GoodStep(env, items, slots, origin, s, run)
  {
    NoChangeIsProgress(slots, origin, s);
    AdvanceRead(env, items, s, run, r);
    if !run.dry {
      PlanIsOk(env, items, slots, origin, s, run, r);
    }
  }

  lemma PlanIsOk(env: Env, items: seq<Item>, slots: seq<Slot>, origin: Store, s: Store, run: Run, r: Resource)
    requires Setting(env, items, slots, origin, s, run) && Active(items, run) && !run.dry
    requires Lookup(s, KeyOf(env, items[run.idx])) == Some(r)
    requires !items[run.idx].createOnly && Diff(items[run.idx], r) != []
    ensures
      var it := items[run.idx];
      var run' := run.(phase := Batching(Payload(env, it, r), Diff(it, r)));
      DeclaredDeadLetter(env, items, run') && RunOk(env, slots, s, run')
  {
    var it := items[run.idx];
    assert SlotOnTheWay(slots[run.idx], s);
    PlanIsRight(env, it, origin, s, r);
    if it.SubItem? {
      SubMessageFields(env.project, it.sub, r.sub);
    }
  }

  /** The read showed nothing to do. */
  lemma ReadSkips(env: Env, items: seq<Item>, slots: seq<Slot>, origin: Store, s: Store, run: Run, r: Resource)
    requires Setting(env, items, slots, origin, s, run) && Active(items, run) && run.phase.Reading?
    requires Lookup(s, KeyOf(env, items[run.idx])) == Some(r)
    requires items[run.idx].createOnly || Diff(items[run.idx], r) == []
    ensures GoodStep(env, items, slots, origin, s, run)
  {
    NoChangeIsProgress(slots, origin, s);
    assert SlotOnTheWay(slots[run.idx], s);
    AdvanceRead(env, items, s, run, r);
    SkipIsSafe(env, items[run.idx], origin, s, r);
  }

  lemma ReadStep(env: Env, items: seq<Item>, slots: seq<Slot>, origin: Store, s: Store, run: Run)
    requires Setting(env, items, slots, origin, s, run) && Active(items, run) && run.phase.Reading?
    ensures GoodStep(env, items, slots, origin, s, run)
  {
    var it := items[run.idx];
    NoChangeIsProgress(slots, origin, s);
    assert SlotOnTheWay(slots[run.idx], s);
    match Lookup(s, KeyOf(env, it)) {
      case None =>
      case Some(r) =>
        if it.createOnly || Diff(it, r) == [] {
          ReadSkips(env, items, slots, origin, s, run, r);
        } else {
          ReadPlans(env, items, slots, origin, s, run, r);
        }
    }
  }

  lemma CreateStep(env: Env, items: seq<Item>, slots: seq<Slot>, origin: Store, s: Store, run: Run)
    requires Setting(env, items, slots, origin, s, run) && Active(items, run) && run.phase.Creating?
    ensures GoodStep(env, items, slots, origin, s, run)
  {
    var it := items[run.idx];
    var s' := Advance(env, items, s, run, NoFault).0;
    assert SlotOnTheWay(slots[run.idx], s);
    PendingRefersToExisting(env, items, slots, origin, s, run);
    if Lookup(s, KeyOf(env, it)).None? {
      PutIsProgress(slots, origin, s, run.idx, Initial(env, it));
    } else {
      NoChangeIsProgress(slots, origin, s);
    }
    RunOkStays(env, slots, origin, s, s', run);
    assert Arrived(slots[run.idx], s');
  }

  /** A refused path was never going to move. */
  lemma RefusedIsHome(env: Env, it: Item, origin: Store, s: Store, p: Path)
    requires SlotOnTheWay(SlotOf(env, it, origin), s) && Lookup(s, KeyOf(env, it)).Some?
    requires p in Refused(env, it)
    ensures Home(SlotOf(env, it, origin), s, p)
  {
    MidwayHome(env, it, Lookup(origin, KeyOf(env, it)), Lookup(s, KeyOf(env, it)).value, p);
  }

  /** What a run in the middle of an update can count on, free of how its goal is computed. */
  ghost predicate Updating(env: Env, items: seq<Item>, slots: seq<Slot>, origin: Store, s: Store, run: Run) {
    && |slots| == |items| && ProperSlots(slots) && OnTheWay(slots, origin, s)
    && Active(items, run) && ProperPhase(items, run) && (run.phase.Batching? || run.phase.Splitting?)
    && DeclaredDeadLetter(env, items, run) && RunOk(env, slots, s, run)
    && slots[run.idx].key == KeyOf(env, items[run.idx])
    && RefersToExisting(s, RequestOf(env, items, run))
    && forall p :: p in RefusedKey(env, slots[run.idx].key) ==> Home(slots[run.idx], s, p)
  }

  lemma IsUpdating(env: Env, items: seq<Item>, slots: seq<Slot>, origin: Store, s: Store, run: Run)
    requires Setting(env, items, slots, origin, s, run) && Active(items, run)
    requires run.phase.Batching? || run.phase.Splitting?
    ensures Updating(env, items, slots, origin, s, run)
  {
    PendingRefersToExisting(env, items, slots, origin, s, run);
    assert SlotOnTheWay(slots[run.idx], s);
    forall p | p in RefusedKey(env, slots[run.idx].key)
      ensures Home(slots[run.idx], s, p)
    {
      RefusedIsHome(env, items[run.idx], origin, s, p);
    }
  }

  lemma BatchStep(env: Env, items: seq<Item>, slots: seq<Slot>, origin: Store, s: Store, run: Run)
    requires Updating(env, items, slots, origin, s, run) && run.phase.Batching?
    ensures GoodStep(env, items, slots, origin, s, run)
  {
    var m, mask := run.phase.message, run.phase.mask;
    var req := RequestOf(env, items, run);
    AdvanceBatch(env, items, s, run);
    if AnyRefused(env, req.key, req.mask) {
      NoChangeIsProgress(slots, origin, s);
      if |mask| == 1 {
        PathRefused(env, slots, origin, s, run, m, mask, 0);
      } else {
        MoveOn(env, slots, origin, s, s, run, m, mask, 0);
      }
    } else {
      assert mask[0..|mask|] == mask;
      StretchTaken(env, slots, origin, s, run, m, mask, 0, |mask|);
    }
  }

  lemma SplitStep(env: Env, items: seq<Item>, slots: seq<Slot>, origin: Store, s: Store, run: Run)
    requires Updating(env, items, slots, origin, s, run) && run.phase.Splitting?
    ensures GoodStep(env, items, slots, origin, s, run)
  {
    var m, mask, pos := run.phase.message, run.phase.mask, run.phase.pos;
    var req := RequestOf(env, items, run);
    AdvanceSplit(env, items, s, run);
    assert req.mask[0] == mask[pos];
    if AnyRefused(env, req.key, req.mask) {
      NoChangeIsProgress(slots, origin, s);
      PathRefused(env, slots, origin, s, run, m, mask, pos);
    } else {
      assert mask[pos..pos + 1] == req.mask;
      StretchTaken(env, slots, origin, s, run, m, mask, pos, pos + 1);
    }
  }

  /** Any call of any run is progress for every run, and the caller goes on soundly. */
  lemma CallStep(env: Env, items: seq<Item>, slots: seq<Slot>, origin: Store, s: Store, run: Run)
    requires Setting(env, items, slots, origin, s, run) && Active(items, run)
    ensures GoodStep(env, items, slots, origin, s, run)
  {
    match run.phase
    case Reading => ReadStep(env, items, slots, origin, s, run);
    case Creating => CreateStep(env, items, slots, origin, s, run);
    case Batching(_, _) =>
      IsUpdating(env, items, slots, origin, s, run);
      BatchStep(env, items, slots, origin, s, run);
    case Splitting(_, _, _) =>
      IsUpdating(env, items, slots, origin, s, run);
      SplitStep(env, items, slots, origin, s, run);
  }

  /** The store after a call does not depend on whether its reply was lost. */
  lemma FaultyStep(env: Env, items: seq<Item>, s: Store, run: Run, f: Fault)
    requires ProperPhase(items, run) && Active(items, run) && !f.NoFault?
    ensures
      var (s', run') := Advance(env, items, s, run, f);
      && run' == run.(failed := true)
      && s' == if f.LostReply? then Advance(env, items, s, run, NoFault).0 else s
  {
  }

  lemma AdvanceKeeps(env: Env, items: seq<Item>, slots: seq<Slot>, origin: Store, s: Store, run: Run, f: Fault)
    requires Setting(env, items, slots, origin, s, run)
    ensures
      var (s', run') := Advance(env, items, s, run, f);
      && Progress(slots, origin, s, s')
      && DeclaredDeadLetter(env, items, run')
      && RunOk(env, slots, s', run')
      && (f.NoFault? && !run.failed ==> !run'.failed)
  {
    NoChangeIsProgress(slots, origin, s);
    if Active(items, run) {
      CallStep(env, items, slots, origin, s, run);
      if !f.NoFault? {
        FaultyStep(env, items, s, run, f);
        RunOkStays(env, slots, origin, s, Advance(env, items, s, run, f).0, run);
      }
    }
  }

  // ----- whole executions -----

  lemma StepKeeps(env: Env, items: seq<Item>, slots: seq<Slot>, origin: Store, sys: System, e: Event)
    requires WellFormed(env, items) && Describes(slots, env, items, origin)
    requires Inv(env, items, slots, origin, sys)
    ensures Inv(env, items, slots, origin, Step(env, items, sys, e))
    ensures Progress(slots, origin, sys.store, Step(env, items, sys, e).store)
    ensures forall i :: 0 <= i < |sys.runs| && (i != e.who || e.fault.NoFault?) && !sys.runs[i].failed ==>
              !Step(env, items, sys, e).runs[i].failed
  {
    var sys' := Step(env, items, sys, e);
    if e.who < |sys.runs| {
      AdvanceKeeps(env, items, slots, origin, sys.store, sys.runs[e.who], e.fault);
      forall i | 0 <= i < |sys'.runs|
        ensures RunOk(env, slots, sys'.store, sys'.runs[i]) && DeclaredDeadLetter(env, items, sys'.runs[i])
      {
        if i != e.who {
          RunOkStays(env, slots, origin, sys.store, sys'.store, sys.runs[i]);
        }
      }
    } else {
      NoChangeIsProgress(slots, origin, sys.store);
    }
  }

  lemma StartOk(env: Env, items: seq<Item>, slots: seq<Slot>, origin: Store, modes: seq<bool>)
    requires WellFormed(env, items) && Describes(slots, env, items, origin)
    ensures Inv(env, items, slots, origin, Start(origin, modes))
  {
    DescribedSlots(slots, env, items, origin);
    forall i | 0 <= i < |slots|
      ensures SlotOnTheWay(slots[i], origin)
    {
      if slots[i].found.Some? {
        MidwayStart(env, items[i], slots[i].found.value);
      }
    }
  }

  ghost function SlotsOf(env: Env, items: seq<Item>, origin: Store): (slots: seq<Slot>)
    ensures Describes(slots, env, items, origin)
  {
    seq(|items|, i requires 0 <= i < |items| => SlotOf(env, items[i], origin))
  }

  lemma {:induction false} ExecKeeps(
    env: Env, items: seq<Item>, slots: seq<Slot>, origin: Store, modes: seq<bool>, schedule: seq<Event>)
    requires WellFormed(env, items) && Describes(slots, env, items, origin)
    ensures Inv(env, items, slots, origin, Exec(env, items, Start(origin, modes), schedule))
  {
    if schedule == [] {
      StartOk(env, items, slots, origin, modes);
    } else {
      var n := |schedule| - 1;
      ExecKeeps(env, items, slots, origin, modes, schedule[..n]);
      StepKeeps(env, items, slots, origin, Exec(env, items, Start(origin, modes), schedule[..n]), schedule[n]);
    }
  }
}
