/** What every interleaving of provisioner runs keeps.

    `origin` is the store before the first call of any run.  Runs read at different times, act on
    what they read long after it changed, and may die at any call. */
module Confluence {
  import opened Client
  import opened Wire
  import opened Resources
  import opened Algebra
  import opened Machine

  // ----- one resource, from where it was to where it is going -----

  datatype Slot = Slot(key: Key, found: Option<Resource>, goal: Resource)

  ghost function SlotOf(env: Env, it: Item, origin: Store): Slot {
    var k := KeyOf(env, it);
    Slot(k, Lookup(origin, k), Target(env, it, Lookup(origin, k)))
  }

  ghost predicate ProperSlot(sl: Slot) {
    && KindOfKey(sl.key, sl.goal)
    && (sl.found.Some? ==> KindOfKey(sl.key, sl.found.value))
  }

  ghost predicate ProperSlots(slots: seq<Slot>) {
    && (forall i :: 0 <= i < |slots| ==> ProperSlot(slots[i]))
    && (forall i, j :: 0 <= i < j < |slots| ==> slots[i].key != slots[j].key)
  }

  ghost predicate Covered(slots: seq<Slot>, k: Key) {
    exists i :: 0 <= i < |slots| && slots[i].key == k
  }

  ghost predicate Describes(slots: seq<Slot>, env: Env, items: seq<Item>, origin: Store) {
    && |slots| == |items|
    && forall i :: 0 <= i < |slots| ==> slots[i] == SlotOf(env, items[i], origin)
  }

  ghost predicate SlotOnTheWay(sl: Slot, s: Store)
    requires ProperSlot(sl)
  {
    match Lookup(s, sl.key)
    case None => sl.found.None?
    case Some(r) => Passing(sl.found, sl.goal, r)
  }

  /** Every named resource is on its way to its goal; nothing else has moved. */
  ghost predicate OnTheWay(slots: seq<Slot>, origin: Store, s: Store)
    requires ProperSlots(slots)
  {
    && (forall i :: 0 <= i < |slots| ==> SlotOnTheWay(slots[i], s))
    && (forall k {:trigger Covered(slots, k)} :: !Covered(slots, k) ==> Lookup(s, k) == Lookup(origin, k))
  }

  ghost predicate Arrived(sl: Slot, s: Store) {
    Lookup(s, sl.key) == Some(sl.goal)
  }

  /** Field `p` of the resource is at its goal. */
  ghost predicate Home(sl: Slot, s: Store, p: Path)
    requires ProperSlot(sl)
  {
    Lookup(s, sl.key).Some? && FieldEq(Lookup(s, sl.key).value, sl.goal, p)
  }

  // ----- what a run owes -----

  /** A pending update may be stale, but what the endpoint would accept of it is right, and
      whatever it no longer carries is already home. */
  ghost predicate PendingUpdate(sl: Slot, refused: set<Path>, s: Store, m: Resource, mask: seq<Path>, pos: nat)
    requires ProperSlot(sl) && pos <= |mask|
  {
    && KindOfKey(sl.key, m)
    && (sl.found.Some? || Arrived(sl, s))
    && (forall p :: p in mask && p !in refused ==> FieldEq(m, sl.goal, p))
    && (forall p :: p !in mask[pos..] ==> Home(sl, s, p))
  }

  ghost predicate PendingOk(env: Env, slots: seq<Slot>, s: Store, run: Run)
    requires ProperSlots(slots)
  {
    match run.phase
    case Reading => true
    case Creating => run.idx < |slots| && slots[run.idx].found.None?
    case Batching(m, mask) =>
      run.idx < |slots| && PendingUpdate(slots[run.idx], RefusedKey(env, slots[run.idx].key), s, Stored(env, m), mask, 0)
    case Splitting(m, mask, pos) =>
      && run.idx < |slots| && pos < |mask|
      && PendingUpdate(slots[run.idx], RefusedKey(env, slots[run.idx].key), s, Stored(env, m), mask, pos)
  }

  /** Everything a real run has passed has arrived. */
  ghost predicate Behind(slots: seq<Slot>, s: Store, run: Run) {
    !run.dry ==> forall i :: 0 <= i < run.idx && i < |slots| ==> Arrived(slots[i], s)
  }

  ghost predicate RunOk(env: Env, slots: seq<Slot>, s: Store, run: Run)
    requires ProperSlots(slots)
  {
    PendingOk(env, slots, s, run) && Behind(slots, s, run)
  }

  /** An update message names the dead letter topic of the config entry, if any. */
  ghost predicate DeclaredDeadLetter(env: Env, items: seq<Item>, run: Run)
    requires ProperPhase(items, run)
  {
    run.phase.Batching? || run.phase.Splitting? ==>
      var it := items[run.idx];
      it.SubItem? ==>
        run.phase.message.sub.deadLetter == ToProtoSubscription(env.project, it.sub).deadLetter
  }

  ghost predicate Inv(env: Env, items: seq<Item>, slots: seq<Slot>, origin: Store, sys: System) {
    && ProperSlots(slots)
    && OnTheWay(slots, origin, sys.store)
    && forall i :: 0 <= i < |sys.runs| ==>
         && ProperPhase(items, sys.runs[i])
         && DeclaredDeadLetter(env, items, sys.runs[i])
         && RunOk(env, slots, sys.store, sys.runs[i])
  }

  // ----- progress is never undone -----

  ghost predicate Progress(slots: seq<Slot>, origin: Store, s: Store, s': Store)
    requires ProperSlots(slots)
  {
    && OnTheWay(slots, origin, s')
    && forall i, p :: 0 <= i < |slots| && Home(slots[i], s, p) ==> Home(slots[i], s', p)
  }

  lemma AllHome(sl: Slot, s: Store)
    requires ProperSlot(sl) && SlotOnTheWay(sl, s)
    requires forall p :: Home(sl, s, p)
    ensures Arrived(sl, s)
  {
    assert Home(sl, s, LabelsPath);
    var r := Lookup(s, sl.key).value;
    if sl.found.Some? {
      forall p
        ensures FieldEq(r, sl.goal, p)
      {
        assert Home(sl, s, p);
      }
      FieldsDetermine(r, sl.goal);
    }
  }

  lemma ArrivedStays(slots: seq<Slot>, origin: Store, s: Store, s': Store, i: nat)
    requires ProperSlots(slots) && Progress(slots, origin, s, s')
    requires i < |slots| && Arrived(slots[i], s)
    ensures Arrived(slots[i], s')
  {
    forall p
      ensures Home(slots[i], s', p)
    {
      FieldEqRefl(slots[i].goal, p);
      assert Home(slots[i], s, p);
    }
    AllHome(slots[i], s');
  }

  lemma RunOkStays(env: Env, slots: seq<Slot>, origin: Store, s: Store, s': Store, run: Run)
    requires ProperSlots(slots) && RunOk(env, slots, s, run)
    requires Progress(slots, origin, s, s')
    ensures RunOk(env, slots, s', run)
  {
    if !run.dry {
      forall i | 0 <= i < run.idx && i < |slots|
        ensures Arrived(slots[i], s')
      {
        ArrivedStays(slots, origin, s, s', i);
      }
    }
    if run.idx < |slots| && Arrived(slots[run.idx], s) {
      ArrivedStays(slots, origin, s, s', run.idx);
    }
  }

  lemma NoChangeIsProgress(slots: seq<Slot>, origin: Store, s: Store)
    requires ProperSlots(slots) && OnTheWay(slots, origin, s)
    ensures Progress(slots, origin, s, s)
  {
  }

  /** Replacing one named resource by one further along is progress for all. */
  lemma PutIsProgress(slots: seq<Slot>, origin: Store, s: Store, n: nat, r: Resource)
    requires ProperSlots(slots) && n < |slots| && OnTheWay(slots, origin, s)
    requires KindOfKey(slots[n].key, r) && Passing(slots[n].found, slots[n].goal, r)
    requires forall p :: Home(slots[n], s, p) ==> FieldEq(r, slots[n].goal, p)
    ensures Progress(slots, origin, s, Put(s, slots[n].key, r))
  {
  }

  // ----- a pending update -----

  /** An update that writes what is there changes nothing. */
  lemma ApplyAtGoal(r: Resource, m: Resource, mask: seq<Path>)
    requires SameKind(r, m) && forall p :: p in mask ==> FieldEq(m, r, p)
    ensures Apply(r, m, mask) == r
  {
    forall p
      ensures FieldEq(r, r, p) && FixedEq(r, r)
    {
      FieldEqRefl(r, p);
    }
    FieldEqRefl(r, LabelsPath);
    ApplyTowards(r, r, r, m, mask);
    FieldsDetermine(Apply(r, m, mask), r);
  }

  /** Sending the next stretch of a pending mask, accepted in full. */
  lemma SendAccepted(
    slots: seq<Slot>, refused: set<Path>, origin: Store, s: Store,
    n: nat, m: Resource, mask: seq<Path>, pos: nat, end: nat)
    requires ProperSlots(slots) && OnTheWay(slots, origin, s) && n < |slots|
    requires pos <= end <= |mask| && PendingUpdate(slots[n], refused, s, m, mask, pos)
    requires forall p :: p in mask[pos..end] ==> p !in refused
    ensures
      var o := Lookup(s, slots[n].key);
      && o.Some?
      && var s' := Put(s, slots[n].key, Apply(o.value, m, mask[pos..end]));
      && Progress(slots, origin, s, s')
      && PendingUpdate(slots[n], refused, s', m, mask, end)
  {
    var sl, stretch := slots[n], mask[pos..end];
    assert SlotOnTheWay(sl, s);
    var r := Lookup(s, sl.key).value;
    var r' := Apply(r, m, stretch);
    if sl.found.Some? {
      ApplyTowards(sl.found.value, r, sl.goal, m, stretch);
    } else {
      ApplyAtGoal(r, m, stretch);
    }
    PutIsProgress(slots, origin, s, n, r');
    forall p | p !in mask[end..]
      ensures FieldEq(r', sl.goal, p)
    {
      assert mask[pos..] == stretch + mask[end..];
      assert p in stretch || Home(sl, s, p);
    }
  }

  /** Passing over a path whose field is home anyway loses nothing. */
  lemma SkipPath(sl: Slot, refused: set<Path>, s: Store, m: Resource, mask: seq<Path>, pos: nat)
    requires ProperSlot(sl) && pos < |mask| && PendingUpdate(sl, refused, s, m, mask, pos)
    requires Home(sl, s, mask[pos])
    ensures PendingUpdate(sl, refused, s, m, mask, pos + 1)
  {
  }

  /** What remains of a run's obligations once its pending update has moved on to `end`. */
  lemma MoveOn(
    env: Env, slots: seq<Slot>, origin: Store, s: Store, s': Store, run: Run, m: Resource, mask: seq<Path>, end: nat)
    requires ProperSlots(slots) && RunOk(env, slots, s, run) && run.idx < |slots|
    requires Progress(slots, origin, s, s')
    requires end <= |mask|
    requires PendingUpdate(slots[run.idx], RefusedKey(env, slots[run.idx].key), s', Stored(env, m), mask, end)
    ensures RunOk(env, slots, s', PastPath(run, m, mask, end))
  {
    RunOkStays(env, slots, origin, s, s', run);
    if end == |mask| {
      forall p
        ensures Home(slots[run.idx], s', p)
      {
        assert p !in mask[|mask|..];
      }
      AllHome(slots[run.idx], s');
    }
  }

  /** The endpoint takes the next stretch of a run's mask. */
  lemma StretchTaken(
    env: Env, slots: seq<Slot>, origin: Store, s: Store, run: Run, m: Resource, mask: seq<Path>, pos: nat, end: nat)
    requires ProperSlots(slots) && OnTheWay(slots, origin, s) && RunOk(env, slots, s, run) && run.idx < |slots|
    requires pos <= end <= |mask|
    requires PendingUpdate(slots[run.idx], RefusedKey(env, slots[run.idx].key), s, Stored(env, m), mask, pos)
    requires forall p :: p in mask[pos..end] ==> p !in RefusedKey(env, slots[run.idx].key)
    ensures
      var o := Lookup(s, slots[run.idx].key);
      && o.Some?
      && var s' := Put(s, slots[run.idx].key, Apply(o.value, Stored(env, m), mask[pos..end]));
      && Progress(slots, origin, s, s')
      && RunOk(env, slots, s', PastPath(run, m, mask, end))
  {
    SendAccepted(slots, RefusedKey(env, slots[run.idx].key), origin, s, run.idx, Stored(env, m), mask, pos, end);
    var s' := Put(s, slots[run.idx].key, Apply(Lookup(s, slots[run.idx].key).value, Stored(env, m), mask[pos..end]));
    MoveOn(env, slots, origin, s, s', run, m, mask, end);
  }

  /** The endpoint refuses the next path of a run's mask, and that field is home. */
  lemma PathRefused(
    env: Env, slots: seq<Slot>, origin: Store, s: Store, run: Run, m: Resource, mask: seq<Path>, pos: nat)
    requires ProperSlots(slots) && OnTheWay(slots, origin, s) && RunOk(env, slots, s, run) && run.idx < |slots|
    requires pos < |mask|
    requires PendingUpdate(slots[run.idx], RefusedKey(env, slots[run.idx].key), s, Stored(env, m), mask, pos)
    requires Home(slots[run.idx], s, mask[pos])
    ensures RunOk(env, slots, s, PastPath(run, m, mask, pos + 1))
  {
    NoChangeIsProgress(slots, origin, s);
    SkipPath(slots[run.idx], RefusedKey(env, slots[run.idx].key), s, Stored(env, m), mask, pos);
    MoveOn(env, slots, origin, s, s, run, m, mask, pos + 1);
  }

  // ----- slots and work lists -----

  lemma DescribedSlots(slots: seq<Slot>, env: Env, items: seq<Item>, origin: Store)
    requires Describes(slots, env, items, origin) && DistinctKeys(env, items)
    ensures ProperSlots(slots)
  {
  }

  /** Referential safety: a pending create or dead-letter update names only topics that exist. */
  lemma PendingRefersToExisting(
    env: Env, items: seq<Item>, slots: seq<Slot>, origin: Store, s: Store, run: Run)
    requires WellFormed(env, items) && Describes(slots, env, items, origin)
    requires Active(items, run) && ProperPhase(items, run)
    requires DeclaredDeadLetter(env, items, run) && Behind(slots, s, run)
    ensures RefersToExisting(s, RequestOf(env, items, run))
  {
  }
}
