/** A run seen from outside: the store, the fate of each call and what was recorded, step by step, and
    the effect of each update the provisioner sends. */
module Playback {
  import opened Client
  import opened Reconcile
  import opened Resources
  import opened Machine
  import opened Guarantees
  import opened Trace

  /** What can be observed of a run: the store, the fate of each call, and the two records. */
  datatype View = View(store: Store, history: seq<Fault>, calls: seq<Call>, previews: seq<Call>)

  /** A run and the view it began with. */
  datatype Origin = Origin(run: Run, view: View)

  /** One step of the run, seen through its view. */
  function PlayStep(env: Env, items: seq<Item>, v: View, run: Run, f: Fault): (r: (View, Run))
    requires ProperPhase(items, run)
    ensures ProperPhase(items, r.1)
  {
    var step, emitted := Advance(env, items, v.store, run, f), Emit(env, items, v.store, run, f);
    (View(step.0, v.history + [f],
          if run.dry then v.calls else v.calls + emitted,
          if run.dry then v.previews + emitted else v.previews),
     step.1)
  }

  /** The view after one step per fault listed. */
  function Play(env: Env, items: seq<Item>, o: Origin, faults: seq<Fault>): (r: (View, Run))
    requires ProperPhase(items, o.run)
    ensures ProperPhase(items, r.1)
  {
    if faults == [] then (o.view, o.run)
    else
      var before := Play(env, items, o, faults[..|faults| - 1]);
      PlayStep(env, items, before.0, before.1, faults[|faults| - 1])
  }

  /** Between `o` and `now` exactly the steps of the run were taken, and it stands at `run`. */
  ghost predicate Follows(env: Env, items: seq<Item>, o: Origin, now: View, run: Run) {
    ProperPhase(items, o.run) && exists faults :: Play(env, items, o, faults) == (now, run)
  }

  /** The view is the origin's, extended by what the run alone did. */
  ghost predicate IsSolo(env: Env, items: seq<Item>, o: Origin, faults: seq<Fault>, now: View, run: Run)
    requires ProperPhase(items, o.run)
  {
    var trace := SoloTrace(env, items, o.view.store, o.run, faults);
    && run.dry == o.run.dry
    && (now.store, run) == Solo(env, items, o.view.store, o.run, faults)
    && now.history == o.view.history + faults
    && now.calls == o.view.calls + (if o.run.dry then [] else trace)
    && now.previews == o.view.previews + (if o.run.dry then trace else [])
  }

  lemma ModeKept(env: Env, items: seq<Item>, s: Store, run: Run, f: Fault)
    requires ProperPhase(items, run)
    ensures Advance(env, items, s, run, f).1.dry == run.dry
  {
  }

  lemma Extend<T>(before: seq<T>, a: seq<T>, b: seq<T>)
    ensures (before + a) + b == before + (a + b)
    ensures before + [] == before
  {
  }

  /** The step of the induction below, from the view before the last fault. */
  lemma SoloStep(env: Env, items: seq<Item>, o: Origin, faults: seq<Fault>, v: View, run: Run)
    requires ProperPhase(items, o.run) && ProperPhase(items, run) && faults != []
    requires IsSolo(env, items, o, faults[..|faults| - 1], v, run)
    ensures
      var next := PlayStep(env, items, v, run, faults[|faults| - 1]);
      IsSolo(env, items, o, faults, next.0, next.1)
  {
    var init, f := faults[..|faults| - 1], faults[|faults| - 1];
    ModeKept(env, items, v.store, run, f);
    var trace, emitted := SoloTrace(env, items, o.view.store, o.run, init), Emit(env, items, v.store, run, f);
    Extend(o.view.calls, trace, emitted);
    Extend(o.view.previews, trace, emitted);
    Extend(o.view.history, init, [f]);
    assert faults == init + [f];
  }

  lemma {:induction false} PlayIsSolo(env: Env, items: seq<Item>, o: Origin, faults: seq<Fault>)
    requires ProperPhase(items, o.run)
    ensures
      var end := Play(env, items, o, faults);
      IsSolo(env, items, o, faults, end.0, end.1)
  {
    if faults == [] {
      SoloStart(env, items, o);
    } else {
      var before := Play(env, items, o, faults[..|faults| - 1]);
      PlayIsSolo(env, items, o, faults[..|faults| - 1]);
      SoloStep(env, items, o, faults, before.0, before.1);
    }
  }

  lemma SoloStart(env: Env, items: seq<Item>, o: Origin)
    requires ProperPhase(items, o.run)
    ensures IsSolo(env, items, o, [], o.view, o.run)
  {
  }

  lemma AnsweredStep(env: Env, items: seq<Item>, s: Store, run: Run, f: Fault)
    requires ProperPhase(items, run) && Active(items, run)
    ensures
      var (s', out) := Answer(env, s, RequestOf(env, items, run), f);
      && (out.Found? ==> run.phase.Reading? && Fits(items[run.idx], out.res))
      && Advance(env, items, s, run, f) == (s', Next(env, items, run, out))
      && Next(env, items, run, out).dry == run.dry
  {
  }

  lemma OneStep(env: Env, items: seq<Item>, before: View, now: View, run: Run, f: Fault, out: Outcome)
    requires ProperPhase(items, run) && Active(items, run)
    requires now.history == before.history + [f]
    requires (now.store, out) == Answer(env, before.store, RequestOf(env, items, run), f)
    requires now.calls == before.calls + CallsOf(RequestOf(env, items, run))
    requires now.previews == before.previews + if run.dry then Emit(env, items, before.store, run, f) else []
    requires out.Found? ==> Fits(items[run.idx], out.res)
    ensures PlayStep(env, items, before, run, f) == (now, Next(env, items, run, out))
  {
    if run.dry {
      assert run.phase.Reading?;
      assert before.calls + [] == before.calls;
    } else {
      assert before.previews + [] == before.previews;
    }
  }

  /** One answered call is one step. */
  lemma FollowsStep(env: Env, items: seq<Item>, o: Origin, before: View, now: View, run: Run, f: Fault, out: Outcome)
    requires Follows(env, items, o, before, run) && ProperPhase(items, run) && Active(items, run)
    requires now.history == before.history + [f]
    requires (now.store, out) == Answer(env, before.store, RequestOf(env, items, run), f)
    requires now.calls == before.calls + CallsOf(RequestOf(env, items, run))
    requires now.previews == before.previews + if run.dry then Emit(env, items, before.store, run, f) else []
    ensures out.Found? ==> run.phase.Reading? && Fits(items[run.idx], out.res)
    ensures Follows(env, items, o, now, Next(env, items, run, out))
  {
    AnsweredStep(env, items, before.store, run, f);
    OneStep(env, items, before, now, run, f, out);
    var faults :| Play(env, items, o, faults) == (before, run);
    assert (faults + [f])[..|faults|] == faults;
    assert Play(env, items, o, faults + [f]) == PlayStep(env, items, before, run, f);
  }

  function MessageKey(m: Resource): Key {
    match m
    case TopicRes(t) => TopicKey(t.name)
    case SubRes(s) => SubKey(s.name)
    case BucketRes(b) => BucketKey(b.name)
  }

  function RefusedTest(env: Env, it: Item): Path -> bool {
    p => p in Refused(env, it)
  }

  /** What an answered update did to the resource it named. */
  lemma UpdateAnswer(env: Env, s: Store, req: Request, f: Fault)
    requires ProperRequest(req) && req.UpdateReq? && Lookup(s, req.key).Some?
    ensures
      var (s', out) := Answer(env, s, req, f);
      var taken := Put(s, req.key, Apply(Lookup(s, req.key).value, Stored(env, req.message), req.mask));
      && (out.Done? ==> !AnyRefused(env, req.key, req.mask) && s' == taken)
      && (out.Unsupported? ==> AnyRefused(env, req.key, req.mask) && s' == s)
      && (out.Done? || s' == s || (f.LostReply? && !AnyRefused(env, req.key, req.mask) && s' == taken))
  {
  }

  function AtEntry(dry: bool, n: nat): Run {
    Run(dry, n, Reading, false)
  }

  lemma BucketDiff(it: Item, r: Resource)
    requires it.BucketItem? && Fits(it, r)
    ensures Diff(it, r) == if BucketDrifts(r.bucket, it.bucket, VersioningPath) then [VersioningPath] else []
  {
  }

  lemma FollowedIsReachable(env: Env, items: seq<Item>, s: Store, dry: bool, faults: seq<Fault>)
    ensures Reachable(env, items, s, Solo(env, items, s, StartRun(dry), faults).0)
  {
    SoloIsExec(env, items, s, dry, faults);
    assert Reached(env, items, s, [dry], Alone(faults)).store == Solo(env, items, s, StartRun(dry), faults).0;
  }

  /** What following a run means for the store and the history. */
  lemma FollowedRun(env: Env, items: seq<Item>, o: Origin, now: View, run: Run)
    requires WellFormed(env, items) && o.run == StartRun(o.run.dry) && Follows(env, items, o, now, run)
    ensures Reachable(env, items, o.view.store, now.store)
    ensures o.view.history <= now.history
    ensures run.failed ==> !Quiet(now.history[|o.view.history|..])
  {
    var faults :| Play(env, items, o, faults) == (now, run);
    PlayIsSolo(env, items, o, faults);
    assert now.history[|o.view.history|..] == faults;
    FollowedIsReachable(env, items, o.view.store, run.dry, faults);
    if run.failed {
      QuietRunSucceeds(env, items, o.view.store, run.dry, faults);
    }
  }

  lemma DryRunEnds(env: Env, items: seq<Item>, s: Store, faults: seq<Fault>)
    ensures
      var end := Solo(env, items, s, StartRun(true), faults);
      && end.0 == s && end.1.dry
      && (Complete(items, end.1) ==>
            SoloTrace(env, items, s, StartRun(true), faults) == Previews(env, items, s))
  {
    DryRunPreviews(env, items, s, faults);
    assert items[..|items|] == items;
  }

  /** A dry run changes nothing; complete, it has previewed everything. */
  lemma FollowedDryRun(env: Env, items: seq<Item>, o: Origin, now: View, run: Run)
    requires o.run == StartRun(true) && Follows(env, items, o, now, run)
    ensures run.dry && now.store == o.view.store && now.calls == o.view.calls
    ensures Complete(items, run) ==> now.previews == o.view.previews + Previews(env, items, o.view.store)
  {
    var faults :| Play(env, items, o, faults) == (now, run);
    PlayIsSolo(env, items, o, faults);
    DryRunEnds(env, items, o.view.store, faults);
    assert o.view.calls + [] == o.view.calls;
  }

  /** Following is running alone. */
  lemma FollowedIsSolo(env: Env, items: seq<Item>, o: Origin, now: View, run: Run) returns (faults: seq<Fault>)
    requires Follows(env, items, o, now, run)
    ensures (now.store, run) == Solo(env, items, o.view.store, o.run, faults)
  {
    faults :| Play(env, items, o, faults) == (now, run);
    PlayIsSolo(env, items, o, faults);
  }

  /** A real run that completed has made exactly the planned calls and left the target store. */
  lemma FollowedRealRun(env: Env, items: seq<Item>, o: Origin, now: View, run: Run)
    requires WellFormed(env, items) && o.run == StartRun(false) && Follows(env, items, o, now, run)
    requires Complete(items, run)
    ensures now.store == TargetStore(env, items, o.view.store)
    ensures now.calls == o.view.calls + RunCalls(env, items, o.view.store)
  {
    var faults :| Play(env, items, o, faults) == (now, run);
    PlayIsSolo(env, items, o, faults);
    CompletedRun(env, items, o.view.store, faults);
  }

  // ----- the decision after a read, common to every kind of resource -----

  /** Give up, nothing to do, create, or update from what was read. */
  datatype Decision = Broken | Settled | ToCreate | ToUpdate(res: Resource, paths: seq<Path>)

  function Decide(out: Outcome, strategy: string, paths: seq<Path>, dryRun: bool): Decision {
    if out.NotFound? then (if dryRun then Settled else ToCreate)
    else if !out.Found? then Broken
    else if strategy == "create" || paths == [] || dryRun then Settled
    else ToUpdate(out.res, paths)
  }

  /** "Would create" and "Would update" lines. */
  function Announce(key: Key, out: Outcome, strategy: string, paths: seq<Path>, dryRun: bool): seq<Call> {
    if !dryRun then []
    else if out.NotFound? then [CreateCall(key)]
    else if out.Found? && strategy != "create" && paths != [] then [UpdateCall(key, paths)]
    else []
  }

  /** The decision is the one the run takes. */
  ghost predicate Decided(env: Env, items: seq<Item>, s: Store, run: Run, d: Decision, after: Run)
    requires run.idx < |items|
  {
    var it := items[run.idx];
    match d
    case Broken => after.failed
    case Settled => after == NextItem(run)
    case ToCreate => !run.dry && after == run.(phase := Creating)
    case ToUpdate(res, paths) =>
      && !run.dry && Fits(it, res) && paths != []
      && Lookup(s, KeyOf(env, it)) == Some(res)
      && after == run.(phase := Batching(Payload(env, it, res), paths))
  }

  lemma DecideFollows(
    env: Env, items: seq<Item>, o: Origin, before: View, now: View, run: Run, f: Fault, out: Outcome,
    strategy: string, paths: seq<Path>)
    requires Follows(env, items, o, before, run) && Active(items, run) && run.phase.Reading?
    requires items[run.idx].createOnly == (strategy == "create")
    requires now.history == before.history + [f]
    requires (now.store, out) == Answer(env, before.store, GetReq(KeyOf(env, items[run.idx])), f)
    requires now.calls == before.calls
    requires out.Found? ==> Fits(items[run.idx], out.res) && paths == Diff(items[run.idx], out.res)
    requires now.previews == before.previews + Announce(KeyOf(env, items[run.idx]), out, strategy, paths, run.dry)
    requires f.NoFault? || out.Fatal?
    ensures out.Found? ==> Fits(items[run.idx], out.res)
    ensures Follows(env, items, o, now, Next(env, items, run, out))
    ensures Decided(env, items, now.store, run, Decide(out, strategy, paths, run.dry), Next(env, items, run, out))
  {
    var it := items[run.idx];
    if run.dry && f.NoFault? {
      assert Announce(KeyOf(env, it), out, strategy, paths, run.dry)
          == PreviewOf(env, it, Lookup(before.store, KeyOf(env, it)));
    }
    FollowsStep(env, items, o, before, now, run, f, out);
  }

  /** The calls since `c0`: the whole mask, then the first `j` paths one by one. */
  ghost predicate SentUpTo(c0: seq<Call>, c: seq<Call>, m: Resource, paths: seq<Path>, j: nat)
    requires j <= |paths|
  {
    c == c0 + [UpdateCall(MessageKey(m), paths)] + Singles(MessageKey(m), paths[..j])
  }

  /** `s` is `s0` with the accepted paths of `mask`, and nothing else, written from `m`. */
  ghost predicate UpdatedTo(env: Env, it: Item, s0: Store, s: Store, m: Resource, mask: seq<Path>) {
    var o := Lookup(s0, MessageKey(m));
    && o.Some? && MessageKey(m) == KeyOf(env, it)
    && s == Put(s0, MessageKey(m), Apply(o.value, Stored(env, m), Accepted(env, it, mask)))
  }

  /** What befell the latest call. */
  function LastFault(v: View): Fault {
    if v.history == [] then NoFault else v.history[|v.history| - 1]
  }

  /** Stopped by the answer to the whole mask: nothing was applied, or all of it and the reply was lost. */
  ghost predicate CutOffAtBatch(env: Env, it: Item, v0: View, v: View, m: Resource, paths: seq<Path>) {
    && SentUpTo(v0.calls, v.calls, m, paths, 0)
    && (|| UpdatedTo(env, it, v0.store, v.store, m, [])
        || (LastFault(v).LostReply? && UpdatedTo(env, it, v0.store, v.store, m, paths)))
  }

  /** Stopped at the i-th single path: exactly the accepted paths before it were applied, and that one
      too only if the reply was lost. */
  ghost predicate CutOffAt(env: Env, it: Item, v0: View, v: View, m: Resource, paths: seq<Path>, i: nat)
    requires i < |paths|
  {
    && SentUpTo(v0.calls, v.calls, m, paths, i + 1)
    && (|| UpdatedTo(env, it, v0.store, v.store, m, paths[..i])
        || (LastFault(v).LostReply? && UpdatedTo(env, it, v0.store, v.store, m, paths[..i + 1])))
  }

  /** The whole mask, answered: nothing, everything, or refused. */
  lemma BatchEffect(env: Env, it: Item, s: Store, m: Resource, paths: seq<Path>, f: Fault)
    requires MessageKey(m) == KeyOf(env, it) && Lookup(s, MessageKey(m)).Some?
    requires |paths| > 0
    ensures
      var (s', out) := Answer(env, s, UpdateReq(MessageKey(m), m, paths), f);
      && UpdatedTo(env, it, s, s, m, paths[..0])
      && (out.Done? ==> UpdatedTo(env, it, s, s', m, paths) && Select(paths, RefusedTest(env, it)) == [])
      && (out.Unsupported? ==> s' == s)
      && (out.Unsupported? && |paths| == 1 ==>
            UpdatedTo(env, it, s, s', m, paths) && Select(paths, RefusedTest(env, it)) == paths)
      && (out.Done? || UpdatedTo(env, it, s, s', m, []) || (f.LostReply? && UpdatedTo(env, it, s, s', m, paths)))
  {
    var req := UpdateReq(MessageKey(m), m, paths);
    UpdateAnswer(env, s, req, f);
    assert paths[..0] == [];
    NoneTaken(env, it, s, m, []);
    if !AnyRefused(env, req.key, req.mask) {
      assert forall p :: p in paths ==> p !in Refused(env, it);
      AllTaken(env, it, s, m, paths);
    } else if |paths| == 1 {
      OnlyOne(paths);
      assert forall p :: p in paths ==> p in Refused(env, it);
      NoneTaken(env, it, s, m, paths);
    }
  }

  lemma OnlyOne(paths: seq<Path>)
    requires |paths| == 1
    ensures forall p :: p in paths <==> p == paths[0]
  {
  }

  lemma NoneTaken(env: Env, it: Item, s: Store, m: Resource, paths: seq<Path>)
    requires MessageKey(m) == KeyOf(env, it) && Lookup(s, MessageKey(m)).Some?
    requires forall p :: p in paths ==> p in Refused(env, it)
    ensures UpdatedTo(env, it, s, s, m, paths) && Select(paths, RefusedTest(env, it)) == paths
  {
    var r := Lookup(s, MessageKey(m)).value;
    SelectNone(paths, AcceptedTest(env, it));
    SelectAll(paths, RefusedTest(env, it));
    ApplyNothing(r, Stored(env, m));
    PutSame(s, MessageKey(m), r);
  }

  lemma AllTaken(env: Env, it: Item, s: Store, m: Resource, paths: seq<Path>)
    requires MessageKey(m) == KeyOf(env, it) && Lookup(s, MessageKey(m)).Some?
    requires forall p :: p in paths ==> p !in Refused(env, it)
    ensures UpdatedTo(env, it, s, Put(s, MessageKey(m), Apply(Lookup(s, MessageKey(m)).value, Stored(env, m), paths)), m, paths)
    ensures Select(paths, RefusedTest(env, it)) == []
  {
    SelectAll(paths, AcceptedTest(env, it));
    SelectNone(paths, RefusedTest(env, it));
  }

  /** One path on its own, answered. */
  lemma SingleEffect(env: Env, it: Item, s0: Store, s: Store, m: Resource, paths: seq<Path>, i: nat, f: Fault)
    requires i < |paths| && UpdatedTo(env, it, s0, s, m, paths[..i])
    ensures
      var (s', out) := Answer(env, s, UpdateReq(MessageKey(m), m, [paths[i]]), f);
      && (out.Done? ==> UpdatedTo(env, it, s0, s', m, paths[..i + 1]) && paths[i] !in Refused(env, it))
      && (out.Unsupported? ==> UpdatedTo(env, it, s0, s', m, paths[..i + 1]) && paths[i] in Refused(env, it))
      && (out.Done? || UpdatedTo(env, it, s0, s', m, paths[..i]) || (f.LostReply? && UpdatedTo(env, it, s0, s', m, paths[..i + 1])))
  {
    var k, p := MessageKey(m), paths[i];
    var r := Lookup(s0, k).value;
    var req := UpdateReq(k, m, [p]);
    var sent := Accepted(env, it, paths[..i]);
    UpdateAnswer(env, s, req, f);
    SelectStep(paths, AcceptedTest(env, it), i);
    assert req.mask[0] == p;
    if p in Refused(env, it) {
      assert AnyRefused(env, req.key, req.mask);
      assert sent + [] == sent;
    } else {
      assert !AnyRefused(env, req.key, req.mask);
      ApplyMore(r, Stored(env, m), sent, p);
      PutTwice(s0, k, Apply(r, Stored(env, m), sent), Apply(r, Stored(env, m), sent + [p]));
    }
  }
}
