/** Provisioner runs as a state machine over the endpoint's store: one API call is one step.

    The endpoint behaves as the repository's own fake does: a whole mask is validated before
    anything is touched, each masked field is replaced wholesale, and creating what exists is
    refused.  It may besides fill defaults into what a call writes.  Any call may instead fail
    fatally, before or after it took effect. */
module Machine {
  import opened Client
  import opened Wire
  import opened Resources

  // ----- the store -----

  /** Topics and subscriptions are keyed by qualified path, buckets by name. */
  datatype Store = Store(
    topics: map<string, ProtoTopic>,
    subs: map<string, ProtoSubscription>,
    buckets: map<string, Bucket>)

  predicate KindOfKey(k: Key, r: Resource) {
    && (k.TopicKey? <==> r.TopicRes?)
    && (k.SubKey? <==> r.SubRes?)
  }

  function Lookup(s: Store, k: Key): (o: Option<Resource>)
    ensures o.Some? ==> KindOfKey(k, o.value)
  {
    match k
    case TopicKey(path) => if path in s.topics then Some(TopicRes(s.topics[path])) else None
    case SubKey(path) => if path in s.subs then Some(SubRes(s.subs[path])) else None
    case BucketKey(name) => if name in s.buckets then Some(BucketRes(s.buckets[name])) else None
  }

  function Put(s: Store, k: Key, r: Resource): (s': Store)
    requires KindOfKey(k, r)
    ensures forall k' :: Lookup(s', k') == if k' == k then Some(r) else Lookup(s, k')
  {
    match k
    case TopicKey(path) => s.(topics := s.topics[path := r.topic])
    case SubKey(path) => s.(subs := s.subs[path := r.sub])
    case BucketKey(name) => s.(buckets := s.buckets[name := r.bucket])
  }

  lemma SameLookups(a: Store, b: Store)
    requires forall k :: Lookup(a, k) == Lookup(b, k)
    ensures a == b
  {
    forall path: string
      ensures path in a.topics <==> path in b.topics
      ensures path in a.topics ==> a.topics[path] == b.topics[path]
      ensures path in a.subs <==> path in b.subs
      ensures path in a.subs ==> a.subs[path] == b.subs[path]
      ensures path in a.buckets <==> path in b.buckets
      ensures path in a.buckets ==> a.buckets[path] == b.buckets[path]
    {
      assert Lookup(a, TopicKey(path)) == Lookup(b, TopicKey(path));
      assert Lookup(a, SubKey(path)) == Lookup(b, SubKey(path));
      assert Lookup(a, BucketKey(path)) == Lookup(b, BucketKey(path));
    }
    assert a.topics == b.topics && a.subs == b.subs && a.buckets == b.buckets;
  }

  // ----- the endpoint -----

  datatype Request =
    | GetReq(key: Key)
    | CreateReq(key: Key, message: Resource)
    | UpdateReq(key: Key, message: Resource, mask: seq<Path>)

  datatype Outcome = Found(res: Resource) | Done | NotFound | AlreadyExists | Unsupported | Fatal

  predicate ProperRequest(req: Request) {
    req.GetReq? || KindOfKey(req.key, req.message)
  }

  /** The topics a message refers to, when the call would write those references. */
  predicate TopicsExist(s: Store, message: Resource, writesTopic: bool, writesDeadLetter: bool) {
    message.SubRes? ==>
      && (writesTopic ==> message.sub.topic in s.topics)
      && (writesDeadLetter && message.sub.deadLetter.Some? ==> message.sub.deadLetter.value.topic in s.topics)
  }

  predicate RefersToExisting(s: Store, req: Request) {
    match req
    case GetReq(_) => true
    case CreateReq(_, m) => TopicsExist(s, m, true, true)
    case UpdateReq(_, m, mask) => TopicsExist(s, m, false, DeadLetterPath in mask)
  }

  /** One call, answered without a fault. */
  function Serve(env: Env, s: Store, req: Request): (Store, Outcome)
    requires ProperRequest(req)
  {
    match req
    case GetReq(k) =>
      (s, if Lookup(s, k).Some? then Found(Lookup(s, k).value) else NotFound)
    case CreateReq(k, m) =>
      if Lookup(s, k).Some? then (s, AlreadyExists)
      else if env.strict && !RefersToExisting(s, req) then (s, NotFound)
      else (Put(s, k, Stored(env, m)), Done)
    case UpdateReq(k, m, mask) =>
      if AnyRefused(env, k, mask) then (s, Unsupported)
      else if Lookup(s, k).None? then (s, NotFound)
      else if env.strict && !RefersToExisting(s, req) then (s, NotFound)
      else (Put(s, k, Apply(Lookup(s, k).value, Stored(env, m), mask)), Done)
  }

  /** A fault strikes a call before it reaches the endpoint or after it took effect. */
  datatype Fault = NoFault | LostRequest | LostReply

  function Answer(env: Env, s: Store, req: Request, f: Fault): (Store, Outcome)
    requires ProperRequest(req)
  {
    match f
    case NoFault => Serve(env, s, req)
    case LostRequest => (s, Fatal)
    case LostReply => (Serve(env, s, req).0, Fatal)
  }

  // ----- one run -----

  datatype Phase =
    | Reading
    | Creating
    | Batching(message: Resource, mask: seq<Path>)
    | Splitting(message: Resource, mask: seq<Path>, pos: nat)

  /** A run is busy with entry `idx` of the work list; it is over when past the end or failed. */
  datatype Run = Run(dry: bool, idx: nat, phase: Phase, failed: bool)

  predicate Active(items: seq<Item>, run: Run) {
    !run.failed && run.idx < |items|
  }

  predicate Complete(items: seq<Item>, run: Run) {
    !run.failed && run.idx >= |items|
  }

  predicate ProperPhase(items: seq<Item>, run: Run) {
    match run.phase
    case Reading => true
    case Creating => !run.dry && run.idx < |items|
    case Batching(m, mask) => !run.dry && run.idx < |items| && Fits(items[run.idx], m) && |mask| > 0
    case Splitting(m, mask, pos) => !run.dry && run.idx < |items| && Fits(items[run.idx], m) && pos < |mask|
  }

  function RequestOf(env: Env, items: seq<Item>, run: Run): (req: Request)
    requires Active(items, run) && ProperPhase(items, run)
    ensures ProperRequest(req)
  {
    var it := items[run.idx];
    match run.phase
    case Reading => GetReq(KeyOf(env, it))
    case Creating => CreateReq(KeyOf(env, it), Created(env, it))
    case Batching(m, mask) => UpdateReq(KeyOf(env, it), m, mask)
    case Splitting(m, mask, pos) => UpdateReq(KeyOf(env, it), m, [mask[pos]])
  }

  function NextItem(run: Run): Run {
    run.(idx := run.idx + 1, phase := Reading)
  }

  /** What the run does with the answer. */
  function Next(env: Env, items: seq<Item>, run: Run, out: Outcome): (run': Run)
    requires Active(items, run) && ProperPhase(items, run)
    requires out.Found? ==> Fits(items[run.idx], out.res)
    ensures ProperPhase(items, run')
  {
    var it := items[run.idx];
    match run.phase
    case Reading =>
      if out.NotFound? then
        if run.dry then NextItem(run) else run.(phase := Creating)
      else if out.Found? then
        if it.createOnly || Diff(it, out.res) == [] || run.dry then NextItem(run)
        else run.(phase := Batching(Payload(env, it, out.res), Diff(it, out.res)))
      else run.(failed := true)
    case Creating =>
      if out.Done? || out.AlreadyExists? then NextItem(run) else run.(failed := true)
    case Batching(m, mask) =>
      if out.Done? then NextItem(run)
      else if out.Unsupported? then
        if |mask| == 1 then NextItem(run) else run.(phase := Splitting(m, mask, 0))
      else run.(failed := true)
    case Splitting(m, mask, pos) =>
      if out.Done? || out.Unsupported? then
        if pos + 1 < |mask| then run.(phase := Splitting(m, mask, pos + 1)) else NextItem(run)
      else run.(failed := true)
  }

  /** One step of one run; a run that is over does not move. */
  function Advance(env: Env, items: seq<Item>, s: Store, run: Run, f: Fault): (r: (Store, Run))
    requires ProperPhase(items, run)
    ensures ProperPhase(items, r.1)
  {
    if !Active(items, run) then (s, run)
    else
      var answer := Answer(env, s, RequestOf(env, items, run), f);
      (answer.0, Next(env, items, run, answer.1))
  }

  /** An update that the endpoint takes: the mask is accepted, the resource and what the
      message refers to exist. */
  predicate Taken(env: Env, s: Store, req: Request)
    requires ProperRequest(req) && req.UpdateReq?
  {
    !AnyRefused(env, req.key, req.mask) && Lookup(s, req.key).Some? && RefersToExisting(s, req)
  }

  /** The run once the stretch of its mask up to `end` is dealt with. */
  function PastPath(run: Run, m: Resource, mask: seq<Path>, end: nat): Run {
    if end < |mask| then run.(phase := Splitting(m, mask, end)) else NextItem(run)
  }

  lemma AdvanceRead(env: Env, items: seq<Item>, s: Store, run: Run, r: Resource)
    requires Active(items, run) && run.phase.Reading? && Lookup(s, KeyOf(env, items[run.idx])) == Some(r)
    ensures
      var it := items[run.idx];
      Advance(env, items, s, run, NoFault) ==
      (s,
       if it.createOnly || Diff(it, r) == [] || run.dry then NextItem(run)
       else run.(phase := Batching(Payload(env, it, r), Diff(it, r))))
  {
  }

  lemma AdvanceBatch(env: Env, items: seq<Item>, s: Store, run: Run)
    requires Active(items, run) && ProperPhase(items, run) && run.phase.Batching?
    ensures
      var req := RequestOf(env, items, run);
      var step := Advance(env, items, s, run, NoFault);
      && (Taken(env, s, req) ==>
            step == (Put(s, req.key, Apply(Lookup(s, req.key).value, Stored(env, req.message), req.mask)), NextItem(run)))
      && (AnyRefused(env, req.key, req.mask) ==>
            step == (s, PastPath(run, req.message, req.mask, if |req.mask| == 1 then 1 else 0)))
  {
  }

  lemma AdvanceSplit(env: Env, items: seq<Item>, s: Store, run: Run)
    requires Active(items, run) && ProperPhase(items, run) && run.phase.Splitting?
    ensures
      var req := RequestOf(env, items, run);
      var step := Advance(env, items, s, run, NoFault);
      var past := PastPath(run, run.phase.message, run.phase.mask, run.phase.pos + 1);
      && (Taken(env, s, req) ==>
            step == (Put(s, req.key, Apply(Lookup(s, req.key).value, Stored(env, req.message), req.mask)), past))
      && (AnyRefused(env, req.key, req.mask) ==> step == (s, past))
  {
  }

  function StartRun(dry: bool): Run {
    Run(dry, 0, Reading, false)
  }

  // ----- any number of runs -----

  datatype System = System(store: Store, runs: seq<Run>)

  /** Which run moves, and what befalls its call. */
  datatype Event = Event(who: nat, fault: Fault)

  predicate Proper(items: seq<Item>, sys: System) {
    forall i :: 0 <= i < |sys.runs| ==> ProperPhase(items, sys.runs[i])
  }

  function Start(s: Store, modes: seq<bool>): (sys: System)
    ensures |sys.runs| == |modes|
  {
    System(s, seq(|modes|, i requires 0 <= i < |modes| => StartRun(modes[i])))
  }

  function Step(env: Env, items: seq<Item>, sys: System, e: Event): (sys': System)
    requires Proper(items, sys)
    ensures Proper(items, sys') && |sys'.runs| == |sys.runs|
  {
    if e.who >= |sys.runs| then sys
    else
      var r := Advance(env, items, sys.store, sys.runs[e.who], e.fault);
      System(r.0, sys.runs[e.who := r.1])
  }

  /** The system after a whole schedule of steps. */
  function Exec(env: Env, items: seq<Item>, sys: System, schedule: seq<Event>): (sys': System)
    requires Proper(items, sys)
    ensures Proper(items, sys') && |sys'.runs| == |sys.runs|
  {
    if schedule == [] then sys
    else Step(env, items, Exec(env, items, sys, schedule[..|schedule| - 1]), schedule[|schedule| - 1])
  }

  // ----- work lists -----

  predicate DeclaredBefore(items: seq<Item>, i: nat, topic: string)
    requires i <= |items|
  {
    exists j :: 0 <= j < i && items[j].TopicItem? && items[j].topic.name == topic
  }

  predicate DistinctKeys(env: Env, items: seq<Item>) {
    forall i, j :: 0 <= i < j < |items| ==> KeyOf(env, items[i]) != KeyOf(env, items[j])
  }

  /** What a validated config guarantees of the work list it gives rise to. */
  predicate WellFormed(env: Env, items: seq<Item>) {
    && (forall i :: 0 <= i < |items| ==> Sound(items[i]))
    && DistinctKeys(env, items)
    && (forall i :: 0 <= i < |items| && items[i].SubItem? ==>
          DeclaredBefore(items, i, items[i].sub.topic)
          && (items[i].sub.deadLetter.Some? ==> DeclaredBefore(items, i, items[i].sub.deadLetter.value.topic)))
  }

  predicate Named(env: Env, items: seq<Item>, k: Key) {
    exists i :: 0 <= i < |items| && KeyOf(env, items[i]) == k
  }

  /** The store with every entry at its target and everything else as it was. */
  function TargetStore(env: Env, items: seq<Item>, s: Store): Store {
    if items == [] then s
    else
      var rest, it := items[..|items| - 1], items[|items| - 1];
      var k := KeyOf(env, it);
      Put(TargetStore(env, rest, s), k, Target(env, it, Lookup(s, k)))
  }

  /** What `TargetStore` means, resource by resource. */
  lemma {:induction false} TargetStoreLookup(env: Env, items: seq<Item>, s: Store)
    requires DistinctKeys(env, items)
    ensures forall i :: 0 <= i < |items| ==>
              var k := KeyOf(env, items[i]);
              Lookup(TargetStore(env, items, s), k) == Some(Target(env, items[i], Lookup(s, k)))
    ensures forall k {:trigger Named(env, items, k)} :: !Named(env, items, k) ==> Lookup(TargetStore(env, items, s), k) == Lookup(s, k)
  {
    if items != [] {
      var n := |items| - 1;
      var rest := items[..n];
      TargetStoreLookup(env, rest, s);
      forall i | 0 <= i < |items|
        ensures
          var k := KeyOf(env, items[i]);
          Lookup(TargetStore(env, items, s), k) == Some(Target(env, items[i], Lookup(s, k)))
      {
        if i < n {
          assert rest[i] == items[i];
        }
      }
      forall k | !Named(env, items, k)
        ensures Lookup(TargetStore(env, items, s), k) == Lookup(s, k)
      {
        assert KeyOf(env, items[n]) != k;
        forall i | 0 <= i < |rest|
          ensures KeyOf(env, rest[i]) != k
        {
          assert rest[i] == items[i];
        }
        assert !Named(env, rest, k);
      }
    }
  }
}
