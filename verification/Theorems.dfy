/** What the provisioner promises of a config its validator accepts, whatever the endpoint refuses and
    wherever calls fail. */
module Theorems {
  import opened Client
  import opened Wire
  import opened Resources
  import opened Algebra
  import opened Machine
  import opened Guarantees
  import opened Additivity
  import opened Trace
  import opened Repetition
  import opened Defaulting
  import opened Durations
  import opened Config
  import opened Build

  /** Concurrent runs do not fight: as soon as one real run is through, the store is what one run alone
      would have made of the original store, whatever the others hold in flight. */
  lemma RunsDoNotFight(
    env: Env, goParse: GoParser, cfg: Config, origin: Store, modes: seq<bool>, schedule: seq<Event>, i: nat)
    requires ValidConfig(goParse, cfg) && i < |modes|
    requires
      var run := Reached(env, WorkList(goParse, cfg), origin, modes, schedule).runs[i];
      !run.dry && Complete(WorkList(goParse, cfg), run)
    ensures
      var items := WorkList(goParse, cfg);
      forall faults ::
        Complete(items, Solo(env, items, origin, StartRun(false), faults).1) ==>
          Reached(env, items, origin, modes, schedule).store == Solo(env, items, origin, StartRun(false), faults).0
  {
    var items := WorkList(goParse, cfg);
    ValidatedWorkListIsWellFormed(env, goParse, cfg);
    ConcurrentRunsConverge(env, items, origin, modes, schedule, i);
    forall faults | Complete(items, Solo(env, items, origin, StartRun(false), faults).1)
      ensures Solo(env, items, origin, StartRun(false), faults).0 == TargetStore(env, items, origin)
    {
      CompletedRun(env, items, origin, faults);
    }
  }

  /** A crowd of runs stopped anywhere, then one quiet run: the same store as that quiet run alone, from
      the original store. */
  lemma StoppedRunsResume(
    env: Env, goParse: GoParser, cfg: Config, origin: Store, middle: Store, faults: seq<Fault>)
    requires ValidConfig(goParse, cfg) && Reachable(env, WorkList(goParse, cfg), origin, middle)
    requires Quiet(faults) && |faults| >= 11 * |WorkList(goParse, cfg)|
    ensures
      var items := WorkList(goParse, cfg);
      && Complete(items, Solo(env, items, middle, StartRun(false), faults).1)
      && Solo(env, items, middle, StartRun(false), faults).0 == Solo(env, items, origin, StartRun(false), faults).0
  {
    var items := WorkList(goParse, cfg);
    ValidatedWorkListIsWellFormed(env, goParse, cfg);
    TargetIsStable(env, items, origin, middle);
    QuietRunCompletes(env, items, middle, false, faults);
    CompletedRun(env, items, middle, faults);
    QuietRunCompletes(env, items, origin, false, faults);
    CompletedRun(env, items, origin, faults);
  }

  /** No entry declares a policy with a zero in it. */
  predicate NoZeros(items: seq<Item>) {
    forall j :: 0 <= j < |items| && items[j].SubItem? ==> !ZeroDeadLetter(items[j].sub) && !ZeroBackoff(items[j].sub)
  }

  /** After any number of quiet runs, one at least, a further one changes nothing and sends exactly the
      paths that recur: only refused ones where no default gets in, and no mutating call at all on an
      endpoint that supports every path and keeps every value the config declares. */
  lemma FurtherRunsHaveNothingToDo(
    env: Env, goParse: GoParser, cfg: Config, origin: Store, runs: seq<seq<Fault>>, next: seq<Fault>)
    requires ValidConfig(goParse, cfg) && runs != [] && LongEnough(WorkList(goParse, cfg), runs)
    requires Quiet(next) && |next| >= 11 * |WorkList(goParse, cfg)|
    ensures
      var items := WorkList(goParse, cfg);
      var before := AfterRuns(env, items, origin, runs);
      var calls := SoloTrace(env, items, before, StartRun(false), next);
      && Solo(env, items, before, StartRun(false), next).0 == before
      && (forall j, p :: 0 <= j < |items| ==>
            (Sends(calls, KeyOf(env, items[j]), p) <==>
             Recurs(env, items[j], Lookup(origin, KeyOf(env, items[j])), p)))
      && (env.defaults.None? ==> forall i :: 0 <= i < |calls| ==> OnlyRefused(env, calls[i]))
      && (env.refusedTopic == {} && env.refusedSub == {} && (env.defaults.None? || NoZeros(items)) ==> calls == [])
  {
    var items := WorkList(goParse, cfg);
    ValidatedWorkListIsWellFormed(env, goParse, cfg);
    AfterRunsIsTarget(env, items, origin, runs);
    SecondRunIsIdle(env, items, origin, next);
  }

  /** On an endpoint that fills in defaults, the policies of a subscription under strategy "update" are
      sent again in every further run exactly when the config declares a zero in them. */
  lemma ZerosAreSentForever(
    env: Env, goParse: GoParser, cfg: Config, origin: Store, runs: seq<seq<Fault>>, next: seq<Fault>, i: nat, j: nat)
    requires ValidConfig(goParse, cfg) && runs != [] && LongEnough(WorkList(goParse, cfg), runs)
    requires Quiet(next) && |next| >= 11 * |WorkList(goParse, cfg)|
    requires env.defaults.Some? && HeldStore(env, origin)
    requires i < |cfg.topics| && j < |cfg.topics[i].subscriptions|
    requires !CreateOnly(cfg.topics[i].subscriptions[j].strategy, cfg.strategy)
    ensures
      var items, sub := WorkList(goParse, cfg), cfg.topics[i].subscriptions[j];
      var k := SubKey(SubscriptionPath(env.project, sub.name));
      var calls := SoloTrace(env, items, AfterRuns(env, items, origin, runs), StartRun(false), next);
      && (DeadLetterPath !in env.refusedSub ==>
            (Sends(calls, k, DeadLetterPath) <==> sub.deadLetter.Some? && sub.deadLetter.value.maxDeliveryAttempts == 0))
      && (RetryPath !in env.refusedSub ==>
            (Sends(calls, k, RetryPath) <==>
             && sub.retry.Some?
             && (|| ParseDuration(goParse, sub.retry.value.minimumBackoff) == Some(0)
                 || ParseDuration(goParse, sub.retry.value.maximumBackoff) == Some(0))))
  {
    var n := SubsBefore(goParse, cfg, i) + j;
    SubEntry(goParse, cfg, i, j);
    ValidatedWorkListIsWellFormed(env, goParse, cfg);
    ConvergesIffNonZero(env, WorkList(goParse, cfg), origin, runs, next, n);
    ZerosAsDeclared(goParse, cfg, i, j);
  }

  lemma ZerosAsDeclared(goParse: GoParser, cfg: Config, i: nat, j: nat)
    requires ValidConfig(goParse, cfg) && i < |cfg.topics| && j < |cfg.topics[i].subscriptions|
    ensures
      var sub := cfg.topics[i].subscriptions[j];
      var built := BuiltSub(goParse, cfg.topics[i].name, sub);
      && (ZeroDeadLetter(built) <==> sub.deadLetter.Some? && sub.deadLetter.value.maxDeliveryAttempts == 0)
      && (ZeroBackoff(built) <==>
          && sub.retry.Some?
          && (|| ParseDuration(goParse, sub.retry.value.minimumBackoff) == Some(0)
              || ParseDuration(goParse, sub.retry.value.maximumBackoff) == Some(0)))
  {
    assert TopicOk(goParse, cfg.topics[i]);
    assert SubOk(goParse, cfg.topics[i].subscriptions[j]);
  }

  /** Nothing that existed is lost or changed beyond what the config sets, in any execution. */
  lemma RunsAreAdditive(env: Env, goParse: GoParser, cfg: Config, origin: Store, s: Store, k: Key)
    requires ValidConfig(goParse, cfg) && Reachable(env, WorkList(goParse, cfg), origin, s)
    requires Lookup(origin, k).Some?
    ensures Lookup(s, k).Some?
    ensures
      var items := WorkList(goParse, cfg);
      && (!Named(env, items, k) ==> Lookup(s, k) == Lookup(origin, k))
      && forall i :: 0 <= i < |items| && KeyOf(env, items[i]) == k ==>
           Kept(items[i], Lookup(origin, k).value, Lookup(s, k).value)
  {
    ValidatedWorkListIsWellFormed(env, goParse, cfg);
    EveryExecutionIsAdditive(env, WorkList(goParse, cfg), origin, s, k);
  }

  /** Every call in flight refers only to topics that already exist, so a strict endpoint never turns
      one down: a run fails only where a fault strikes one of its own calls. */
  lemma ReferencesAreSafe(
    env: Env, goParse: GoParser, cfg: Config, origin: Store, modes: seq<bool>, schedule: seq<Event>, i: nat)
    requires ValidConfig(goParse, cfg) && i < |modes|
    ensures
      var items := WorkList(goParse, cfg);
      var sys := Reached(env, items, origin, modes, schedule);
      && (Active(items, sys.runs[i]) ==> RefersToExisting(sys.store, RequestOf(env, items, sys.runs[i])))
      && (sys.runs[i].failed ==>
            exists n :: 0 <= n < |schedule| && schedule[n].who == i && !schedule[n].fault.NoFault?)
  {
    var items := WorkList(goParse, cfg);
    var sys := Reached(env, items, origin, modes, schedule);
    ValidatedWorkListIsWellFormed(env, goParse, cfg);
    if Active(items, sys.runs[i]) {
      ReferencesExist(env, items, origin, modes, schedule, i);
    }
    if sys.runs[i].failed {
      OnlyFaultsFail(env, items, origin, modes, schedule, i);
    }
  }

  /** What a dry run previews is the first call per resource of a real run from the same store. */
  lemma DryRunTellsTheTruth(env: Env, goParse: GoParser, cfg: Config, origin: Store, faults: seq<Fault>)
    requires ValidConfig(goParse, cfg) && Quiet(faults) && |faults| >= 11 * |WorkList(goParse, cfg)|
    ensures
      var items := WorkList(goParse, cfg);
      && Solo(env, items, origin, StartRun(true), faults).0 == origin
      && SoloTrace(env, items, origin, StartRun(true), faults)
         == FirstPerKey(SoloTrace(env, items, origin, StartRun(false), faults))
  {
    ValidatedWorkListIsWellFormed(env, goParse, cfg);
    DryRunIsFaithful(env, WorkList(goParse, cfg), origin, faults);
  }
}
