/** What the store holds of a validated config once a real run is through, entry by entry, in terms of
    the config's own fields and of the stored ones. */
module Fulfilment {
  import opened Client
  import opened Wire
  import opened Resources
  import opened Algebra
  import opened Machine
  import opened Guarantees
  import opened Durations
  import opened Config
  import opened Build
  import opened Declared
  import opened Trace
  import opened Theorems

  /** The run numbered `i` of some crowd is real and complete, whatever the others are about. */
  ghost predicate CompleteIn(env: Env, items: seq<Item>, origin: Store, modes: seq<bool>, schedule: seq<Event>, i: nat) {
    && i < |modes|
    && var run := Reached(env, items, origin, modes, schedule).runs[i];
       !run.dry && Complete(items, run)
  }

  /** From `origin`, under some schedule of some runs, a real run of the config got through. */
  ghost predicate Through(env: Env, goParse: GoParser, cfg: Config, origin: Store, store: Store) {
    exists modes, schedule, i: nat ::
      && CompleteIn(env, WorkList(goParse, cfg), origin, modes, schedule, i)
      && Reached(env, WorkList(goParse, cfg), origin, modes, schedule).store == store
  }

  /** The config says that what exists under this strategy is left alone. */
  predicate LeaveExisting(own: string, global: string) {
    own == "create" || (own == "" && global == "create")
  }

  /** The endpoint puts a default in the place of a zero the config declares under this path. */
  predicate Overruled(env: Env, goParse: GoParser, sub: SubConfig, p: Path) {
    && env.defaults.Some?
    && (|| (p == DeadLetterPath && sub.deadLetter.Some? && sub.deadLetter.value.maxDeliveryAttempts == 0)
        || (p == RetryPath && sub.retry.Some? &&
            (|| ParseDuration(goParse, sub.retry.value.minimumBackoff) == Some(0)
             || ParseDuration(goParse, sub.retry.value.maximumBackoff) == Some(0))))
  }

  lemma EntryAtTarget(
    env: Env, goParse: GoParser, cfg: Config, origin: Store, store: Store, n: nat)
    requires ValidConfig(goParse, cfg) && Through(env, goParse, cfg, origin, store)
    requires n < |WorkList(goParse, cfg)|
    ensures
      var it := WorkList(goParse, cfg)[n];
      Sound(it) && Lookup(store, KeyOf(env, it)) == Some(Target(env, it, Lookup(origin, KeyOf(env, it))))
  {
    var items := WorkList(goParse, cfg);
    ValidatedWorkListIsWellFormed(env, goParse, cfg);
    var modes, schedule, i: nat :| CompleteIn(env, items, origin, modes, schedule, i)
      && Reached(env, items, origin, modes, schedule).store == store;
    ConcurrentRunsConverge(env, items, origin, modes, schedule, i);
    TargetStoreLookup(env, items, origin);
  }

  lemma SubAtTarget(env: Env, goParse: GoParser, cfg: Config, origin: Store, store: Store, i: nat, j: nat)
    requires ValidConfig(goParse, cfg) && Through(env, goParse, cfg, origin, store)
    requires i < |cfg.topics| && j < |cfg.topics[i].subscriptions|
    ensures
      var it := SubItemOf(goParse, cfg, cfg.topics[i].name, cfg.topics[i].subscriptions[j]);
      Lookup(store, KeyOf(env, it)) == Some(Target(env, it, Lookup(origin, KeyOf(env, it))))
  {
    SubEntry(goParse, cfg, i, j);
    EntryAtTarget(env, goParse, cfg, origin, store, SubsBefore(goParse, cfg, i) + j);
  }

  lemma BucketAtTarget(env: Env, goParse: GoParser, cfg: Config, origin: Store, store: Store, i: nat)
    requires ValidConfig(goParse, cfg) && Through(env, goParse, cfg, origin, store) && i < |cfg.buckets|
    ensures
      var it := BucketItemOf(cfg, cfg.buckets[i]);
      Lookup(store, KeyOf(env, it)) == Some(Target(env, it, Lookup(origin, KeyOf(env, it))))
  {
    BucketEntry(goParse, cfg, i);
    EntryAtTarget(env, goParse, cfg, origin, store, SubsBefore(goParse, cfg, |cfg.topics|) + i);
  }

  // ----- subscriptions -----

  lemma OverruledMeaning(env: Env, goParse: GoParser, cfg: Config, topic: string, sub: SubConfig, p: Path)
    requires SubOk(goParse, sub)
    ensures Defaulted(env, SubItemOf(goParse, cfg, topic, sub), p) <==> Overruled(env, goParse, sub, p)
  {
  }

  lemma NamesAreSlashFree(goParse: GoParser, cfg: Config, i: nat, j: nat)
    requires ValidConfig(goParse, cfg) && i < |cfg.topics| && j < |cfg.topics[i].subscriptions|
    ensures
      var sub := cfg.topics[i].subscriptions[j];
      && TopicOk(goParse, cfg.topics[i]) && SubOk(goParse, sub) && '/' !in cfg.topics[i].name
      && (sub.deadLetter.Some? ==> '/' !in sub.deadLetter.value.topic)
  {
    var sub := cfg.topics[i].subscriptions[j];
    assert TopicOk(goParse, cfg.topics[i]);
    assert SubOk(goParse, sub);
    assert TopicNames(cfg.topics)[i] == cfg.topics[i].name;
    TopicNameIsGood(goParse, cfg, cfg.topics[i].name);
    if sub.deadLetter.Some? {
      TopicNameIsGood(goParse, cfg, sub.deadLetter.value.topic);
    }
  }

  /** A subscription of the config before and after.  A missing one is created as written; one that
      exists is left alone under "create"; of any other, a setting holds exactly if it held before or
      the endpoint takes and keeps what the config writes. */
  ghost predicate SubFulfilled(
    env: Env, goParse: GoParser, cfg: Config, topic: string, sub: SubConfig,
    before: Option<ProtoSubscription>, after: ProtoSubscription)
  {
    match before
    case None =>
      && (exists m :: SubSent(env.project, goParse, topic, sub, m) && after == StoredSub(env, m))
      && (forall p :: SubHolds(goParse, sub, after, p) <==> !Overruled(env, goParse, sub, p))
    case Some(m) =>
      if LeaveExisting(sub.strategy, cfg.strategy) then after == m
      else
        forall p :: SubHolds(goParse, sub, after, p) <==>
                    SubHolds(goParse, sub, m, p) || !(p in env.refusedSub || Overruled(env, goParse, sub, p))
  }

  lemma NewSubscription(env: Env, goParse: GoParser, cfg: Config, topic: string, sub: SubConfig)
    requires SubOk(goParse, sub) && '/' !in topic && (sub.deadLetter.Some? ==> '/' !in sub.deadLetter.value.topic)
    ensures SubFulfilled(env, goParse, cfg, topic, sub, None, Initial(env, SubItemOf(goParse, cfg, topic, sub)).sub)
  {
    var it := SubItemOf(goParse, cfg, topic, sub);
    var m := Initial(env, it).sub;
    ValidatedBuildIsLossless(goParse, topic, sub);
    SubscriptionAsWritten(env, goParse, cfg, topic, sub);
    assert m == StoredSub(env, Created(env, it).sub);
    forall p
      ensures SubHolds(goParse, sub, m, p) <==> !Overruled(env, goParse, sub, p)
    {
      SubSilenceIsAgreement(goParse, sub, topic, m, p);
      OverruledMeaning(env, goParse, cfg, topic, sub, p);
      InitialDrift(env, it, p);
    }
  }

  lemma UpdatedSetting(
    env: Env, goParse: GoParser, cfg: Config, topic: string, sub: SubConfig, m: ProtoSubscription, p: Path)
    requires SubOk(goParse, sub) && '/' !in topic && (sub.deadLetter.Some? ==> '/' !in sub.deadLetter.value.topic)
    requires !LeaveExisting(sub.strategy, cfg.strategy)
    ensures
      SubHolds(goParse, sub, Target(env, SubItemOf(goParse, cfg, topic, sub), Some(SubRes(m))).sub, p) <==>
      SubHolds(goParse, sub, m, p) || !(p in env.refusedSub || Overruled(env, goParse, sub, p))
  {
    var it := SubItemOf(goParse, cfg, topic, sub);
    ValidatedBuildIsLossless(goParse, topic, sub);
    CreateOnlyMeaning(sub.strategy, cfg.strategy);
    SubSilenceIsAgreement(goParse, sub, topic, Target(env, it, Some(SubRes(m))).sub, p);
    SubSilenceIsAgreement(goParse, sub, topic, m, p);
    OverruledMeaning(env, goParse, cfg, topic, sub, p);
    TargetDrift(env, it, Some(SubRes(m)), p);
  }

  lemma FoundSubscription(
    env: Env, goParse: GoParser, cfg: Config, topic: string, sub: SubConfig, m: ProtoSubscription)
    requires SubOk(goParse, sub) && '/' !in topic && (sub.deadLetter.Some? ==> '/' !in sub.deadLetter.value.topic)
    ensures
      var it := SubItemOf(goParse, cfg, topic, sub);
      SubFulfilled(env, goParse, cfg, topic, sub, Some(m), Target(env, it, Some(SubRes(m))).sub)
  {
    var it := SubItemOf(goParse, cfg, topic, sub);
    CreateOnlyMeaning(sub.strategy, cfg.strategy);
    if !LeaveExisting(sub.strategy, cfg.strategy) {
      forall p
        ensures
          SubHolds(goParse, sub, Target(env, it, Some(SubRes(m))).sub, p) <==>
          SubHolds(goParse, sub, m, p) || !(p in env.refusedSub || Overruled(env, goParse, sub, p))
      {
        UpdatedSetting(env, goParse, cfg, topic, sub, m, p);
      }
    }
  }

  /** Once a real run is through, every subscription of the config is there and fulfils it. */
  lemma SubscriptionsHoldTheConfig(env: Env, goParse: GoParser, cfg: Config, origin: Store, store: Store, i: nat, j: nat)
    requires ValidConfig(goParse, cfg) && Through(env, goParse, cfg, origin, store)
    requires i < |cfg.topics| && j < |cfg.topics[i].subscriptions|
    ensures
      var topic, sub := cfg.topics[i].name, cfg.topics[i].subscriptions[j];
      var path := SubscriptionPath(env.project, sub.name);
      && path in store.subs
      && SubFulfilled(env, goParse, cfg, topic, sub,
                      if path in origin.subs then Some(origin.subs[path]) else None, store.subs[path])
  {
    var topic, sub := cfg.topics[i].name, cfg.topics[i].subscriptions[j];
    var path := SubscriptionPath(env.project, sub.name);
    NamesAreSlashFree(goParse, cfg, i, j);
    SubAtTarget(env, goParse, cfg, origin, store, i, j);
    if path in origin.subs {
      FoundSubscription(env, goParse, cfg, topic, sub, origin.subs[path]);
    } else {
      NewSubscription(env, goParse, cfg, topic, sub);
    }
  }

  // ----- topics -----

  /** The same for topics, which no default touches. */
  predicate TopicFulfilled(
    env: Env, goParse: GoParser, cfg: Config, t: TopicConfig, before: Option<ProtoTopic>, after: ProtoTopic)
  {
    match before
    case None => TopicSent(env.project, goParse, t, after)
    case Some(m) =>
      if LeaveExisting(t.strategy, cfg.strategy) then after == m
      else
        forall p :: TopicHolds(goParse, t, after, p) <==> TopicHolds(goParse, t, m, p) || p !in env.refusedTopic
  }

  lemma FoundTopic(env: Env, goParse: GoParser, cfg: Config, t: TopicConfig, m: ProtoTopic)
    requires TopicOk(goParse, t)
    ensures
      var it := TopicItemOf(goParse, cfg, t);
      TopicFulfilled(env, goParse, cfg, t, Some(m), Target(env, it, Some(TopicRes(m))).topic)
  {
    var it := TopicItemOf(goParse, cfg, t);
    ValidatedTopicIsLossless(goParse, t);
    CreateOnlyMeaning(t.strategy, cfg.strategy);
    if !LeaveExisting(t.strategy, cfg.strategy) {
      var after := Target(env, it, Some(TopicRes(m))).topic;
      forall p
        ensures TopicHolds(goParse, t, after, p) <==> TopicHolds(goParse, t, m, p) || p !in env.refusedTopic
      {
        TopicSilenceIsAgreement(goParse, t, m, p);
        TopicSilenceIsAgreement(goParse, t, after, p);
        TargetDrift(env, it, Some(TopicRes(m)), p);
      }
    }
  }

  lemma TopicsHoldTheConfig(env: Env, goParse: GoParser, cfg: Config, origin: Store, store: Store, i: nat)
    requires ValidConfig(goParse, cfg) && Through(env, goParse, cfg, origin, store)
    requires i < |cfg.topics|
    ensures
      var t := cfg.topics[i];
      var path := TopicPath(env.project, t.name);
      && path in store.topics
      && TopicFulfilled(env, goParse, cfg, t,
                        if path in origin.topics then Some(origin.topics[path]) else None, store.topics[path])
  {
    var t := cfg.topics[i];
    var path := TopicPath(env.project, t.name);
    assert TopicOk(goParse, t);
    TopicEntry(goParse, cfg, i);
    EntryAtTarget(env, goParse, cfg, origin, store, i);
    if path in origin.topics {
      FoundTopic(env, goParse, cfg, t, origin.topics[path]);
    } else {
      TopicAsWritten(env, goParse, cfg, t);
    }
  }

  // ----- buckets -----

  /** And for buckets, of which only versioning can change and nothing is refused. */
  predicate BucketFulfilled(cfg: Config, b: BucketConfig, before: Option<Bucket>, after: Bucket) {
    match before
    case None => BucketSent(b, after)
    case Some(m) =>
      if LeaveExisting(b.strategy, cfg.strategy) || b.versioning.None? then after == m
      else after == m.(versioningEnabled := b.versioning.value)
  }

  lemma FoundBucket(env: Env, cfg: Config, b: BucketConfig, m: Bucket)
    ensures BucketFulfilled(cfg, b, Some(m), Target(env, BucketItemOf(cfg, b), Some(BucketRes(m))).bucket)
  {
    var it := BucketItemOf(cfg, b);
    CreateOnlyMeaning(b.strategy, cfg.strategy);
    if !LeaveExisting(b.strategy, cfg.strategy) {
      TargetDrift(env, it, Some(BucketRes(m)), VersioningPath);
      TargetField(env, it, BucketRes(m), VersioningPath);
    }
  }

  lemma BucketsHoldTheConfig(env: Env, goParse: GoParser, cfg: Config, origin: Store, store: Store, i: nat)
    requires ValidConfig(goParse, cfg) && Through(env, goParse, cfg, origin, store)
    requires i < |cfg.buckets|
    ensures
      var b := cfg.buckets[i];
      && b.name in store.buckets
      && BucketFulfilled(cfg, b, if b.name in origin.buckets then Some(origin.buckets[b.name]) else None,
                         store.buckets[b.name])
  {
    var b := cfg.buckets[i];
    assert BucketOk(b);
    BucketAtTarget(env, goParse, cfg, origin, store, i);
    if b.name in origin.buckets {
      FoundBucket(env, cfg, b, origin.buckets[b.name]);
    } else {
      BucketAsWritten(env, cfg, b);
    }
  }

  // ----- at every moment -----

  /** In every execution, whatever fails, an existing resource under "create" is as it was. */
  lemma ExistingEntryIsLeft(env: Env, goParse: GoParser, cfg: Config, origin: Store, s: Store, n: nat)
    requires ValidConfig(goParse, cfg) && Reachable(env, WorkList(goParse, cfg), origin, s)
    requires n < |WorkList(goParse, cfg)| && WorkList(goParse, cfg)[n].createOnly
    ensures
      var k := KeyOf(env, WorkList(goParse, cfg)[n]);
      Lookup(origin, k).Some? ==> Lookup(s, k) == Lookup(origin, k)
  {
    var k := KeyOf(env, WorkList(goParse, cfg)[n]);
    if Lookup(origin, k).Some? {
      RunsAreAdditive(env, goParse, cfg, origin, s, k);
    }
  }

  lemma CreateLeavesSubscriptions(env: Env, goParse: GoParser, cfg: Config, origin: Store, s: Store, i: nat, j: nat)
    requires ValidConfig(goParse, cfg) && Reachable(env, WorkList(goParse, cfg), origin, s)
    requires i < |cfg.topics| && j < |cfg.topics[i].subscriptions|
    requires LeaveExisting(cfg.topics[i].subscriptions[j].strategy, cfg.strategy)
    ensures
      var path := SubscriptionPath(env.project, cfg.topics[i].subscriptions[j].name);
      path in origin.subs ==> path in s.subs && s.subs[path] == origin.subs[path]
  {
    CreateOnlyMeaning(cfg.topics[i].subscriptions[j].strategy, cfg.strategy);
    SubEntry(goParse, cfg, i, j);
    ExistingEntryIsLeft(env, goParse, cfg, origin, s, SubsBefore(goParse, cfg, i) + j);
  }

  lemma CreateLeavesTopics(env: Env, goParse: GoParser, cfg: Config, origin: Store, s: Store, i: nat)
    requires ValidConfig(goParse, cfg) && Reachable(env, WorkList(goParse, cfg), origin, s)
    requires i < |cfg.topics| && LeaveExisting(cfg.topics[i].strategy, cfg.strategy)
    ensures
      var path := TopicPath(env.project, cfg.topics[i].name);
      path in origin.topics ==> path in s.topics && s.topics[path] == origin.topics[path]
  {
    CreateOnlyMeaning(cfg.topics[i].strategy, cfg.strategy);
    TopicEntry(goParse, cfg, i);
    ExistingEntryIsLeft(env, goParse, cfg, origin, s, i);
  }

  lemma CreateLeavesBuckets(env: Env, goParse: GoParser, cfg: Config, origin: Store, s: Store, i: nat)
    requires ValidConfig(goParse, cfg) && Reachable(env, WorkList(goParse, cfg), origin, s)
    requires i < |cfg.buckets| && LeaveExisting(cfg.buckets[i].strategy, cfg.strategy)
    ensures
      var name := cfg.buckets[i].name;
      name in origin.buckets ==> name in s.buckets && s.buckets[name] == origin.buckets[name]
  {
    CreateOnlyMeaning(cfg.buckets[i].strategy, cfg.strategy);
    BucketEntry(goParse, cfg, i);
    ExistingEntryIsLeft(env, goParse, cfg, origin, s, SubsBefore(goParse, cfg, |cfg.topics|) + i);
  }

  /** A lone run that completes is one way through. */
  lemma LoneRunIsThrough(env: Env, goParse: GoParser, cfg: Config, origin: Store, faults: seq<Fault>)
    requires Complete(WorkList(goParse, cfg), Solo(env, WorkList(goParse, cfg), origin, StartRun(false), faults).1)
    ensures Through(env, goParse, cfg, origin, Solo(env, WorkList(goParse, cfg), origin, StartRun(false), faults).0)
  {
    var items := WorkList(goParse, cfg);
    SoloIsExec(env, items, origin, false, faults);
    ModesKept(env, items, origin, [false], Alone(faults));
    assert CompleteIn(env, items, origin, [false], Alone(faults), 0);
  }
}
