/** The provisioner itself (internal/provisioner): loops of effectful ensure calls over an endpoint.

    Every method is proved to take exactly the steps of the run that `Machine` describes, so all that
    is proved about runs holds of this code, wherever a fault strikes it. */
module Provisioners {
  import opened Client
  import opened Wire
  import opened Reconcile
  import opened Resources
  import opened Machine
  import opened Guarantees
  import opened Trace
  import opened Playback
  import opened Endpoints
  import opened Durations
  import opened Config
  import opened Build
  import opened Credentials
  import opened Fulfilment

  class Provisioner {
    const api: Endpoint
    const goParse: GoParser
    const cfg: Config
    const dryRun: bool
    /** The key files, and whoever writes them. */
    const keys: KeyWriter
    /** How create-time bucket attributes are compared, and whether they are at all. */
    const equalFold: FoldTest
    const compareCreateOnly: bool
    /** What a dry run announced. */
    var previews: seq<Call>

    constructor (
      api: Endpoint, goParse: GoParser, cfg: Config, dryRun: bool, keys: KeyWriter,
      equalFold: FoldTest, compareCreateOnly: bool)
      ensures this.api == api && this.goParse == goParse && this.cfg == cfg && this.dryRun == dryRun
      ensures this.keys == keys && this.equalFold == equalFold && this.compareCreateOnly == compareCreateOnly
      ensures previews == []
    {
      this.api, this.goParse, this.cfg, this.dryRun := api, goParse, cfg, dryRun;
      this.keys, this.equalFold, this.compareCreateOnly := keys, equalFold, compareCreateOnly;
      previews := [];
    }

    // ----- the link to the run -----

    ghost function Now(): View
      reads this, api
    {
      View(api.Contents(), api.history, api.calls, previews)
    }

    ghost predicate Recorded(o: Origin, items: seq<Item>, run: Run)
      reads this, api
    {
      run.dry == dryRun && Follows(api.env, items, o, Now(), run)
    }

    // ----- update.go -----

    method SendUpdate(m: Resource, mask: seq<Path>) returns (out: Outcome)
      requires !m.BucketRes?
      modifies api
      ensures api.Answered(UpdateReq(MessageKey(m), m, mask), out)
    {
      if m.TopicRes? {
        out := api.UpdateTopic(m.topic, mask);
      } else {
        out := api.UpdateSubscription(m.sub, mask);
      }
    }

    /** One update of a pending mask, tied to the run's step. */
    method SendStep(m: Resource, mask: seq<Path>, ghost o: Origin, ghost items: seq<Item>, ghost run: Run)
      returns (out: Outcome, ghost after: Run)
      requires Recorded(o, items, run) && ProperPhase(items, run) && Active(items, run) && !run.dry
      requires !m.BucketRes? && RequestOf(api.env, items, run) == UpdateReq(MessageKey(m), m, mask)
      modifies api
      ensures api.Answered(UpdateReq(MessageKey(m), m, mask), out)
      ensures !out.Found? && after == Next(api.env, items, run, out) && Recorded(o, items, after)
    {
      ghost var before := Now();
      out := SendUpdate(m, mask);
      FollowsStep(api.env, items, o, before, Now(), run, api.history[|before.history|], out);
      after := Next(api.env, items, run, out);
    }

    /** Batch first, then path by path: refines one masked update with exactly the accepted paths. */
    method ApplyPaths(m: Resource, paths: seq<Path>, ghost o: Origin, ghost items: seq<Item>, ghost run: Run)
      returns (ok: bool, refused: seq<Path>, ghost after: Run)
      requires Recorded(o, items, run) && ProperPhase(items, run) && Active(items, run)
      requires run.phase == Batching(m, paths) && !m.BucketRes?
      requires MessageKey(m) == KeyOf(api.env, items[run.idx])
      requires Lookup(api.Contents(), MessageKey(m)).Some?
      modifies api
      ensures Recorded(o, items, after)
      ensures if ok then after == NextItem(run) else after.failed
      ensures ok ==>
        UpdatedTo(api.env, items[run.idx], old(api.Contents()), api.Contents(), m, paths)
      ensures ok ==> refused == Select(paths, RefusedTest(api.env, items[run.idx]))
      ensures ok ==>
                SentUpTo(old(api.calls), api.calls, m, paths,
                         if |paths| > 1 && AnyRefused(api.env, MessageKey(m), paths) then |paths| else 0)
      ensures !ok ==>
                || CutOffAtBatch(api.env, items[run.idx], old(Now()), Now(), m, paths)
                || exists i :: 0 <= i < |paths| && CutOffAt(api.env, items[run.idx], old(Now()), Now(), m, paths, i)
    {
      ghost var it, v0 := items[run.idx], Now();
      var out;
      out, after := SendStep(m, paths, o, items, run);
      BatchEffect(api.env, it, v0.store, m, paths, api.history[|api.history| - 1]);
      assert SentUpTo(v0.calls, api.calls, m, paths, 0);
      refused := [];
      if !out.Unsupported? {
        ok := out.Done?;
      } else if |paths| == 1 {
        refused := [paths[0]];
        assert paths == [paths[0]];
        ok := true;
      } else {
        ok, refused, after := ApplyEach(m, paths, o, items, run, v0);
      }
    }

    /** Each path on its own; refusals are collected, any other error aborts. */
    method ApplyEach(
      m: Resource, paths: seq<Path>, ghost o: Origin, ghost items: seq<Item>, ghost run: Run,
      ghost v0: View)
      returns (ok: bool, refused: seq<Path>, ghost after: Run)
      requires ProperPhase(items, run) && Active(items, run) && !run.dry && !m.BucketRes? && |paths| > 0
      requires Fits(items[run.idx], m) && MessageKey(m) == KeyOf(api.env, items[run.idx])
      requires Recorded(o, items, PastPath(run, m, paths, 0))
      requires UpdatedTo(api.env, items[run.idx], v0.store, api.Contents(), m, paths[..0])
      requires SentUpTo(v0.calls, api.calls, m, paths, 0)
      modifies api
      ensures Recorded(o, items, after)
      ensures if ok then after == NextItem(run) else after.failed
      ensures ok ==> UpdatedTo(api.env, items[run.idx], v0.store, api.Contents(), m, paths)
      ensures ok ==> refused == Select(paths, RefusedTest(api.env, items[run.idx]))
      ensures ok ==> SentUpTo(v0.calls, api.calls, m, paths, |paths|)
      ensures !ok ==> exists i :: 0 <= i < |paths| && CutOffAt(api.env, items[run.idx], v0, Now(), m, paths, i)
    {
      ghost var it := items[run.idx];
      refused := [];
      after := PastPath(run, m, paths, 0);
      var i := 0;
      while i < |paths|
        invariant 0 <= i <= |paths|
        invariant after == PastPath(run, m, paths, i)
        invariant Recorded(o, items, after)
        invariant UpdatedTo(api.env, it, v0.store, api.Contents(), m, paths[..i])
        invariant refused == Select(paths[..i], RefusedTest(api.env, it))
        invariant SentUpTo(v0.calls, api.calls, m, paths, i)
      {
        var out;
        out, refused, after := ApplyOne(m, paths, i, refused, o, items, run, v0);
        if out.Fatal? {
          ok := false;
          return;
        }
        i := i + 1;
      }
      assert paths[..|paths|] == paths;
      ok := true;
    }

    method ApplyOne(
      m: Resource, paths: seq<Path>, i: nat, refused: seq<Path>,
      ghost o: Origin, ghost items: seq<Item>, ghost run: Run, ghost v0: View)
      returns (out: Outcome, refused': seq<Path>, ghost after: Run)
      requires ProperPhase(items, run) && Active(items, run) && !run.dry && !m.BucketRes? && i < |paths|
      requires Fits(items[run.idx], m) && MessageKey(m) == KeyOf(api.env, items[run.idx])
      requires Recorded(o, items, PastPath(run, m, paths, i))
      requires UpdatedTo(api.env, items[run.idx], v0.store, api.Contents(), m, paths[..i])
      requires refused == Select(paths[..i], RefusedTest(api.env, items[run.idx]))
      requires SentUpTo(v0.calls, api.calls, m, paths, i)
      modifies api
      ensures Recorded(o, items, after) && SentUpTo(v0.calls, api.calls, m, paths, i + 1)
      ensures !out.Fatal? ==>
                && after == PastPath(run, m, paths, i + 1)
                && UpdatedTo(api.env, items[run.idx], v0.store, api.Contents(), m, paths[..i + 1])
                && refused' == Select(paths[..i + 1], RefusedTest(api.env, items[run.idx]))
      ensures out.Fatal? ==>
                after.failed && CutOffAt(api.env, items[run.idx], v0, Now(), m, paths, i)
    {
      ghost var it, s := items[run.idx], api.Contents();
      refused' := refused;
      out, after := SendStep(m, [paths[i]], o, items, PastPath(run, m, paths, i));
      SingleEffect(api.env, it, v0.store, s, m, paths, i, api.history[|api.history| - 1]);
      SinglesGrow(v0.calls, MessageKey(m), paths, i);
      SelectStep(paths, RefusedTest(api.env, it), i);
      if out.Unsupported? {
        refused' := refused + [paths[i]];
      } else if !out.Done? {
        out := Fatal;
      }
    }

    // ----- topics.go -----

    method CreateTopic(desired: Topic, ghost o: Origin, ghost items: seq<Item>, ghost run: Run)
      returns (ok: bool, ghost after: Run)
      requires Recorded(o, items, run) && ProperPhase(items, run) && Active(items, run) && run.phase.Creating?
      requires items[run.idx].TopicItem? && items[run.idx].topic == desired
      modifies api
      ensures Recorded(o, items, after)
      ensures if ok then after == NextItem(run) else after.failed
    {
      ghost var before := Now();
      var out := api.CreateTopic(ToProtoTopic(api.env.project, desired));
      FollowsStep(api.env, items, o, before, Now(), run, api.history[|before.history|], out);
      after := Next(api.env, items, run, out);
      ok := out.Done? || out.AlreadyExists?;
    }

    /** Read the topic and decide: the part of ensureTopic before its first mutating call. */
    method PlanTopic(desired: Topic, strategy: string, ghost o: Origin, ghost items: seq<Item>, ghost run: Run)
      returns (d: Decision, ghost after: Run)
      requires Recorded(o, items, run) && Active(items, run) && run.phase.Reading?
      requires items[run.idx] == TopicItem(desired, strategy == "create")
      modifies this, api
      ensures Recorded(o, items, after)
      ensures Decided(api.env, items, api.Contents(), run, d, after)
    {
      var key := TopicKey(TopicPath(api.env.project, desired.name));
      ghost var it, before := items[run.idx], Now();
      var out := api.GetTopic(key.path);
      var paths: seq<Path> := [];
      if out.Found? {
        paths := DiffTopic(FromProtoTopic(out.res.topic), desired);
        SelectCongruence(TOPIC_PATHS, TopicDriftTest(FromProtoTopic(out.res.topic), desired), DriftTest(it, out.res));
      }
      d := Decide(out, strategy, paths, dryRun);
      previews := previews + Announce(key, out, strategy, paths, dryRun);
      DecideFollows(api.env, items, o, before, Now(), run, api.history[|before.history|], out, strategy, paths);
      after := Next(api.env, items, run, out);
    }

    method EnsureTopic(topic: TopicConfig, strategy: string, ghost o: Origin, ghost items: seq<Item>, ghost run: Run)
      returns (ok: bool, ghost after: Run)
      requires Recorded(o, items, run) && Active(items, run) && run.phase.Reading?
      requires items[run.idx] == TopicItem(BuiltTopic(goParse, topic), strategy == "create")
      modifies this, api
      ensures Recorded(o, items, after)
      ensures ok ==> after == NextItem(run)
      ensures !ok ==> after.failed || (!Parses(goParse, topic.messageRetention) && after == run)
    {
      after := run;
      var desired := BuildTopic(goParse, topic);
      if desired.None? {
        return false, after;
      }
      var d;
      d, after := PlanTopic(desired.value, strategy, o, items, run);
      match d {
        case Broken => ok := false;
        case Settled => ok := true;
        case ToCreate => ok, after := CreateTopic(desired.value, o, items, after);
        case ToUpdate(res, paths) =>
          var merged := desired.value.(labels := MergeLabels(FromProtoTopic(res.topic).labels, desired.value.labels));
          var refused;
          ok, refused, after := ApplyPaths(TopicRes(ToProtoTopic(api.env.project, merged)), paths, o, items, after);
      }
    }

    // ----- subscriptions.go -----

    method CreateSubscription(desired: Subscription, ghost o: Origin, ghost items: seq<Item>, ghost run: Run)
      returns (ok: bool, ghost after: Run)
      requires Recorded(o, items, run) && ProperPhase(items, run) && Active(items, run) && run.phase.Creating?
      requires items[run.idx].SubItem? && items[run.idx].sub == desired
      modifies api
      ensures Recorded(o, items, after)
      ensures if ok then after == NextItem(run) else after.failed
    {
      ghost var before := Now();
      var message := BuildProtoSubscription(api.env.project, desired);
      var out := api.CreateSubscription(message);
      FollowsStep(api.env, items, o, before, Now(), run, api.history[|before.history|], out);
      after := Next(api.env, items, run, out);
      ok := out.Done? || out.AlreadyExists?;
    }

    /** Read the subscription, report what cannot be changed, and decide. */
    method PlanSubscription(desired: Subscription, strategy: string, ghost o: Origin, ghost items: seq<Item>, ghost run: Run)
      returns (d: Decision, fixed: seq<FixedField>, ghost after: Run)
      requires Recorded(o, items, run) && Active(items, run) && run.phase.Reading?
      requires items[run.idx] == SubItem(desired, strategy == "create")
      modifies this, api
      ensures Recorded(o, items, after)
      ensures Decided(api.env, items, api.Contents(), run, d, after)
      ensures
        var live := Lookup(api.Contents(), KeyOf(api.env, items[run.idx]));
        !d.Broken? ==>
          fixed == if live.Some? && strategy != "create"
                   then Select(FIXED_FIELDS, FixedDriftTest(FromProtoSubscription(live.value.sub), desired))
                   else []
    {
      var key := SubKey(SubscriptionPath(api.env.project, desired.name));
      ghost var it, before := items[run.idx], Now();
      var out := api.GetSubscription(key.path);
      var paths: seq<Path> := [];
      fixed := [];
      if out.Found? {
        var current := FromProtoSubscription(out.res.sub);
        if strategy != "create" {
          fixed := ImmutableDrift(current, desired);
        }
        paths := DiffSubscription(current, desired);
        SelectCongruence(SUB_PATHS, SubDriftTest(current, desired), DriftTest(it, out.res));
      }
      d := Decide(out, strategy, paths, dryRun);
      previews := previews + Announce(key, out, strategy, paths, dryRun);
      DecideFollows(api.env, items, o, before, Now(), run, api.history[|before.history|], out, strategy, paths);
      after := Next(api.env, items, run, out);
    }

    method EnsureSubscription(
      topicName: string, sub: SubConfig, strategy: string, ghost o: Origin, ghost items: seq<Item>, ghost run: Run)
      returns (ok: bool, ghost after: Run)
      requires Recorded(o, items, run) && Active(items, run) && run.phase.Reading?
      requires items[run.idx] == SubItem(BuiltSub(goParse, topicName, sub), strategy == "create")
      modifies this, api
      ensures Recorded(o, items, after)
      ensures ok ==> after == NextItem(run)
      ensures !ok ==> after.failed || (!Buildable(goParse, sub) && after == run)
    {
      after := run;
      var desired := BuildSubscription(goParse, topicName, sub);
      if desired.None? {
        return false, after;
      }
      var d, fixed;
      d, fixed, after := PlanSubscription(desired.value, strategy, o, items, run);
      match d {
        case Broken => ok := false;
        case Settled => ok := true;
        case ToCreate => ok, after := CreateSubscription(desired.value, o, items, after);
        case ToUpdate(res, paths) =>
          var merged := MergedSubscription(FromProtoSubscription(res.sub), desired.value);
          var message := BuildProtoSubscription(api.env.project, merged);
          var refused;
          ok, refused, after := ApplyPaths(SubRes(message), paths, o, items, after);
      }
    }

    // ----- buckets.go -----

    method CreateBucket(desired: DesiredBucket, ghost o: Origin, ghost items: seq<Item>, ghost run: Run)
      returns (ok: bool, ghost after: Run)
      requires Recorded(o, items, run) && ProperPhase(items, run) && Active(items, run) && run.phase.Creating?
      requires items[run.idx].BucketItem? && items[run.idx].bucket == desired
      modifies api
      ensures Recorded(o, items, after)
      ensures if ok then after == NextItem(run) else after.failed
    {
      ghost var before := Now();
      var out := api.CreateBucket(NewBucket(desired));
      FollowsStep(api.env, items, o, before, Now(), run, api.history[|before.history|], out);
      after := Next(api.env, items, run, out);
      ok := out.Done? || out.AlreadyExists?;
    }

    method DiffBucket(current: Bucket, desired: DesiredBucket) returns (paths: seq<Path>)
      ensures paths == if BucketDrifts(current, desired, VersioningPath) then [VersioningPath] else []
    {
      paths := [];
      if desired.versioning.Some? && current.versioningEnabled != desired.versioning.value {
        paths := [VersioningPath];
      }
    }

    /** The create-time attributes to report for what was read. */
    method ReportBucket(out: Outcome, desired: DesiredBucket, strategy: string) returns (fixed: seq<BucketField>)
      requires out.Found? ==> out.res.BucketRes?
      ensures fixed ==
              if out.Found? && strategy != "create" && compareCreateOnly
              then Select(BUCKET_FIELDS, CreateOnlyTest(equalFold, out.res.bucket, desired))
              else []
    {
      fixed := [];
      if out.Found? && strategy != "create" && compareCreateOnly {
        fixed := CreateOnlyDrift(equalFold, out.res.bucket, desired);
      }
    }

    /** Read the bucket, report what cannot be changed, and decide. */
    method PlanBucket(desired: DesiredBucket, strategy: string, ghost o: Origin, ghost items: seq<Item>, ghost run: Run)
      returns (d: Decision, fixed: seq<BucketField>, ghost after: Run)
      requires Recorded(o, items, run) && Active(items, run) && run.phase.Reading?
      requires items[run.idx] == BucketItem(desired, strategy == "create")
      modifies this, api
      ensures Recorded(o, items, after)
      ensures Decided(api.env, items, api.Contents(), run, d, after)
      ensures d.ToUpdate? ==> d.paths == [VersioningPath] && desired.versioning.Some?
      ensures
        var live := Lookup(api.Contents(), BucketKey(desired.name));
        !d.Broken? ==>
          fixed == if live.Some? && strategy != "create" && compareCreateOnly
                   then Select(BUCKET_FIELDS, CreateOnlyTest(equalFold, live.value.bucket, desired))
                   else []
    {
      var key := BucketKey(desired.name);
      ghost var it, before := items[run.idx], Now();
      var out := api.GetBucket(key.name);
      var paths: seq<Path> := [];
      if out.Found? {
        paths := DiffBucket(out.res.bucket, desired);
        BucketDiff(it, out.res);
      }
      fixed := ReportBucket(out, desired, strategy);
      d := Decide(out, strategy, paths, dryRun);
      previews := previews + Announce(key, out, strategy, paths, dryRun);
      DecideFollows(api.env, items, o, before, Now(), run, api.history[|before.history|], out, strategy, paths);
      after := Next(api.env, items, run, out);
    }

    method SetVersioning(name: string, enabled: bool, ghost m: Bucket, ghost o: Origin, ghost items: seq<Item>, ghost run: Run)
      returns (ok: bool, ghost after: Run)
      requires Recorded(o, items, run) && ProperPhase(items, run) && Active(items, run)
      requires items[run.idx].BucketItem? && KeyOf(api.env, items[run.idx]) == BucketKey(name)
      requires run.phase == Batching(BucketRes(m), [VersioningPath]) && m.versioningEnabled == enabled
      modifies api
      ensures Recorded(o, items, after)
      ensures if ok then after == NextItem(run) else after.failed
    {
      ghost var before := Now();
      var out := api.SetVersioning(name, enabled, m);
      FollowsStep(api.env, items, o, before, Now(), run, api.history[|before.history|], out);
      after := Next(api.env, items, run, out);
      ok := out.Done?;
    }

    method EnsureBucket(bucket: BucketConfig, strategy: string, ghost o: Origin, ghost items: seq<Item>, ghost run: Run)
      returns (ok: bool, ghost after: Run)
      requires Recorded(o, items, run) && Active(items, run) && run.phase.Reading?
      requires items[run.idx] ==
               BucketItem(DesiredBucket(bucket.name, bucket.versioning, bucket.location, bucket.storageClass), strategy == "create")
      modifies this, api
      ensures Recorded(o, items, after)
      ensures if ok then after == NextItem(run) else after.failed
    {
      var desired := DesiredBucket(bucket.name, bucket.versioning, bucket.location, bucket.storageClass);
      var d, fixed;
      d, fixed, after := PlanBucket(desired, strategy, o, items, run);
      match d {
        case Broken => ok := false;
        case Settled => ok := true;
        case ToCreate => ok, after := CreateBucket(desired, o, items, after);
        case ToUpdate(res, paths) =>
          ghost var m := res.bucket.(versioningEnabled := DerefBool(desired.versioning));
          ok, after := SetVersioning(bucket.name, desired.versioning.value, m, o, items, after);
      }
    }

    // ----- provisioner.go -----

    /** Every topic, then every subscription. */
    method ProvisionPubSub(ghost o: Origin, ghost items: seq<Item>) returns (ok: bool, ghost after: Run)
      requires EveryEntryBuilds(goParse, cfg) && items == WorkList(goParse, cfg)
      requires Recorded(o, items, StartRun(dryRun))
      modifies this, api
      ensures Recorded(o, items, after)
      ensures if ok then after == AtEntry(dryRun, SubsBefore(goParse, cfg, |cfg.topics|)) else after.failed
    {
      ok, after := ProvisionTopics(o, items);
      if ok {
        NoSubsYet(goParse, cfg);
        ok, after := ProvisionAllSubscriptions(o, items, after);
      }
    }

    /** The second pass. */
    method ProvisionAllSubscriptions(ghost o: Origin, ghost items: seq<Item>, ghost run: Run)
      returns (ok: bool, ghost after: Run)
      requires EveryEntryBuilds(goParse, cfg) && items == WorkList(goParse, cfg)
      requires Recorded(o, items, run) && run == AtEntry(dryRun, SubsBefore(goParse, cfg, 0))
      modifies this, api
      ensures Recorded(o, items, after)
      ensures if ok then after == AtEntry(dryRun, SubsBefore(goParse, cfg, |cfg.topics|)) else after.failed
    {
      after := run;
      for i := 0 to |cfg.topics|
        invariant Recorded(o, items, after) && after == AtEntry(dryRun, SubsBefore(goParse, cfg, i))
      {
        ok, after := ProvisionSubscriptions(i, o, items, after);
        if !ok {
          return;
        }
        SubsBeforeStep(goParse, cfg, i);
      }
      ok := true;
    }

    /** The first pass. */
    method ProvisionTopics(ghost o: Origin, ghost items: seq<Item>) returns (ok: bool, ghost after: Run)
      requires EveryEntryBuilds(goParse, cfg) && items == WorkList(goParse, cfg)
      requires Recorded(o, items, StartRun(dryRun))
      modifies this, api
      ensures Recorded(o, items, after)
      ensures if ok then after == AtEntry(dryRun, |cfg.topics|) else after.failed
    {
      after := StartRun(dryRun);
      for i := 0 to |cfg.topics|
        invariant Recorded(o, items, after) && after == AtEntry(dryRun, i)
      {
        var topic := cfg.topics[i];
        var strategy := EffectiveStrategy([topic.strategy, cfg.strategy]);
        TopicEntry(goParse, cfg, i);
        ok, after := EnsureTopic(topic, strategy, o, items, after);
        if !ok {
          return;
        }
      }
      ok := true;
    }

    /** The inner loop of the second pass: the subscriptions of one topic, under the global strategy. */
    method ProvisionSubscriptions(i: nat, ghost o: Origin, ghost items: seq<Item>, ghost run: Run)
      returns (ok: bool, ghost after: Run)
      requires EveryEntryBuilds(goParse, cfg) && items == WorkList(goParse, cfg) && i < |cfg.topics|
      requires Recorded(o, items, run) && run == AtEntry(dryRun, SubsBefore(goParse, cfg, i))
      modifies this, api
      ensures Recorded(o, items, after)
      ensures if ok then after == AtEntry(dryRun, run.idx + |cfg.topics[i].subscriptions|) else after.failed
    {
      var topic := cfg.topics[i];
      after := run;
      for j := 0 to |topic.subscriptions|
        invariant Recorded(o, items, after) && after == AtEntry(dryRun, run.idx + j)
      {
        ok, after := ProvisionSubscription(i, j, o, items, after);
        if !ok {
          return;
        }
      }
      ok := true;
    }

    method ProvisionSubscription(i: nat, j: nat, ghost o: Origin, ghost items: seq<Item>, ghost run: Run)
      returns (ok: bool, ghost after: Run)
      requires EveryEntryBuilds(goParse, cfg) && items == WorkList(goParse, cfg)
      requires i < |cfg.topics| && j < |cfg.topics[i].subscriptions|
      requires Recorded(o, items, run) && run == AtEntry(dryRun, SubsBefore(goParse, cfg, i) + j)
      modifies this, api
      ensures Recorded(o, items, after)
      ensures if ok then after == NextItem(run) else after.failed
    {
      var sub := cfg.topics[i].subscriptions[j];
      var strategy := EffectiveStrategy([sub.strategy, cfg.strategy]);
      SubEntry(goParse, cfg, i, j);
      ok, after := EnsureSubscription(cfg.topics[i].name, sub, strategy, o, items, run);
    }

    method ProvisionStorage(ghost o: Origin, ghost items: seq<Item>, ghost run: Run) returns (ok: bool, ghost after: Run)
      requires items == WorkList(goParse, cfg)
      requires Recorded(o, items, run) && run == AtEntry(dryRun, SubsBefore(goParse, cfg, |cfg.topics|))
      modifies this, api
      ensures Recorded(o, items, after)
      ensures if ok then after == AtEntry(dryRun, |items|) else after.failed
    {
      AllEntries(goParse, cfg);
      after := run;
      for i := 0 to |cfg.buckets|
        invariant Recorded(o, items, after) && after == AtEntry(dryRun, run.idx + i)
      {
        var bucket := cfg.buckets[i];
        BucketEntry(goParse, cfg, i);
        var strategy := EffectiveStrategy([bucket.strategy, cfg.strategy]);
        ok, after := EnsureBucket(bucket, strategy, o, items, after);
        if !ok {
          return;
        }
      }
      ok := true;
    }

    /** Both endpoint sections of a validated config, whatever faults the endpoint has in store. */
    method ProvisionResources() returns (ok: bool)
      requires ValidConfig(goParse, cfg)
      modifies this, api
      ensures dryRun ==> api.Contents() == old(api.Contents()) && api.calls == old(api.calls)
      ensures ok && dryRun ==>
                previews == old(previews) + Previews(api.env, WorkList(goParse, cfg), old(api.Contents()))
      ensures ok && !dryRun ==>
                && api.Contents() == TargetStore(api.env, WorkList(goParse, cfg), old(api.Contents()))
                && api.calls == old(api.calls) + RunCalls(api.env, WorkList(goParse, cfg), old(api.Contents()))
                && Through(api.env, goParse, cfg, old(api.Contents()), api.Contents())
      ensures Reachable(api.env, WorkList(goParse, cfg), old(api.Contents()), api.Contents())
      ensures old(api.history) <= api.history
      ensures !ok ==> !Quiet(api.history[|old(api.history)|..])
    {
      ghost var items := WorkList(goParse, cfg);
      ghost var o := Origin(StartRun(dryRun), Now());
      ghost var after;
      assert Play(api.env, items, o, []) == (Now(), StartRun(dryRun));
      ValidatedEntriesBuild(goParse, cfg);
      ok, after := ProvisionPubSub(o, items);
      if ok {
        ok, after := ProvisionStorage(o, items, after);
      }
      ValidatedWorkListIsWellFormed(api.env, goParse, cfg);
      FollowedRun(api.env, items, o, Now(), after);
      if dryRun {
        FollowedDryRun(api.env, items, o, Now(), after);
      } else if ok {
        FollowedRealRun(api.env, items, o, Now(), after);
        ghost var faults := FollowedIsSolo(api.env, items, o, Now(), after);
        LoneRunIsThrough(api.env, goParse, cfg, o.view.store, faults);
      }
    }

    /** A whole run of a validated config: key files first, as they need no endpoint. */
    method RunAll(faults: nat -> FileFault) returns (ok: bool)
      requires ValidConfig(goParse, cfg) && keys.dryRun == dryRun
      modifies this, api, keys
      ensures
        var pass := PassUpTo(keys.project, keys.creds, old(keys.Contents()), Pass(dryRun, faults), |keys.creds|);
        && keys.Contents() == pass.0
        && (!pass.1 ==> !ok && Now() == old(Now()))
        && (pass.1 && !ok ==> old(api.history) <= api.history && !Quiet(api.history[|old(api.history)|..]))
      ensures dryRun ==> api.Contents() == old(api.Contents()) && api.calls == old(api.calls)
      ensures dryRun ==> keys.Contents() == old(keys.Contents())
      ensures ok && dryRun ==>
                previews == old(previews) + Previews(api.env, WorkList(goParse, cfg), old(api.Contents()))
      ensures ok && !dryRun ==>
                && api.Contents() == TargetStore(api.env, WorkList(goParse, cfg), old(api.Contents()))
                && api.calls == old(api.calls) + RunCalls(api.env, WorkList(goParse, cfg), old(api.Contents()))
                && Through(api.env, goParse, cfg, old(api.Contents()), api.Contents())
      ensures Reachable(api.env, WorkList(goParse, cfg), old(api.Contents()), api.Contents())
    {
      ghost var d := keys.Contents();
      if dryRun {
        DryPassWritesNothing(keys.project, keys.creds, d, Pass(dryRun, faults), |keys.creds|);
      }
      ok := keys.ProvisionCredentials(faults);
      if ok {
        ok := ProvisionResources();
      } else {
        FollowedIsReachable(api.env, WorkList(goParse, cfg), api.Contents(), dryRun, []);
      }
    }
  }
}
