/** From a validated config to the work list of a run: the builders
    (internal/provisioner/subscriptions.go:92-184, internal/provisioner/topics.go:79-91) and the
    order of internal/provisioner/provisioner.go. */
module Build {
  import opened Client
  import opened Wire
  import opened Resources
  import opened Machine
  import opened Durations
  import opened Config

  // ----- builders -----

  /** `int32(n)` */
  function Wrap32(n: int): (w: int)
    ensures 0 <= n <= MAX_INT32 ==> w == n
  {
    (n + 0x8000_0000) % 0x1_0000_0000 - 0x8000_0000
  }

  /** The parsed value, zero where the string does not parse. */
  function Parsed(goParse: GoParser, v: string): int {
    var d := ParseDuration(goParse, v);
    if d.Some? then d.value else 0
  }

  function BuiltPush(s: SubConfig): Option<PushConfig> {
    if s.pushEndpoint == "" then None
    else
      Some(PushConfig(
             s.pushEndpoint, s.pushAttributes, s.pushOIDCToken,
             if s.pushWrapper == "pubsub" then WrapperPubSub
             else if s.pushWrapper == "none" then WrapperNone
             else WrapperUnset,
             s.pushWriteMetadata))
  }

  function BuiltSub(goParse: GoParser, topic: string, s: SubConfig): Subscription {
    var timed := s.expirationTTL != "" && s.expirationTTL != EXPIRATION_NEVER;
    Subscription(
      s.name, topic,
      Parsed(goParse, s.ackDeadline),
      Parsed(goParse, s.messageRetention),
      s.retainAckedMessages, s.enableMessageOrdering, s.enableExactlyOnceDelivery,
      s.filter,
      s.expirationTTL != "",
      if timed then Parsed(goParse, s.expirationTTL) else 0,
      s.labels,
      BuiltPush(s),
      if s.deadLetter.Some?
      then Some(DeadLetterPolicy(s.deadLetter.value.topic, Wrap32(s.deadLetter.value.maxDeliveryAttempts)))
      else None,
      if s.retry.Some?
      then Some(RetryPolicy(Parsed(goParse, s.retry.value.minimumBackoff), Parsed(goParse, s.retry.value.maximumBackoff)))
      else None)
  }

  predicate Parses(goParse: GoParser, v: string) {
    ParseDuration(goParse, v).Some?
  }

  /** Every duration the builder will parse does parse. */
  predicate Buildable(goParse: GoParser, s: SubConfig) {
    && Parses(goParse, s.ackDeadline) && Parses(goParse, s.messageRetention)
    && (s.expirationTTL == "" || s.expirationTTL == EXPIRATION_NEVER || Parses(goParse, s.expirationTTL))
    && (s.retry.Some? ==>
          Parses(goParse, s.retry.value.minimumBackoff) && Parses(goParse, s.retry.value.maximumBackoff))
  }

  /** The builder, returning early on the first duration that does not parse. */
  method BuildSubscription(goParse: GoParser, topic: string, s: SubConfig) returns (out: Option<Subscription>)
    ensures out == if Buildable(goParse, s) then Some(BuiltSub(goParse, topic, s)) else None
  {
    var ackDeadline := ParseDuration(goParse, s.ackDeadline);
    if ackDeadline.None? {
      return None;
    }
    var retention := ParseDuration(goParse, s.messageRetention);
    if retention.None? {
      return None;
    }
    var expirationSet, expirationTTL := false, 0;
    if s.expirationTTL == "" {
    } else if s.expirationTTL == EXPIRATION_NEVER {
      expirationSet := true;
    } else {
      var ttl := ParseDuration(goParse, s.expirationTTL);
      if ttl.None? {
        return None;
      }
      expirationSet, expirationTTL := true, ttl.value;
    }
    var deadLetter: Option<DeadLetterPolicy> := None;
    if s.deadLetter.Some? {
      deadLetter := Some(DeadLetterPolicy(s.deadLetter.value.topic, Wrap32(s.deadLetter.value.maxDeliveryAttempts)));
    }
    var retry: Option<RetryPolicy> := None;
    if s.retry.Some? {
      var lo := ParseDuration(goParse, s.retry.value.minimumBackoff);
      if lo.None? {
        return None;
      }
      var hi := ParseDuration(goParse, s.retry.value.maximumBackoff);
      if hi.None? {
        return None;
      }
      retry := Some(RetryPolicy(lo.value, hi.value));
    }
    return Some(Subscription(
      s.name, topic, ackDeadline.value, retention.value,
      s.retainAckedMessages, s.enableMessageOrdering, s.enableExactlyOnceDelivery, s.filter,
      expirationSet, expirationTTL, s.labels, BuiltPush(s), deadLetter, retry));
  }

  function BuiltTopic(goParse: GoParser, t: TopicConfig): Topic {
    Topic(t.name, t.labels, Parsed(goParse, t.messageRetention))
  }

  method BuildTopic(goParse: GoParser, t: TopicConfig) returns (out: Option<Topic>)
    ensures out == if Parses(goParse, t.messageRetention) then Some(BuiltTopic(goParse, t)) else None
  {
    var retention := ParseDuration(goParse, t.messageRetention);
    if retention.None? {
      return None;
    }
    return Some(Topic(t.name, t.labels, retention.value));
  }

  /** A duration that passed its range check is read back as written: positive exactly when present. */
  lemma RangedDuration(goParse: GoParser, v: string, lo: int, hi: int)
    requires DurationOk(goParse, v, lo, hi) && lo > 0
    ensures Parses(goParse, v)
    ensures Parsed(goParse, v) > 0 <==> v != ""
    ensures v != "" ==> lo <= Parsed(goParse, v) <= hi
  {
  }

  /** Validation makes building total and lossless: no builder fails, every written duration is
      positive and every omitted one zero, and the result survives the wire. */
  lemma ValidatedBuildIsLossless(goParse: GoParser, topic: string, s: SubConfig)
    requires SubOk(goParse, s) && '/' !in topic
    requires s.deadLetter.Some? ==> '/' !in s.deadLetter.value.topic
    ensures Buildable(goParse, s)
    ensures
      var b := BuiltSub(goParse, topic, s);
      && Transmissible(b)
      && (b.ackDeadline > 0 <==> s.ackDeadline != "")
      && (b.messageRetention > 0 <==> s.messageRetention != "")
      && (b.expirationSet <==> s.expirationTTL != "")
      && (b.expirationTTL > 0 <==> s.expirationTTL != "" && s.expirationTTL != EXPIRATION_NEVER)
      && (b.deadLetter.Some? ==>
            b.deadLetter.value.maxDeliveryAttempts == s.deadLetter.value.maxDeliveryAttempts)
  {
    RangedDuration(goParse, s.ackDeadline, MIN_ACK, MAX_ACK);
    RangedDuration(goParse, s.messageRetention, MIN_RETENTION, MAX_RETENTION);
    if s.expirationTTL != EXPIRATION_NEVER {
      RangedDuration(goParse, s.expirationTTL, MIN_EXPIRATION, MAX_EXPIRATION);
    }
    ResourceNameHasNoSlash(s.name);
  }

  lemma ValidatedTopicIsLossless(goParse: GoParser, t: TopicConfig)
    requires TopicOk(goParse, t)
    ensures Parses(goParse, t.messageRetention)
    ensures '/' !in t.name && (BuiltTopic(goParse, t).messageRetention > 0 <==> t.messageRetention != "")
    ensures 0 <= BuiltTopic(goParse, t).messageRetention
  {
  }

  /** Day notation where it is exact: retention takes 1 to 31 days, expiration 1 to 365. */
  lemma DayFormRanges(goParse: GoParser, v: string)
    requires IsDayForm(v)
    ensures
      var n := Atoi(v[..|v| - 1]).value;
      -106751 <= n <= 106751 ==>
        && ParseDuration(goParse, v) == Some(n * DAY)
        && (RetentionOk(goParse, v) <==> 1 <= n <= 31)
        && (ExpirationOk(goParse, v) <==> 1 <= n <= 365)
  {
    DaysAreExact(Atoi(v[..|v| - 1]).value);
    DayFormHasNoNull(v);
    if ParseDuration(goParse, v) == Some(Atoi(v[..|v| - 1]).value * DAY) {
      RangesInDays(goParse, v, Atoi(v[..|v| - 1]).value);
    }
  }

  lemma RangesInDays(goParse: GoParser, v: string, n: int)
    requires |v| > 0 && v[|v| - 1] == 'd' && NoNull(v) && ParseDuration(goParse, v) == Some(n * DAY)
    ensures RetentionOk(goParse, v) <==> 1 <= n <= 31
    ensures ExpirationOk(goParse, v) <==> 1 <= n <= 365
  {
    assert v != EXPIRATION_NEVER by {
      assert EXPIRATION_NEVER[4] == 'r';
    }
  }

  lemma DayFormHasNoNull(v: string)
    requires IsDayForm(v)
    ensures NoNull(v)
  {
    AtoiHasNoNull(v[..|v| - 1]);
    assert v == v[..|v| - 1] + ['d'];
  }

  /** And is accepted as one. */
  lemma HugeCountPassesForAWeek(goParse: GoParser)
    ensures RetentionOk(goParse, "281474976710663d") && ExpirationOk(goParse, "281474976710663d")
  {
    DaysCanWrapToAWeek(goParse);
  }

  // ----- work lists -----

  function TopicItemOf(goParse: GoParser, cfg: Config, t: TopicConfig): Item {
    TopicItem(BuiltTopic(goParse, t), CreateOnly(t.strategy, cfg.strategy))
  }

  /** A subscription inherits the global strategy, not its topic's. */
  function SubItemOf(goParse: GoParser, cfg: Config, topic: string, s: SubConfig): Item {
    SubItem(BuiltSub(goParse, topic, s), CreateOnly(s.strategy, cfg.strategy))
  }

  function BucketItemOf(cfg: Config, b: BucketConfig): Item {
    BucketItem(DesiredBucket(b.name, b.versioning, b.location, b.storageClass), CreateOnly(b.strategy, cfg.strategy))
  }

  function TopicItems(goParse: GoParser, cfg: Config): seq<Item> {
    seq(|cfg.topics|, i requires 0 <= i < |cfg.topics| => TopicItemOf(goParse, cfg, cfg.topics[i]))
  }

  function ItemsOfTopic(goParse: GoParser, cfg: Config, t: TopicConfig): seq<Item> {
    seq(|t.subscriptions|, j requires 0 <= j < |t.subscriptions| =>
      SubItemOf(goParse, cfg, t.name, t.subscriptions[j]))
  }

  function SubItems(goParse: GoParser, cfg: Config, topics: seq<TopicConfig>): seq<Item> {
    if topics == [] then []
    else SubItems(goParse, cfg, topics[..|topics| - 1]) + ItemsOfTopic(goParse, cfg, topics[|topics| - 1])
  }

  function BucketItems(cfg: Config): seq<Item> {
    seq(|cfg.buckets|, i requires 0 <= i < |cfg.buckets| => BucketItemOf(cfg, cfg.buckets[i]))
  }

  /** Every topic, then every subscription, then every bucket. */
  function WorkList(goParse: GoParser, cfg: Config): seq<Item> {
    TopicItems(goParse, cfg) + SubItems(goParse, cfg, cfg.topics) + BucketItems(cfg)
  }

  /** Where the k-th subscription entry comes from. */
  lemma {:induction false} SubItemSource(goParse: GoParser, cfg: Config, topics: seq<TopicConfig>, k: nat)
    returns (i: nat, j: nat)
    requires k < |SubItems(goParse, cfg, topics)|
    ensures i < |topics| && j < |topics[i].subscriptions|
    ensures SubItems(goParse, cfg, topics)[k] == SubItemOf(goParse, cfg, topics[i].name, topics[i].subscriptions[j])
    ensures k < |SubNames(topics)| && SubNames(topics)[k] == topics[i].subscriptions[j].name
  {
    var n := |topics| - 1;
    var earlier := SubItems(goParse, cfg, topics[..n]);
    SubItemsLength(goParse, cfg, topics[..n]);
    if k < |earlier| {
      i, j := SubItemSource(goParse, cfg, topics[..n], k);
    } else {
      i, j := n, k - |earlier|;
    }
  }

  lemma {:induction false} SubItemsLength(goParse: GoParser, cfg: Config, topics: seq<TopicConfig>)
    ensures |SubItems(goParse, cfg, topics)| == |SubNames(topics)|
  {
    if topics != [] {
      SubItemsLength(goParse, cfg, topics[..|topics| - 1]);
    }
  }

  lemma TopicNameIsGood(goParse: GoParser, cfg: Config, name: string)
    requires ValidConfig(goParse, cfg) && name in TopicNames(cfg.topics)
    ensures '/' !in name
  {
  }

  lemma TopicDeclaredFirst(goParse: GoParser, cfg: Config, name: string, n: nat)
    requires name in TopicNames(cfg.topics)
    requires |cfg.topics| <= n <= |WorkList(goParse, cfg)|
    ensures DeclaredBefore(WorkList(goParse, cfg), n, name)
  {
    var i :| 0 <= i < |cfg.topics| && TopicNames(cfg.topics)[i] == name;
    var items := WorkList(goParse, cfg);
    assert items[i] == TopicItemOf(goParse, cfg, cfg.topics[i]);
  }

  /** The n-th entry of the work list, by section. */
  lemma EntryIsGood(goParse: GoParser, cfg: Config, n: nat)
    requires ValidConfig(goParse, cfg) && n < |WorkList(goParse, cfg)|
    ensures
      var items := WorkList(goParse, cfg);
      && Sound(items[n])
      && (items[n].SubItem? ==>
            && DeclaredBefore(items, n, items[n].sub.topic)
            && (items[n].sub.deadLetter.Some? ==> DeclaredBefore(items, n, items[n].sub.deadLetter.value.topic)))
  {
    var items := WorkList(goParse, cfg);
    var subs := SubItems(goParse, cfg, cfg.topics);
    var t := |cfg.topics|;
    if n < t {
      assert items[n] == TopicItemOf(goParse, cfg, cfg.topics[n]);
      ValidatedTopicIsLossless(goParse, cfg.topics[n]);
    } else if n < t + |subs| {
      var i, j := SubItemSource(goParse, cfg, cfg.topics, n - t);
      assert items[n] == subs[n - t];
      assert TopicOk(goParse, cfg.topics[i]);
      var s := cfg.topics[i].subscriptions[j];
      assert SubOk(goParse, s);
      assert TopicNames(cfg.topics)[i] == cfg.topics[i].name;
      TopicNameIsGood(goParse, cfg, cfg.topics[i].name);
      TopicDeclaredFirst(goParse, cfg, cfg.topics[i].name, n);
      if s.deadLetter.Some? {
        TopicNameIsGood(goParse, cfg, s.deadLetter.value.topic);
        TopicDeclaredFirst(goParse, cfg, s.deadLetter.value.topic, n);
      }
      ValidatedBuildIsLossless(goParse, cfg.topics[i].name, s);
    } else {
      assert items[n] == BucketItemOf(cfg, cfg.buckets[n - t - |subs|]);
    }
  }

  lemma KeysDiffer(env: Env, goParse: GoParser, cfg: Config, a: nat, b: nat)
    requires ValidConfig(goParse, cfg) && a < b < |WorkList(goParse, cfg)|
    ensures KeyOf(env, WorkList(goParse, cfg)[a]) != KeyOf(env, WorkList(goParse, cfg)[b])
  {
    var t := |cfg.topics|;
    var m := t + |SubItems(goParse, cfg, cfg.topics)|;
    if b < t {
      TopicKeysDiffer(env, goParse, cfg, a, b);
    } else if t <= a && b < m {
      SubEntriesDiffer(env, goParse, cfg, a, b);
    } else if m <= a {
      BucketKeysDiffer(env, goParse, cfg, a, b);
    } else {
      SectionsDiffer(goParse, cfg, a, b);
    }
  }

  lemma TopicKeysDiffer(env: Env, goParse: GoParser, cfg: Config, a: nat, b: nat)
    requires ValidConfig(goParse, cfg) && a < b < |cfg.topics|
    ensures KeyOf(env, WorkList(goParse, cfg)[a]) != KeyOf(env, WorkList(goParse, cfg)[b])
  {
    var x, y := cfg.topics[a], cfg.topics[b];
    assert TopicNames(cfg.topics)[a] == x.name && TopicNames(cfg.topics)[b] == y.name;
    assert WorkList(goParse, cfg)[a] == TopicItemOf(goParse, cfg, x);
    assert WorkList(goParse, cfg)[b] == TopicItemOf(goParse, cfg, y);
    if TopicPath(env.project, x.name) == TopicPath(env.project, y.name) {
      TopicPathInjective(env.project, x.name, y.name);
    }
  }

  lemma SubEntriesDiffer(env: Env, goParse: GoParser, cfg: Config, a: nat, b: nat)
    requires ValidConfig(goParse, cfg)
    requires |cfg.topics| <= a < b < |cfg.topics| + |SubItems(goParse, cfg, cfg.topics)|
    ensures KeyOf(env, WorkList(goParse, cfg)[a]) != KeyOf(env, WorkList(goParse, cfg)[b])
  {
    SubEntryAt(goParse, cfg, a);
    SubEntryAt(goParse, cfg, b);
    SubKeysDiffer(env, goParse, cfg, a - |cfg.topics|, b - |cfg.topics|);
  }

  lemma SubEntryAt(goParse: GoParser, cfg: Config, n: nat)
    requires |cfg.topics| <= n < |cfg.topics| + |SubItems(goParse, cfg, cfg.topics)|
    ensures WorkList(goParse, cfg)[n] == SubItems(goParse, cfg, cfg.topics)[n - |cfg.topics|]
  {
  }

  lemma BucketKeysDiffer(env: Env, goParse: GoParser, cfg: Config, a: nat, b: nat)
    requires ValidConfig(goParse, cfg)
    requires |cfg.topics| + |SubItems(goParse, cfg, cfg.topics)| <= a < b < |WorkList(goParse, cfg)|
    ensures KeyOf(env, WorkList(goParse, cfg)[a]) != KeyOf(env, WorkList(goParse, cfg)[b])
  {
  }

  lemma SubKeysDiffer(env: Env, goParse: GoParser, cfg: Config, a: nat, b: nat)
    requires ValidConfig(goParse, cfg) && a < b < |SubItems(goParse, cfg, cfg.topics)|
    ensures
      var subs := SubItems(goParse, cfg, cfg.topics);
      KeyOf(env, subs[a]) != KeyOf(env, subs[b])
  {
    var i, j := SubItemSource(goParse, cfg, cfg.topics, a);
    var i', j' := SubItemSource(goParse, cfg, cfg.topics, b);
    var x, y := cfg.topics[i].subscriptions[j].name, cfg.topics[i'].subscriptions[j'].name;
    if SubscriptionPath(env.project, x) == SubscriptionPath(env.project, y) {
      SubscriptionPathInjective(env.project, x, y);
    }
  }

  lemma SectionsDiffer(goParse: GoParser, cfg: Config, a: nat, b: nat)
    requires a < b < |WorkList(goParse, cfg)|
    requires
      var t, m := |cfg.topics|, |cfg.topics| + |SubItems(goParse, cfg, cfg.topics)|;
      (a < t <= b) || (a < m <= b)
    ensures
      var items := WorkList(goParse, cfg);
      || (items[a].TopicItem? && !items[b].TopicItem?)
      || (items[a].SubItem? && items[b].BucketItem?)
  {
    var t, subs := |cfg.topics|, SubItems(goParse, cfg, cfg.topics);
    var items := WorkList(goParse, cfg);
    if a < t {
      assert items[a] == TopicItemOf(goParse, cfg, cfg.topics[a]);
    } else {
      assert items[a] == subs[a - t];
      var _, _ := SubItemSource(goParse, cfg, cfg.topics, a - t);
    }
    if b < t + |subs| {
      assert items[b] == subs[b - t];
      var _, _ := SubItemSource(goParse, cfg, cfg.topics, b - t);
    } else {
      assert items[b] == BucketItemOf(cfg, cfg.buckets[b - t - |subs|]);
    }
  }

  /** A validated config gives rise to a well-formed work list: sound entries, distinct resources,
      and every topic a subscription refers to earlier in the list. */
  lemma ValidatedWorkListIsWellFormed(env: Env, goParse: GoParser, cfg: Config)
    requires ValidConfig(goParse, cfg)
    ensures WellFormed(env, WorkList(goParse, cfg))
  {
    var items := WorkList(goParse, cfg);
    forall n | 0 <= n < |items|
      ensures Sound(items[n])
      ensures items[n].SubItem? ==>
                && DeclaredBefore(items, n, items[n].sub.topic)
                && (items[n].sub.deadLetter.Some? ==> DeclaredBefore(items, n, items[n].sub.deadLetter.value.topic))
    {
      EntryIsGood(goParse, cfg, n);
    }
    forall a, b | 0 <= a < b < |items|
      ensures KeyOf(env, items[a]) != KeyOf(env, items[b])
    {
      KeysDiffer(env, goParse, cfg, a, b);
    }
  }

  // ----- positions in the work list -----

  /** No builder will return a parse error. */
  predicate EveryEntryBuilds(goParse: GoParser, cfg: Config) {
    && (forall i :: 0 <= i < |cfg.topics| ==> Parses(goParse, cfg.topics[i].messageRetention))
    && (forall i, j :: 0 <= i < |cfg.topics| && 0 <= j < |cfg.topics[i].subscriptions| ==>
          Buildable(goParse, cfg.topics[i].subscriptions[j]))
  }

  lemma ValidatedEntriesBuild(goParse: GoParser, cfg: Config)
    requires ValidConfig(goParse, cfg)
    ensures EveryEntryBuilds(goParse, cfg)
  {
  }

  /** The index of the first subscription entry of the i-th topic. */
  function SubsBefore(goParse: GoParser, cfg: Config, i: nat): nat
    requires i <= |cfg.topics|
  {
    |cfg.topics| + |SubItems(goParse, cfg, cfg.topics[..i])|
  }

  lemma NoSubsYet(goParse: GoParser, cfg: Config)
    ensures SubsBefore(goParse, cfg, 0) == |cfg.topics|
  {
  }

  lemma SubsBeforeStep(goParse: GoParser, cfg: Config, i: nat)
    requires i < |cfg.topics|
    ensures SubsBefore(goParse, cfg, i + 1) == SubsBefore(goParse, cfg, i) + |cfg.topics[i].subscriptions|
  {
    assert cfg.topics[..i + 1][..i] == cfg.topics[..i];
  }

  lemma TopicEntry(goParse: GoParser, cfg: Config, i: nat)
    requires i < |cfg.topics|
    ensures i < |WorkList(goParse, cfg)| && WorkList(goParse, cfg)[i] == TopicItemOf(goParse, cfg, cfg.topics[i])
  {
  }

  /** Where the j-th subscription of the i-th topic sits in the work list. */
  lemma SubEntry(goParse: GoParser, cfg: Config, i: nat, j: nat)
    requires i < |cfg.topics| && j < |cfg.topics[i].subscriptions|
    ensures
      var n := SubsBefore(goParse, cfg, i) + j;
      && n < |WorkList(goParse, cfg)|
      && WorkList(goParse, cfg)[n] == SubItemOf(goParse, cfg, cfg.topics[i].name, cfg.topics[i].subscriptions[j])
  {
    SubItemAt(goParse, cfg, i, j);
    var n := SubsBefore(goParse, cfg, i) + j;
    assert WorkList(goParse, cfg)[n] == SubItems(goParse, cfg, cfg.topics)[n - |cfg.topics|];
  }

  lemma SubItemAt(goParse: GoParser, cfg: Config, i: nat, j: nat)
    requires i < |cfg.topics| && j < |cfg.topics[i].subscriptions|
    ensures
      var k := |SubItems(goParse, cfg, cfg.topics[..i])| + j;
      var subs := SubItems(goParse, cfg, cfg.topics);
      k < |subs| && subs[k] == SubItemOf(goParse, cfg, cfg.topics[i].name, cfg.topics[i].subscriptions[j])
  {
    SubItemsPrefix(goParse, cfg, cfg.topics, i + 1);
    assert cfg.topics[..i + 1][..i] == cfg.topics[..i];
    var upto := SubItems(goParse, cfg, cfg.topics[..i + 1]);
    var k := |SubItems(goParse, cfg, cfg.topics[..i])| + j;
    assert upto[k] == ItemsOfTopic(goParse, cfg, cfg.topics[i])[j];
  }

  lemma AllEntries(goParse: GoParser, cfg: Config)
    ensures |WorkList(goParse, cfg)| == SubsBefore(goParse, cfg, |cfg.topics|) + |cfg.buckets|
  {
    assert cfg.topics[..|cfg.topics|] == cfg.topics;
  }

  lemma BucketEntry(goParse: GoParser, cfg: Config, i: nat)
    requires i < |cfg.buckets|
    ensures
      var n := SubsBefore(goParse, cfg, |cfg.topics|) + i;
      && n < |WorkList(goParse, cfg)|
      && WorkList(goParse, cfg)[n] == BucketItemOf(cfg, cfg.buckets[i])
  {
    AllEntries(goParse, cfg);
  }

  lemma {:induction false} SubItemsPrefix(goParse: GoParser, cfg: Config, topics: seq<TopicConfig>, n: nat)
    requires n <= |topics|
    ensures SubItems(goParse, cfg, topics[..n]) <= SubItems(goParse, cfg, topics)
    decreases |topics| - n
  {
    if n < |topics| {
      SubItemsPrefix(goParse, cfg, topics, n + 1);
      assert topics[..n + 1][..n] == topics[..n];
    } else {
      assert topics[..n] == topics;
    }
  }
}
