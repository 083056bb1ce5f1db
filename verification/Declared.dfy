/** What the config declares, in terms of nothing but its own fields and what the endpoint holds: the
    reference that diff, builders and wire conversion are measured against. */
module Declared {
  import opened Client
  import opened Wire
  import opened Reconcile
  import opened Resources
  import opened Durations
  import opened Config
  import opened Build

  // ----- settings and the fields that hold them -----

  /** Every wanted label is held; an absent one counts as the empty value. */
  predicate LabelsHeld(want: Labels, held: Labels) {
    forall k :: k in want ==>
      (k in held && held[k] == want[k]) || (k !in held && want[k] == "")
  }

  lemma LabelsHeldMeaning(want: Labels, held: Labels)
    ensures LabelsHeld(want, held) <==> LabelsSubset(want, held)
  {
    if LabelsSubset(want, held) {
      forall k | k in want
        ensures (k in held && held[k] == want[k]) || (k !in held && want[k] == "")
      {
        assert Get(held, k) == want[k];
      }
    }
  }

  /** The path ends in the name. */
  ghost predicate EndsIn(path: string, name: string) {
    path == name || exists prefix :: path == prefix + "/" + name
  }

  predicate PushHeld(sub: SubConfig, m: ProtoPush) {
    && m.endpoint == sub.pushEndpoint
    && LabelsHeld(sub.pushAttributes, m.attributes)
    && (sub.pushOIDCToken.Some? ==> m.oidcToken == sub.pushOIDCToken)
    && (sub.pushWrapper == "pubsub" ==> m.wrapper == PubsubWrapper || m.wrapper == WrapperAbsent)
    && (sub.pushWrapper == "none" ==> m.wrapper == NoWrapper(sub.pushWriteMetadata))
  }

  /** The subscription holds what the config writes under this path; what it does not write is free. */
  ghost predicate SubHolds(goParse: GoParser, sub: SubConfig, m: ProtoSubscription, p: Path) {
    match p
    case AckDeadlinePath =>
      sub.ackDeadline != "" ==> ParseDuration(goParse, sub.ackDeadline) == Some(m.ackDeadlineSeconds * SECOND)
    case MessageRetentionPath =>
      sub.messageRetention != "" ==> m.messageRetention == ParseDuration(goParse, sub.messageRetention)
    case RetainAckedPath => sub.retainAckedMessages.Some? ==> m.retainAckedMessages == sub.retainAckedMessages.value
    case ExactlyOncePath =>
      sub.enableExactlyOnceDelivery.Some? ==> m.enableExactlyOnceDelivery == sub.enableExactlyOnceDelivery.value
    case ExpirationPath =>
      && (sub.expirationTTL == EXPIRATION_NEVER ==>
            m.expiration.Some? && (m.expiration.value.ttl == None || m.expiration.value.ttl == Some(0)))
      && (sub.expirationTTL != "" && sub.expirationTTL != EXPIRATION_NEVER ==>
            m.expiration.Some? && m.expiration.value.ttl == ParseDuration(goParse, sub.expirationTTL))
    case LabelsPath => LabelsHeld(sub.labels, m.labels)
    case PushConfigPath => sub.pushEndpoint != "" ==> m.push.Some? && PushHeld(sub, m.push.value)
    case DeadLetterPath =>
      sub.deadLetter.Some? ==>
        && m.deadLetter.Some?
        && EndsIn(m.deadLetter.value.topic, sub.deadLetter.value.topic)
        && m.deadLetter.value.maxDeliveryAttempts == sub.deadLetter.value.maxDeliveryAttempts
    case RetryPath =>
      sub.retry.Some? ==>
        && m.retry.Some?
        && BackoffHeld(goParse, sub.retry.value.minimumBackoff, m.retry.value.minimumBackoff)
        && BackoffHeld(goParse, sub.retry.value.maximumBackoff, m.retry.value.maximumBackoff)
    case VersioningPath => true
  }

  /** A backoff of zero, written or omitted, may be held as nothing. */
  predicate BackoffHeld(goParse: GoParser, written: string, held: Option<int>) {
    ParseDuration(goParse, written) == held || (ParseDuration(goParse, written) == Some(0) && held == None)
  }

  predicate TopicHolds(goParse: GoParser, t: TopicConfig, m: ProtoTopic, p: Path) {
    match p
    case MessageRetentionPath =>
      t.messageRetention != "" ==> m.messageRetention == ParseDuration(goParse, t.messageRetention)
    case LabelsPath => LabelsHeld(t.labels, m.labels)
    case _ => true
  }

  predicate BucketHolds(b: BucketConfig, m: Bucket, p: Path) {
    p == VersioningPath && b.versioning.Some? ==> m.versioningEnabled == b.versioning.value
  }

  // ----- silence means agreement -----

  lemma DurationSilence(goParse: GoParser, sub: SubConfig, topic: string, m: ProtoSubscription, p: Path)
    requires SubOk(goParse, sub) && '/' !in topic
    requires sub.deadLetter.Some? ==> '/' !in sub.deadLetter.value.topic
    requires p == AckDeadlinePath || p == MessageRetentionPath || p == ExpirationPath
    ensures !SubDrifts(FromProtoSubscription(m), BuiltSub(goParse, topic, sub), p) <==> SubHolds(goParse, sub, m, p)
  {
    ValidatedBuildIsLossless(goParse, topic, sub);
  }

  lemma PushSilence(goParse: GoParser, sub: SubConfig, topic: string, m: ProtoSubscription)
    requires SubOk(goParse, sub)
    ensures !SubDrifts(FromProtoSubscription(m), BuiltSub(goParse, topic, sub), PushConfigPath) <==>
            SubHolds(goParse, sub, m, PushConfigPath)
  {
    if m.push.Some? {
      LabelsHeldMeaning(sub.pushAttributes, m.push.value.attributes);
    }
  }

  lemma DeadLetterSilence(goParse: GoParser, sub: SubConfig, topic: string, m: ProtoSubscription)
    requires SubOk(goParse, sub)
    requires sub.deadLetter.Some? ==> '/' !in sub.deadLetter.value.topic
    ensures !SubDrifts(FromProtoSubscription(m), BuiltSub(goParse, topic, sub), DeadLetterPath) <==>
            SubHolds(goParse, sub, m, DeadLetterPath)
  {
    if sub.deadLetter.Some? && m.deadLetter.Some? {
      ShortNameMeaning(m.deadLetter.value.topic, sub.deadLetter.value.topic);
    }
  }

  lemma RetrySilence(goParse: GoParser, sub: SubConfig, topic: string, m: ProtoSubscription)
    requires SubOk(goParse, sub)
    ensures !SubDrifts(FromProtoSubscription(m), BuiltSub(goParse, topic, sub), RetryPath) <==>
            SubHolds(goParse, sub, m, RetryPath)
  {
  }

  /** The diff is silent about a path exactly when the subscription holds what the config writes there. */
  lemma SubSilenceIsAgreement(goParse: GoParser, sub: SubConfig, topic: string, m: ProtoSubscription, p: Path)
    requires SubOk(goParse, sub) && '/' !in topic
    requires sub.deadLetter.Some? ==> '/' !in sub.deadLetter.value.topic
    ensures !SubDrifts(FromProtoSubscription(m), BuiltSub(goParse, topic, sub), p) <==> SubHolds(goParse, sub, m, p)
  {
    match p
    case PushConfigPath => PushSilence(goParse, sub, topic, m);
    case DeadLetterPath => DeadLetterSilence(goParse, sub, topic, m);
    case RetryPath => RetrySilence(goParse, sub, topic, m);
    case LabelsPath => LabelsHeldMeaning(sub.labels, m.labels);
    case RetainAckedPath =>
    case ExactlyOncePath =>
    case VersioningPath =>
    case _ => DurationSilence(goParse, sub, topic, m, p);
  }

  lemma TopicSilenceIsAgreement(goParse: GoParser, t: TopicConfig, m: ProtoTopic, p: Path)
    requires TopicOk(goParse, t)
    ensures !TopicDrifts(FromProtoTopic(m), BuiltTopic(goParse, t), p) <==> TopicHolds(goParse, t, m, p)
  {
    ValidatedTopicIsLossless(goParse, t);
    LabelsHeldMeaning(t.labels, m.labels);
  }

  lemma BucketSilenceIsAgreement(cfg: Config, b: BucketConfig, m: Bucket, p: Path)
    ensures !Drifts(BucketItemOf(cfg, b), BucketRes(m), p) <==> BucketHolds(b, m, p)
  {
  }

  // ----- what a create sends -----

  /** A backoff goes out as parsed, and not at all if that is zero. */
  predicate BackoffSent(goParse: GoParser, written: string, sent: Option<int>) {
    if ParseDuration(goParse, written) == Some(0) then sent == None else sent == ParseDuration(goParse, written)
  }

  predicate PushSent(sub: SubConfig, m: ProtoPush) {
    && m.endpoint == sub.pushEndpoint && m.attributes == sub.pushAttributes && m.oidcToken == sub.pushOIDCToken
    && (m.wrapper == WrapperAbsent <==> sub.pushWrapper == "")
    && (m.wrapper == PubsubWrapper <==> sub.pushWrapper == "pubsub")
    && (sub.pushWrapper == "none" ==> m.wrapper == NoWrapper(sub.pushWriteMetadata))
  }

  predicate PoliciesSent(project: string, goParse: GoParser, sub: SubConfig, m: ProtoSubscription) {
    && (m.deadLetter.Some? <==> sub.deadLetter.Some?)
    && (m.deadLetter.Some? ==>
          && m.deadLetter.value.topic == TopicPath(project, sub.deadLetter.value.topic)
          && m.deadLetter.value.maxDeliveryAttempts == sub.deadLetter.value.maxDeliveryAttempts)
    && (m.retry.Some? <==> sub.retry.Some?)
    && (m.retry.Some? ==>
          && BackoffSent(goParse, sub.retry.value.minimumBackoff, m.retry.value.minimumBackoff)
          && BackoffSent(goParse, sub.retry.value.maximumBackoff, m.retry.value.maximumBackoff))
  }

  predicate TimesSent(goParse: GoParser, sub: SubConfig, m: ProtoSubscription) {
    && (if sub.ackDeadline == "" then m.ackDeadlineSeconds == 0
        else ParseDuration(goParse, sub.ackDeadline) == Some(m.ackDeadlineSeconds * SECOND))
    && m.messageRetention == (if sub.messageRetention == "" then None else ParseDuration(goParse, sub.messageRetention))
    && (m.expiration.None? <==> sub.expirationTTL == "")
    && (sub.expirationTTL == EXPIRATION_NEVER ==> m.expiration == Some(ProtoExpiration(None)))
    && (sub.expirationTTL != "" && sub.expirationTTL != EXPIRATION_NEVER ==>
          m.expiration == Some(ProtoExpiration(ParseDuration(goParse, sub.expirationTTL))))
  }

  /** The message says what the config says, setting by setting. */
  predicate SubSent(project: string, goParse: GoParser, topic: string, sub: SubConfig, m: ProtoSubscription) {
    && m.name == SubscriptionPath(project, sub.name) && m.topic == TopicPath(project, topic)
    && m.filter == sub.filter && m.labels == sub.labels
    && (m.retainAckedMessages <==> sub.retainAckedMessages == Some(true))
    && (m.enableMessageOrdering <==> sub.enableMessageOrdering == Some(true))
    && (m.enableExactlyOnceDelivery <==> sub.enableExactlyOnceDelivery == Some(true))
    && TimesSent(goParse, sub, m)
    && (m.push.Some? <==> sub.pushEndpoint != "")
    && (m.push.Some? ==> PushSent(sub, m.push.value))
    && PoliciesSent(project, goParse, sub, m)
  }

  lemma TimesAsWritten(env: Env, goParse: GoParser, cfg: Config, topic: string, sub: SubConfig)
    requires SubOk(goParse, sub)
    ensures TimesSent(goParse, sub, Created(env, SubItemOf(goParse, cfg, topic, sub)).sub)
  {
    RangedDuration(goParse, sub.ackDeadline, MIN_ACK, MAX_ACK);
    RangedDuration(goParse, sub.messageRetention, MIN_RETENTION, MAX_RETENTION);
    if sub.expirationTTL != EXPIRATION_NEVER {
      RangedDuration(goParse, sub.expirationTTL, MIN_EXPIRATION, MAX_EXPIRATION);
    }
  }

  lemma PoliciesAsWritten(env: Env, goParse: GoParser, cfg: Config, topic: string, sub: SubConfig)
    requires SubOk(goParse, sub)
    ensures PoliciesSent(env.project, goParse, sub, Created(env, SubItemOf(goParse, cfg, topic, sub)).sub)
  {
  }

  lemma SubscriptionAsWritten(env: Env, goParse: GoParser, cfg: Config, topic: string, sub: SubConfig)
    requires SubOk(goParse, sub)
    ensures SubSent(env.project, goParse, topic, sub, Created(env, SubItemOf(goParse, cfg, topic, sub)).sub)
  {
    TimesAsWritten(env, goParse, cfg, topic, sub);
    PoliciesAsWritten(env, goParse, cfg, topic, sub);
  }

  /** A validated subscription's message stays within the limits of the service. */
  lemma MessageWithinLimits(env: Env, goParse: GoParser, cfg: Config, topic: string, sub: SubConfig)
    requires SubOk(goParse, sub)
    ensures
      var m := Created(env, SubItemOf(goParse, cfg, topic, sub)).sub;
      && (m.ackDeadlineSeconds == 0 || 10 <= m.ackDeadlineSeconds <= 600)
      && (m.messageRetention.Some? ==> 600 * SECOND <= m.messageRetention.value <= 31 * 24 * 3600 * SECOND)
      && (m.expiration.Some? && m.expiration.value.ttl.Some? ==>
            24 * 3600 * SECOND <= m.expiration.value.ttl.value <= 365 * 24 * 3600 * SECOND)
      && (m.deadLetter.Some? && m.deadLetter.value.maxDeliveryAttempts != 0 ==>
            5 <= m.deadLetter.value.maxDeliveryAttempts <= 100)
  {
    TimesAsWritten(env, goParse, cfg, topic, sub);
    PoliciesAsWritten(env, goParse, cfg, topic, sub);
  }

  lemma BackoffsWithinLimits(env: Env, goParse: GoParser, cfg: Config, topic: string, sub: SubConfig)
    requires SubOk(goParse, sub) && sub.retry.Some?
    ensures
      var r := Created(env, SubItemOf(goParse, cfg, topic, sub)).sub.retry.value;
      && (r.minimumBackoff.Some? ==> 0 < r.minimumBackoff.value <= 600 * SECOND)
      && (r.maximumBackoff.Some? ==> 0 < r.maximumBackoff.value <= 600 * SECOND)
      && (r.minimumBackoff.Some? && r.maximumBackoff.Some? ==> r.minimumBackoff.value <= r.maximumBackoff.value)
  {
  }

  predicate TopicSent(project: string, goParse: GoParser, t: TopicConfig, m: ProtoTopic) {
    && m.name == TopicPath(project, t.name) && m.labels == t.labels
    && m.messageRetention == (if t.messageRetention == "" then None else ParseDuration(goParse, t.messageRetention))
  }

  lemma TopicAsWritten(env: Env, goParse: GoParser, cfg: Config, t: TopicConfig)
    requires TopicOk(goParse, t)
    ensures TopicSent(env.project, goParse, t, Created(env, TopicItemOf(goParse, cfg, t)).topic)
  {
    RangedDuration(goParse, t.messageRetention, MIN_RETENTION, MAX_RETENTION);
  }

  predicate UpperOf(c: char, u: char) {
    || u == c || ('a' <= c <= 'z' && u as int == c as int - 32)
    || (c == '\U{131}' && u == 'I') || (c == '\U{17F}' && u == 'S')
  }

  /** A new bucket is as written, its storage class in the upper case the service knows. */
  predicate BucketSent(b: BucketConfig, m: Bucket) {
    && m.name == b.name && m.location == b.location
    && (m.versioningEnabled <==> b.versioning == Some(true))
    && m.storageClass in STORAGE_CLASSES
    && |m.storageClass| == |b.storageClass|
    && forall i :: 0 <= i < |b.storageClass| ==> UpperOf(b.storageClass[i], m.storageClass[i])
  }

  lemma {:induction false} ToUpperAt(s: string)
    ensures forall i :: 0 <= i < |s| ==> UpperOf(s[i], ToUpper(s)[i])
  {
    if s != [] {
      ToUpperAt(s[1..]);
    }
  }

  lemma BucketAsWritten(env: Env, cfg: Config, b: BucketConfig)
    requires BucketOk(b)
    ensures BucketSent(b, Created(env, BucketItemOf(cfg, b)).bucket)
  {
    ToUpperAt(b.storageClass);
  }

  // ----- reports on what cannot be changed -----

  /** A fixed field is reported exactly when the config states it and the subscription holds another. */
  lemma FixedReport(goParse: GoParser, topic: string, sub: SubConfig, m: ProtoSubscription)
    requires '/' !in topic
    ensures
      var report := Select(FIXED_FIELDS, FixedDriftTest(FromProtoSubscription(m), BuiltSub(goParse, topic, sub)));
      && (FilterField in report <==> sub.filter != "" && m.filter != sub.filter)
      && (OrderingField in report <==>
          sub.enableMessageOrdering.Some? && m.enableMessageOrdering != sub.enableMessageOrdering.value)
      && (TopicField in report <==> !EndsIn(m.topic, topic))
      && (report == [] <==>
          && (sub.filter == "" || m.filter == sub.filter)
          && (sub.enableMessageOrdering == None || sub.enableMessageOrdering == Some(m.enableMessageOrdering))
          && EndsIn(m.topic, topic))
  {
    var test := FixedDriftTest(FromProtoSubscription(m), BuiltSub(goParse, topic, sub));
    SelectMembers(FIXED_FIELDS, test);
    assert FIXED_FIELDS[0] == FilterField && FIXED_FIELDS[1] == OrderingField && FIXED_FIELDS[2] == TopicField;
    ShortNameMeaning(m.topic, topic);
    var report := Select(FIXED_FIELDS, test);
    assert report == [] || report[0] in report;
  }

  /** So is a create-time bucket attribute, compared without regard to case, if the endpoint states it. */
  lemma BucketReport(equalFold: FoldTest, cfg: Config, b: BucketConfig, m: Bucket)
    ensures
      var report := Select(BUCKET_FIELDS, CreateOnlyTest(equalFold, m, BucketItemOf(cfg, b).bucket));
      && (LocationField in report <==> b.location != "" && m.location != "" && !equalFold(b.location, m.location))
      && (StorageClassField in report <==>
          b.storageClass != "" && m.storageClass != "" && !equalFold(b.storageClass, m.storageClass))
      && (report == [] <==>
          && (b.location == "" || m.location == "" || equalFold(b.location, m.location))
          && (b.storageClass == "" || m.storageClass == "" || equalFold(b.storageClass, m.storageClass)))
  {
    var test := CreateOnlyTest(equalFold, m, BucketItemOf(cfg, b).bucket);
    SelectMembers(BUCKET_FIELDS, test);
    assert BUCKET_FIELDS[0] == LocationField && BUCKET_FIELDS[1] == StorageClassField;
    var report := Select(BUCKET_FIELDS, test);
    assert report == [] || report[0] in report;
  }
}
