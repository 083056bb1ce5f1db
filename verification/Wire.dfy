/** Conversion between the neutral resources and the Pub/Sub messages
    (internal/client/pubsub.go). */
module Wire {
  import opened Client

  datatype ProtoTopic = ProtoTopic(name: string, labels: Labels, messageRetention: Option<int>)

  datatype ProtoExpiration = ProtoExpiration(ttl: Option<int>)

  datatype ProtoWrapper = WrapperAbsent | PubsubWrapper | NoWrapper(writeMetadata: bool)

  datatype ProtoPush = ProtoPush(
    endpoint: string,
    attributes: Labels,
    oidcToken: Option<OIDCToken>,
    wrapper: ProtoWrapper)

  datatype ProtoDeadLetter = ProtoDeadLetter(topic: string, maxDeliveryAttempts: int)

  datatype ProtoRetry = ProtoRetry(minimumBackoff: Option<int>, maximumBackoff: Option<int>)

  datatype ProtoSubscription = ProtoSubscription(
    name: string,
    topic: string,
    ackDeadlineSeconds: int,
    messageRetention: Option<int>,
    retainAckedMessages: bool,
    enableMessageOrdering: bool,
    enableExactlyOnceDelivery: bool,
    filter: string,
    expiration: Option<ProtoExpiration>,
    labels: Labels,
    push: Option<ProtoPush>,
    deadLetter: Option<ProtoDeadLetter>,
    retry: Option<ProtoRetry>)

  const MAX_INT32: int := 0x7FFF_FFFF
  const MIN_INT32: int := -0x8000_0000

  // ----- resource names -----

  function TopicPath(project: string, name: string): string {
    "projects/" + project + "/topics/" + name
  }

  function SubscriptionPath(project: string, name: string): string {
    "projects/" + project + "/subscriptions/" + name
  }

  /** The trailing id of a qualified path: everything after the last slash. */
  function ShortName(path: string): (id: string)
    ensures '/' !in id
  {
    if path == [] then []
    else
      var last := path[|path| - 1];
      if last == '/' then [] else ShortName(path[..|path| - 1]) + [last]
  }

  /** Shortening undoes qualification for a name exactly when the name is slash-free. */
  lemma {:induction false} ShortNameInverts(prefix: string, name: string)
    ensures ShortName(prefix + "/" + name) == name <==> '/' !in name
  {
    if '/' !in name {
      ShortNameOfSuffix(prefix, name);
    }
  }

  lemma {:induction false} ShortNameOfSuffix(prefix: string, name: string)
    requires '/' !in name
    ensures ShortName(prefix + "/" + name) == name
  {
    var path := prefix + "/" + name;
    if name == [] {
      assert path[|path| - 1] == '/';
    } else {
      var init := name[..|name| - 1];
      assert path[..|path| - 1] == prefix + "/" + init;
      assert path[|path| - 1] == name[|name| - 1] != '/';
      ShortNameOfSuffix(prefix, init);
      assert name == init + [name[|name| - 1]];
    }
  }

  /** The trailing id is what follows the last slash, or everything. */
  lemma ShortNameMeaning(path: string, name: string)
    ensures ShortName(path) == name <==>
            '/' !in name && (path == name || exists prefix :: path == prefix + "/" + name)
  {
    if ShortName(path) == name {
      ShortNameIsTail(path);
    } else if '/' !in name {
      if path == name {
        WholeIsShort(name);
      }
      forall prefix | path == prefix + "/" + name
        ensures false
      {
        ShortNameOfSuffix(prefix, name);
      }
    }
  }

  lemma {:induction false} ShortNameIsTail(path: string)
    ensures path == ShortName(path) || exists prefix :: path == prefix + "/" + ShortName(path)
  {
    if path != [] {
      var init, last := path[..|path| - 1], path[|path| - 1];
      if last == '/' {
        assert path == init + "/" + [];
      } else {
        ShortNameIsTail(init);
        assert path == init + [last];
        if init != ShortName(init) {
          var prefix :| init == prefix + "/" + ShortName(init);
          assert path == prefix + "/" + ShortName(path);
        }
      }
    }
  }

  lemma {:induction false} WholeIsShort(name: string)
    requires '/' !in name
    ensures ShortName(name) == name
  {
    if name != [] {
      WholeIsShort(name[..|name| - 1]);
      assert name == name[..|name| - 1] + [name[|name| - 1]];
    }
  }

  /** A path taken apart at its slashes. */
  function Segments(path: string): (parts: seq<string>)
    ensures |parts| > 0
  {
    if path == [] then [""]
    else
      var init, last := Segments(path[..|path| - 1]), path[|path| - 1];
      if last == '/' then init + [""]
      else init[..|init| - 1] + [init[|init| - 1] + [last]]
  }

  lemma {:induction false} SegmentsOfJoin(path: string, part: string)
    requires '/' !in part
    ensures Segments(path + "/" + part) == Segments(path) + [part]
  {
    var whole := path + "/" + part;
    if part == [] {
      assert whole[..|whole| - 1] == path;
    } else {
      var init := part[..|part| - 1];
      assert whole[..|whole| - 1] == path + "/" + init;
      SegmentsOfJoin(path, init);
      assert part == init + [part[|part| - 1]];
    }
  }

  lemma {:induction false} SegmentsOfOne(part: string)
    requires '/' !in part
    ensures Segments(part) == [part]
  {
    if part != [] {
      SegmentsOfOne(part[..|part| - 1]);
      assert part == part[..|part| - 1] + [part[|part| - 1]];
    }
  }

  lemma FourSegments(a: string, b: string, c: string, d: string)
    requires '/' !in a && '/' !in b && '/' !in c && '/' !in d
    ensures Segments((a + "/") + b + ("/" + c + "/") + d) == [a, b, c, d]
  {
    assert (a + "/") + b + ("/" + c + "/") + d == a + "/" + b + "/" + c + "/" + d;
    SegmentsOfOne(a);
    SegmentsOfJoin(a, b);
    SegmentsOfJoin(a + "/" + b, c);
    SegmentsOfJoin(a + "/" + b + "/" + c, d);
  }

  /** The two qualified paths, part by part. */
  lemma PathSegments(project: string, name: string)
    requires '/' !in project && '/' !in name
    ensures Segments(TopicPath(project, name)) == ["projects", project, "topics", name]
    ensures Segments(SubscriptionPath(project, name)) == ["projects", project, "subscriptions", name]
  {
    assert "projects/" == "projects" + "/";
    assert "/topics/" == "/" + "topics" + "/";
    assert "/subscriptions/" == "/" + "subscriptions" + "/";
    FourSegments("projects", project, "topics", name);
    FourSegments("projects", project, "subscriptions", name);
  }

  lemma TopicPathShortens(project: string, name: string)
    ensures ShortName(TopicPath(project, name)) == name <==> '/' !in name
  {
    var prefix := "projects/" + project + "/topics";
    assert TopicPath(project, name) == prefix + "/" + name;
    ShortNameInverts(prefix, name);
  }

  lemma SubscriptionPathShortens(project: string, name: string)
    ensures ShortName(SubscriptionPath(project, name)) == name <==> '/' !in name
  {
    var prefix := "projects/" + project + "/subscriptions";
    assert SubscriptionPath(project, name) == prefix + "/" + name;
    ShortNameInverts(prefix, name);
  }

  lemma TopicPathInjective(project: string, a: string, b: string)
    requires TopicPath(project, a) == TopicPath(project, b)
    ensures a == b
  {
    var n := |"projects/" + project + "/topics/"|;
    assert TopicPath(project, a)[n..] == a;
    assert TopicPath(project, b)[n..] == b;
  }

  lemma SubscriptionPathInjective(project: string, a: string, b: string)
    requires SubscriptionPath(project, a) == SubscriptionPath(project, b)
    ensures a == b
  {
    var n := |"projects/" + project + "/subscriptions/"|;
    assert SubscriptionPath(project, a)[n..] == a;
    assert SubscriptionPath(project, b)[n..] == b;
  }

  // ----- durations -----

  /** A nil protobuf duration reads as zero. */
  function AsDuration(d: Option<int>): int {
    if d.Some? then d.value else 0
  }

  /** Only a positive duration is put on the wire. */
  function PositiveDuration(d: int): Option<int> {
    if d > 0 then Some(d) else None
  }

  /** `int32(d.Seconds())` for a positive duration: truncated to whole seconds, and the
      indefinite integer when the seconds do not fit 32 bits. */
  function TruncatedSeconds(d: int): int
    requires d > 0
  {
    var secs := d / SECOND;
    if secs <= MAX_INT32 then secs else MIN_INT32
  }

  // ----- push settings -----

  function ToProtoPush(p: PushConfig): ProtoPush {
    ProtoPush(p.endpoint, p.attributes, p.oidcToken,
              match p.wrapper
              case WrapperPubSub => PubsubWrapper
              case WrapperNone => NoWrapper(p.writeMetadata)
              case WrapperUnset => WrapperAbsent)
  }

  function FromProtoPush(p: ProtoPush): PushConfig {
    match p.wrapper
    case NoWrapper(w) => PushConfig(p.endpoint, p.attributes, p.oidcToken, WrapperNone, w)
    case PubsubWrapper => PushConfig(p.endpoint, p.attributes, p.oidcToken, WrapperPubSub, false)
    case WrapperAbsent => PushConfig(p.endpoint, p.attributes, p.oidcToken, WrapperUnset, false)
  }

  /** The push settings of a live subscription; a pull subscription reports none. */
  function PushOf(p: Option<ProtoPush>): Option<PushConfig> {
    if p.Some? then Some(FromProtoPush(p.value)) else None
  }

  // ----- topics -----

  function ToProtoTopic(project: string, t: Topic): ProtoTopic {
    ProtoTopic(TopicPath(project, t.name), t.labels, PositiveDuration(t.messageRetention))
  }

  function FromProtoTopic(t: ProtoTopic): Topic {
    Topic(ShortName(t.name), t.labels, AsDuration(t.messageRetention))
  }

  // ----- subscriptions -----

  function ToProtoRetry(r: RetryPolicy): ProtoRetry {
    ProtoRetry(PositiveDuration(r.minimumBackoff), PositiveDuration(r.maximumBackoff))
  }

  function ToProtoSubscription(project: string, s: Subscription): ProtoSubscription {
    ProtoSubscription(
      SubscriptionPath(project, s.name),
      TopicPath(project, s.topic),
      if s.ackDeadline > 0 then TruncatedSeconds(s.ackDeadline) else 0,
      PositiveDuration(s.messageRetention),
      DerefBool(s.retainAckedMessages),
      DerefBool(s.enableMessageOrdering),
      DerefBool(s.enableExactlyOnceDelivery),
      s.filter,
      if s.expirationSet then Some(ProtoExpiration(PositiveDuration(s.expirationTTL))) else None,
      s.labels,
      if s.push.Some? then Some(ToProtoPush(s.push.value)) else None,
      if s.deadLetter.Some?
      then Some(ProtoDeadLetter(TopicPath(project, s.deadLetter.value.topic), s.deadLetter.value.maxDeliveryAttempts))
      else None,
      if s.retry.Some? then Some(ToProtoRetry(s.retry.value)) else None)
  }

  function FromProtoSubscription(s: ProtoSubscription): Subscription {
    Subscription(
      ShortName(s.name),
      ShortName(s.topic),
      s.ackDeadlineSeconds * SECOND,
      AsDuration(s.messageRetention),
      Some(s.retainAckedMessages),
      Some(s.enableMessageOrdering),
      Some(s.enableExactlyOnceDelivery),
      s.filter,
      s.expiration.Some?,
      if s.expiration.Some? then AsDuration(s.expiration.value.ttl) else 0,
      s.labels,
      PushOf(s.push),
      if s.deadLetter.Some?
      then Some(DeadLetterPolicy(ShortName(s.deadLetter.value.topic), s.deadLetter.value.maxDeliveryAttempts))
      else None,
      if s.retry.Some?
      then Some(RetryPolicy(AsDuration(s.retry.value.minimumBackoff), AsDuration(s.retry.value.maximumBackoff)))
      else None)
  }

  // ----- each direction by itself -----

  /** What is put on the wire for an optional duration: the value if positive, else nothing. */
  predicate SentAs(d: int, sent: Option<int>) {
    if d > 0 then sent == Some(d) else sent == None
  }

  /** What an optional duration on the wire is read as: the value, or zero for nothing. */
  predicate ReadAs(sent: Option<int>, d: int) {
    (sent.Some? ==> d == sent.value) && (sent.None? ==> d == 0)
  }

  lemma TopicMessage(project: string, t: Topic)
    ensures
      var m := ToProtoTopic(project, t);
      m.name == TopicPath(project, t.name) && m.labels == t.labels && SentAs(t.messageRetention, m.messageRetention)
  {
  }

  lemma TopicRead(m: ProtoTopic)
    ensures
      var t := FromProtoTopic(m);
      t.name == ShortName(m.name) && t.labels == m.labels && ReadAs(m.messageRetention, t.messageRetention)
  {
  }

  lemma PushMessage(p: PushConfig)
    ensures
      var m := ToProtoPush(p);
      && m.endpoint == p.endpoint && m.attributes == p.attributes && m.oidcToken == p.oidcToken
      && (m.wrapper == PubsubWrapper <==> p.wrapper == WrapperPubSub)
      && (m.wrapper == WrapperAbsent <==> p.wrapper == WrapperUnset)
      && (m.wrapper.NoWrapper? <==> p.wrapper == WrapperNone)
      && (m.wrapper.NoWrapper? ==> m.wrapper.writeMetadata == p.writeMetadata)
  {
  }

  lemma PushRead(m: ProtoPush)
    ensures
      var p := FromProtoPush(m);
      && p.endpoint == m.endpoint && p.attributes == m.attributes && p.oidcToken == m.oidcToken
      && (p.wrapper == WrapperPubSub <==> m.wrapper == PubsubWrapper)
      && (p.wrapper == WrapperUnset <==> m.wrapper == WrapperAbsent)
      && (p.wrapper == WrapperNone <==> m.wrapper.NoWrapper?)
      && (p.writeMetadata <==> m.wrapper == NoWrapper(true))
  {
  }

  /** What a subscription's message holds, field by field. */
  lemma SubscriptionMessage(project: string, s: Subscription)
    ensures
      var m := ToProtoSubscription(project, s);
      && m.name == SubscriptionPath(project, s.name) && m.topic == TopicPath(project, s.topic)
      && m.filter == s.filter && m.labels == s.labels
      && (m.retainAckedMessages <==> s.retainAckedMessages == Some(true))
      && (m.enableMessageOrdering <==> s.enableMessageOrdering == Some(true))
      && (m.enableExactlyOnceDelivery <==> s.enableExactlyOnceDelivery == Some(true))
      && SentAs(s.messageRetention, m.messageRetention)
      && (m.expiration.Some? <==> s.expirationSet)
      && (m.expiration.Some? ==> SentAs(s.expirationTTL, m.expiration.value.ttl))
      && (m.push.Some? <==> s.push.Some?)
      && (m.push.Some? ==> m.push.value == ToProtoPush(s.push.value))
  {
  }

  lemma PolicyMessage(project: string, s: Subscription)
    ensures
      var m := ToProtoSubscription(project, s);
      && (m.deadLetter.Some? <==> s.deadLetter.Some?)
      && (m.deadLetter.Some? ==>
            && m.deadLetter.value.topic == TopicPath(project, s.deadLetter.value.topic)
            && m.deadLetter.value.maxDeliveryAttempts == s.deadLetter.value.maxDeliveryAttempts)
      && (m.retry.Some? <==> s.retry.Some?)
      && (m.retry.Some? ==>
            && SentAs(s.retry.value.minimumBackoff, m.retry.value.minimumBackoff)
            && SentAs(s.retry.value.maximumBackoff, m.retry.value.maximumBackoff))
  {
  }

  /** The ack deadline goes out in whole seconds, rounded down, and not at all unless positive. */
  lemma AckDeadlineMessage(project: string, s: Subscription)
    requires s.ackDeadline <= MAX_INT32 * SECOND
    ensures
      var secs := ToProtoSubscription(project, s).ackDeadlineSeconds;
      if s.ackDeadline <= 0 then secs == 0
      else 0 <= secs && secs * SECOND <= s.ackDeadline < (secs + 1) * SECOND
  {
  }

  /** What a subscription's message is read as, field by field. */
  lemma SubscriptionRead(m: ProtoSubscription)
    ensures
      var s := FromProtoSubscription(m);
      && s.name == ShortName(m.name) && s.topic == ShortName(m.topic)
      && s.filter == m.filter && s.labels == m.labels
      && s.ackDeadline == m.ackDeadlineSeconds * SECOND
      && s.retainAckedMessages == Some(m.retainAckedMessages)
      && s.enableMessageOrdering == Some(m.enableMessageOrdering)
      && s.enableExactlyOnceDelivery == Some(m.enableExactlyOnceDelivery)
      && ReadAs(m.messageRetention, s.messageRetention)
      && (s.expirationSet <==> m.expiration.Some?)
      && (m.expiration.Some? ==> ReadAs(m.expiration.value.ttl, s.expirationTTL))
      && (m.expiration.None? ==> s.expirationTTL == 0)
      && (s.push.Some? <==> m.push.Some?)
      && (s.push.Some? ==> s.push.value == FromProtoPush(m.push.value))
  {
  }

  lemma PolicyRead(m: ProtoSubscription)
    ensures
      var s := FromProtoSubscription(m);
      && (s.deadLetter.Some? <==> m.deadLetter.Some?)
      && (s.deadLetter.Some? ==>
            && s.deadLetter.value.topic == ShortName(m.deadLetter.value.topic)
            && s.deadLetter.value.maxDeliveryAttempts == m.deadLetter.value.maxDeliveryAttempts)
      && (s.retry.Some? <==> m.retry.Some?)
      && (s.retry.Some? ==>
            && ReadAs(m.retry.value.minimumBackoff, s.retry.value.minimumBackoff)
            && ReadAs(m.retry.value.maximumBackoff, s.retry.value.maximumBackoff))
  {
  }

  method BuildProtoRetry(r: RetryPolicy) returns (out: ProtoRetry)
    ensures out == ToProtoRetry(r)
  {
    out := ProtoRetry(None, None);
    if r.minimumBackoff > 0 {
      out := out.(minimumBackoff := Some(r.minimumBackoff));
    }
    if r.maximumBackoff > 0 {
      out := out.(maximumBackoff := Some(r.maximumBackoff));
    }
  }

  /** The message builder as the source writes it: optional fields stay unset until assigned. */
  method BuildProtoSubscription(project: string, s: Subscription) returns (out: ProtoSubscription)
    ensures out == ToProtoSubscription(project, s)
  {
    var ackDeadlineSeconds: int := 0;
    if s.ackDeadline > 0 {
      ackDeadlineSeconds := TruncatedSeconds(s.ackDeadline);
    }
    var retention: Option<int> := None;
    if s.messageRetention > 0 {
      retention := Some(s.messageRetention);
    }
    var expiration: Option<ProtoExpiration> := None;
    if s.expirationSet {
      expiration := Some(ProtoExpiration(None));
      if s.expirationTTL > 0 {
        expiration := Some(ProtoExpiration(Some(s.expirationTTL)));
      }
    }
    var push: Option<ProtoPush> := None;
    if s.push.Some? {
      push := Some(ToProtoPush(s.push.value));
    }
    var deadLetter: Option<ProtoDeadLetter> := None;
    if s.deadLetter.Some? {
      deadLetter := Some(ProtoDeadLetter(
        TopicPath(project, s.deadLetter.value.topic), s.deadLetter.value.maxDeliveryAttempts));
    }
    var retry: Option<ProtoRetry> := None;
    if s.retry.Some? {
      var policy := BuildProtoRetry(s.retry.value);
      retry := Some(policy);
    }
    out := ProtoSubscription(
      SubscriptionPath(project, s.name), TopicPath(project, s.topic), ackDeadlineSeconds, retention,
      DerefBool(s.retainAckedMessages), DerefBool(s.enableMessageOrdering),
      DerefBool(s.enableExactlyOnceDelivery), s.filter, expiration, s.labels, push, deadLetter, retry);
  }

  /** What a subscription must satisfy to survive the wire. */
  predicate Transmissible(s: Subscription) {
    && '/' !in s.name && '/' !in s.topic
    && 0 <= s.ackDeadline <= MAX_INT32 * SECOND && s.ackDeadline % SECOND == 0
    && 0 <= s.messageRetention
    && 0 <= s.expirationTTL && (s.expirationTTL != 0 ==> s.expirationSet)
    && (s.push.Some? && s.push.value.writeMetadata ==> s.push.value.wrapper == WrapperNone)
    && (s.deadLetter.Some? ==> '/' !in s.deadLetter.value.topic)
    && (s.retry.Some? ==> 0 <= s.retry.value.minimumBackoff && 0 <= s.retry.value.maximumBackoff)
  }

  /** The only thing a round trip may change: an unset flag comes back as false. */
  function FlagsSettled(s: Subscription): Subscription {
    s.(retainAckedMessages := Some(DerefBool(s.retainAckedMessages)),
       enableMessageOrdering := Some(DerefBool(s.enableMessageOrdering)),
       enableExactlyOnceDelivery := Some(DerefBool(s.enableExactlyOnceDelivery)))
  }

  lemma AckDeadlineRoundTrip(project: string, s: Subscription)
    ensures ToProtoSubscription(project, s).ackDeadlineSeconds * SECOND == s.ackDeadline
            <==> 0 <= s.ackDeadline <= MAX_INT32 * SECOND && s.ackDeadline % SECOND == 0
  {
  }

  function RoundTrip(project: string, s: Subscription): Subscription {
    FromProtoSubscription(ToProtoSubscription(project, s))
  }

  lemma NamesRoundTrip(project: string, s: Subscription)
    ensures RoundTrip(project, s).name == s.name <==> '/' !in s.name
    ensures RoundTrip(project, s).topic == s.topic <==> '/' !in s.topic
  {
    SubscriptionPathShortens(project, s.name);
    TopicPathShortens(project, s.topic);
  }

  lemma DurationsRoundTrip(project: string, s: Subscription)
    ensures RoundTrip(project, s).messageRetention == s.messageRetention <==> 0 <= s.messageRetention
    ensures RoundTrip(project, s).expirationSet == s.expirationSet
    ensures RoundTrip(project, s).expirationTTL == s.expirationTTL <==>
            0 <= s.expirationTTL && (s.expirationTTL != 0 ==> s.expirationSet)
  {
  }

  lemma PushRoundTrip(project: string, s: Subscription)
    ensures RoundTrip(project, s).push == s.push <==>
            (s.push.Some? && s.push.value.writeMetadata ==> s.push.value.wrapper == WrapperNone)
  {
  }

  lemma DeadLetterRoundTrip(project: string, s: Subscription)
    ensures RoundTrip(project, s).deadLetter == s.deadLetter <==>
            (s.deadLetter.Some? ==> '/' !in s.deadLetter.value.topic)
  {
    if s.deadLetter.Some? {
      TopicPathShortens(project, s.deadLetter.value.topic);
    }
  }

  lemma RetryRoundTrip(project: string, s: Subscription)
    ensures RoundTrip(project, s).retry == s.retry <==>
            (s.retry.Some? ==> 0 <= s.retry.value.minimumBackoff && 0 <= s.retry.value.maximumBackoff)
  {
  }

  /** Reading back what was sent gives the same subscription exactly when it is transmissible. */
  lemma SubscriptionRoundTrip(project: string, s: Subscription)
    ensures RoundTrip(project, s) == FlagsSettled(s) <==> Transmissible(s)
  {
    NamesRoundTrip(project, s);
    AckDeadlineRoundTrip(project, s);
    DurationsRoundTrip(project, s);
    PushRoundTrip(project, s);
    DeadLetterRoundTrip(project, s);
    RetryRoundTrip(project, s);
  }

  lemma TopicRoundTrip(project: string, t: Topic)
    ensures FromProtoTopic(ToProtoTopic(project, t)) == t <==> '/' !in t.name && 0 <= t.messageRetention
  {
    TopicPathShortens(project, t.name);
  }
}
