/** One reconciled resource: its key, its drift, the message an update sends, and the value a
    complete reconciliation leaves behind.  Topics, subscriptions and buckets share this shape,
    so the protocol above them is stated once. */
module Resources {
  import opened Client
  import opened Wire
  import opened Reconcile

  type Positive = n: int | n > 0 witness 1

  /** What an endpoint puts in the place of zero delivery attempts and zero backoffs. */
  datatype Defaults = Defaults(attempts: Positive, minimumBackoff: Positive, maximumBackoff: Positive)

  /** What is fixed about the endpoint: the project, the mask paths it refuses, whether it rejects a
      subscription that names a missing topic, and the defaults it fills in, if any. */
  datatype Env = Env(
    project: string,
    refusedTopic: set<Path>,
    refusedSub: set<Path>,
    strict: bool,
    defaults: Option<Defaults>)

  datatype Key = TopicKey(path: string) | SubKey(path: string) | BucketKey(name: string)

  datatype Resource =
    | TopicRes(topic: ProtoTopic)
    | SubRes(sub: ProtoSubscription)
    | BucketRes(bucket: Bucket)

  /** One entry of the config, built; `createOnly` is an effective strategy of "create". */
  datatype Item =
    | TopicItem(topic: Topic, createOnly: bool)
    | SubItem(sub: Subscription, createOnly: bool)
    | BucketItem(bucket: DesiredBucket, createOnly: bool)

  function KeyOf(env: Env, it: Item): (k: Key)
    ensures (k.TopicKey? <==> it.TopicItem?) && (k.SubKey? <==> it.SubItem?)
  {
    match it
    case TopicItem(t, _) => TopicKey(TopicPath(env.project, t.name))
    case SubItem(s, _) => SubKey(SubscriptionPath(env.project, s.name))
    case BucketItem(b, _) => BucketKey(b.name)
  }

  predicate Fits(it: Item, r: Resource) {
    && (it.TopicItem? <==> r.TopicRes?)
    && (it.SubItem? <==> r.SubRes?)
  }

  predicate SameKind(a: Resource, b: Resource) {
    && (a.TopicRes? <==> b.TopicRes?)
    && (a.SubRes? <==> b.SubRes?)
  }

  /** What validation guarantees of a built entry, as far as reconciliation relies on it. */
  predicate Sound(it: Item) {
    match it
    case TopicItem(t, _) => '/' !in t.name && 0 <= t.messageRetention
    case SubItem(s, _) => Transmissible(s)
    case BucketItem(_, _) => true
  }

  // ----- drift -----

  function PathsOf(it: Item): seq<Path> {
    match it
    case TopicItem(_, _) => TOPIC_PATHS
    case SubItem(_, _) => SUB_PATHS
    case BucketItem(_, _) => BUCKET_PATHS
  }

  predicate Drifts(it: Item, r: Resource, p: Path)
    requires Fits(it, r)
  {
    match it
    case TopicItem(t, _) => TopicDrifts(FromProtoTopic(r.topic), t, p)
    case SubItem(s, _) => SubDrifts(FromProtoSubscription(r.sub), s, p)
    case BucketItem(b, _) => BucketDrifts(r.bucket, b, p)
  }

  function DriftTest(it: Item, r: Resource): Path -> bool
    requires Fits(it, r)
  {
    p => Drifts(it, r, p)
  }

  /** The update mask: the drifting paths in declaration order. */
  function Diff(it: Item, r: Resource): seq<Path>
    requires Fits(it, r)
  {
    Select(PathsOf(it), DriftTest(it, r))
  }

  lemma DiffMembers(it: Item, r: Resource)
    requires Fits(it, r)
    ensures forall p :: p in Diff(it, r) <==> p in PathsOf(it) && Drifts(it, r, p)
    ensures Distinct(Diff(it, r))
  {
    SelectMembers(PathsOf(it), DriftTest(it, r));
    SelectDistinct(PathsOf(it), DriftTest(it, r));
  }

  lemma AllPathsCovered(it: Item, r: Resource, p: Path)
    requires Fits(it, r) && Drifts(it, r, p)
    ensures p in PathsOf(it)
  {
  }

  lemma EveryOtherPathIsASubPath(p: Path)
    requires p != VersioningPath
    ensures p in SUB_PATHS
  {
  }

  // ----- messages -----

  /** The message a create sends, which is also what the endpoint then stores. */
  function Created(env: Env, it: Item): (r: Resource)
    ensures Fits(it, r)
  {
    match it
    case TopicItem(t, _) => TopicRes(ToProtoTopic(env.project, t))
    case SubItem(s, _) => SubRes(ToProtoSubscription(env.project, s))
    case BucketItem(b, _) => BucketRes(NewBucket(b))
  }

  /** The message an update sends after reading `r`. */
  function Payload(env: Env, it: Item, r: Resource): (m: Resource)
    requires Fits(it, r)
    ensures Fits(it, m)
  {
    match it
    case TopicItem(t, _) =>
      TopicRes(ToProtoTopic(env.project, t.(labels := MergeLabels(FromProtoTopic(r.topic).labels, t.labels))))
    case SubItem(s, _) =>
      SubRes(SubMessage(env.project, s, r.sub))
    case BucketItem(b, _) =>
      BucketRes(r.bucket.(versioningEnabled := DerefBool(b.versioning)))
  }

  // ----- what the endpoint keeps of a message -----

  function FillDeadLetter(df: Defaults, d: Option<ProtoDeadLetter>): Option<ProtoDeadLetter> {
    if d.Some? && d.value.maxDeliveryAttempts == 0
    then Some(d.value.(maxDeliveryAttempts := df.attempts))
    else d
  }

  function FillBackoff(value: Option<int>, fallback: int): Option<int> {
    if AsDuration(value) == 0 then Some(fallback) else value
  }

  function FillRetry(df: Defaults, r: Option<ProtoRetry>): Option<ProtoRetry> {
    if r.Some?
    then Some(ProtoRetry(FillBackoff(r.value.minimumBackoff, df.minimumBackoff),
                         FillBackoff(r.value.maximumBackoff, df.maximumBackoff)))
    else r
  }

  function StoredSub(env: Env, m: ProtoSubscription): ProtoSubscription {
    match env.defaults
    case None => m
    case Some(df) => m.(deadLetter := FillDeadLetter(df, m.deadLetter), retry := FillRetry(df, m.retry))
  }

  /** A message with the endpoint's defaults filled in: what a call that carries it writes. */
  function Stored(env: Env, m: Resource): (r: Resource)
    ensures SameKind(m, r) && FixedEq(m, r)
  {
    if m.SubRes? then SubRes(StoredSub(env, m.sub)) else m
  }

  /** A resource just created. */
  function Initial(env: Env, it: Item): (r: Resource)
    ensures Fits(it, r)
  {
    Stored(env, Created(env, it))
  }

  /** What an update planned after reading `r` writes, field by field. */
  function Written(env: Env, it: Item, r: Resource): (m: Resource)
    requires Fits(it, r)
    ensures Fits(it, m)
  {
    Stored(env, Payload(env, it, r))
  }

  predicate ZeroDeadLetter(s: Subscription) {
    s.deadLetter.Some? && s.deadLetter.value.maxDeliveryAttempts == 0
  }

  predicate ZeroBackoff(s: Subscription) {
    s.retry.Some? && (s.retry.value.minimumBackoff == 0 || s.retry.value.maximumBackoff == 0)
  }

  /** The config declares a zero under `p` that the endpoint does not keep. */
  predicate Defaulted(env: Env, it: Item, p: Path) {
    && env.defaults.Some? && it.SubItem?
    && ((p == DeadLetterPath && ZeroDeadLetter(it.sub)) || (p == RetryPath && ZeroBackoff(it.sub)))
  }

  // ----- masked update -----

  function ApplyTopic(r: ProtoTopic, m: ProtoTopic, mask: seq<Path>): ProtoTopic {
    r.(messageRetention := if MessageRetentionPath in mask then m.messageRetention else r.messageRetention,
       labels := if LabelsPath in mask then m.labels else r.labels)
  }

  function ApplySub(r: ProtoSubscription, m: ProtoSubscription, mask: seq<Path>): ProtoSubscription {
    ProtoSubscription(
      r.name,
      r.topic,
      if AckDeadlinePath in mask then m.ackDeadlineSeconds else r.ackDeadlineSeconds,
      if MessageRetentionPath in mask then m.messageRetention else r.messageRetention,
      if RetainAckedPath in mask then m.retainAckedMessages else r.retainAckedMessages,
      r.enableMessageOrdering,
      if ExactlyOncePath in mask then m.enableExactlyOnceDelivery else r.enableExactlyOnceDelivery,
      r.filter,
      if ExpirationPath in mask then m.expiration else r.expiration,
      if LabelsPath in mask then m.labels else r.labels,
      if PushConfigPath in mask then m.push else r.push,
      if DeadLetterPath in mask then m.deadLetter else r.deadLetter,
      if RetryPath in mask then m.retry else r.retry)
  }

  function ApplyBucket(r: Bucket, m: Bucket, mask: seq<Path>): Bucket {
    r.(versioningEnabled := if VersioningPath in mask then m.versioningEnabled else r.versioningEnabled)
  }

  /** Each masked field replaced wholesale, every other field untouched. */
  function Apply(r: Resource, m: Resource, mask: seq<Path>): (r': Resource)
    requires SameKind(r, m)
    ensures SameKind(r, r')
  {
    match r
    case TopicRes(t) => TopicRes(ApplyTopic(t, m.topic, mask))
    case SubRes(s) => SubRes(ApplySub(s, m.sub, mask))
    case BucketRes(b) => BucketRes(ApplyBucket(b, m.bucket, mask))
  }

  /** The paths the endpoint refuses in an update of this kind of resource. */
  function RefusedKey(env: Env, key: Key): set<Path> {
    match key
    case TopicKey(_) => env.refusedTopic
    case SubKey(_) => env.refusedSub
    case BucketKey(_) => {}
  }

  predicate AnyRefused(env: Env, key: Key, mask: seq<Path>) {
    exists p :: p in mask && p in RefusedKey(env, key)
  }

  function Refused(env: Env, it: Item): set<Path> {
    RefusedKey(env, KeyOf(env, it))
  }

  function AcceptedTest(env: Env, it: Item): Path -> bool {
    p => p !in Refused(env, it)
  }

  function Accepted(env: Env, it: Item, mask: seq<Path>): seq<Path> {
    Select(mask, AcceptedTest(env, it))
  }

  lemma AcceptedMembers(env: Env, it: Item, mask: seq<Path>)
    ensures forall p :: p in Accepted(env, it, mask) <==> p in mask && p !in Refused(env, it)
  {
    SelectMembers(mask, AcceptedTest(env, it));
  }

  // ----- the goal -----

  /** Where one complete, undisturbed reconciliation of `it` takes the resource it found. */
  function Target(env: Env, it: Item, found: Option<Resource>): (r: Resource)
    requires found.Some? ==> Fits(it, found.value)
    ensures Fits(it, r)
  {
    match found
    case None => Initial(env, it)
    case Some(r) =>
      if it.createOnly then r
      else Apply(r, Written(env, it, r), Accepted(env, it, Diff(it, r)))
  }

  // ----- field by field -----

  /** `a` and `b` agree on the field that `p` names. */
  predicate FieldEq(a: Resource, b: Resource, p: Path)
    requires SameKind(a, b)
  {
    match a
    case TopicRes(t) => (
      match p
      case MessageRetentionPath => t.messageRetention == b.topic.messageRetention
      case LabelsPath => t.labels == b.topic.labels
      case _ => true)
    case SubRes(s) => (
      match p
      case AckDeadlinePath => s.ackDeadlineSeconds == b.sub.ackDeadlineSeconds
      case MessageRetentionPath => s.messageRetention == b.sub.messageRetention
      case RetainAckedPath => s.retainAckedMessages == b.sub.retainAckedMessages
      case ExactlyOncePath => s.enableExactlyOnceDelivery == b.sub.enableExactlyOnceDelivery
      case ExpirationPath => s.expiration == b.sub.expiration
      case LabelsPath => s.labels == b.sub.labels
      case PushConfigPath => s.push == b.sub.push
      case DeadLetterPath => s.deadLetter == b.sub.deadLetter
      case RetryPath => s.retry == b.sub.retry
      case VersioningPath => true)
    case BucketRes(x) => p == VersioningPath ==> x.versioningEnabled == b.bucket.versioningEnabled
  }

  /** The fields no update mask can name. */
  predicate FixedEq(a: Resource, b: Resource)
    requires SameKind(a, b)
  {
    match a
    case TopicRes(t) => t.name == b.topic.name
    case SubRes(s) =>
      && s.name == b.sub.name && s.topic == b.sub.topic
      && s.filter == b.sub.filter && s.enableMessageOrdering == b.sub.enableMessageOrdering
    case BucketRes(x) =>
      x.name == b.bucket.name && x.location == b.bucket.location && x.storageClass == b.bucket.storageClass
  }

  lemma FieldsDetermine(a: Resource, b: Resource)
    requires SameKind(a, b) && FixedEq(a, b)
    requires forall p :: FieldEq(a, b, p)
    ensures a == b
  {
    assert FieldEq(a, b, AckDeadlinePath) && FieldEq(a, b, MessageRetentionPath) && FieldEq(a, b, RetainAckedPath);
    assert FieldEq(a, b, ExactlyOncePath) && FieldEq(a, b, ExpirationPath) && FieldEq(a, b, LabelsPath);
    assert FieldEq(a, b, PushConfigPath) && FieldEq(a, b, DeadLetterPath) && FieldEq(a, b, RetryPath);
    assert FieldEq(a, b, VersioningPath);
  }

  lemma ApplyField(r: Resource, m: Resource, mask: seq<Path>, p: Path)
    requires SameKind(r, m)
    ensures FixedEq(Apply(r, m, mask), r)
    ensures FieldEq(Apply(r, m, mask), if p in mask then m else r, p)
  {
  }

  /** Drift of a path depends on nothing but the field it names. */
  lemma DriftIsLocal(it: Item, a: Resource, b: Resource, p: Path)
    requires Fits(it, a) && Fits(it, b) && FieldEq(a, b, p)
    ensures Drifts(it, a, p) == Drifts(it, b, p)
  {
  }

  lemma PushSettles(current: Option<PushConfig>, desired: PushConfig)
    ensures PushConfigEqual(Some(FromProtoPush(ToProtoPush(MergedPush(current, desired)))), desired)
  {
  }

  lemma MergedPushIdempotent(current: Option<PushConfig>, again: PushConfig, desired: PushConfig)
    requires again.attributes == MergedPush(current, desired).attributes
    ensures MergedPush(Some(again), desired) == MergedPush(current, desired)
  {
  }

  lemma PushIsStable(a: Option<ProtoPush>, b: Option<ProtoPush>, desired: PushConfig)
    requires a == b || b == Some(ToProtoPush(MergedPush(PushOf(a), desired)))
    ensures MergedPush(PushOf(a), desired) == MergedPush(PushOf(b), desired)
  {
    if a != b {
      MergedPushIdempotent(PushOf(a), FromProtoPush(b.value), desired);
    }
  }

  /** The message an update of `r` sends. */
  function SubMessage(project: string, s: Subscription, r: ProtoSubscription): ProtoSubscription {
    ToProtoSubscription(project, MergedSubscription(FromProtoSubscription(r), s))
  }

  lemma SubMessageFields(project: string, s: Subscription, r: ProtoSubscription)
    ensures
      var sent, plain := SubMessage(project, s, r), ToProtoSubscription(project, s);
      && sent.labels == MergeLabels(r.labels, s.labels)
      && (s.push.Some? ==> sent.push == Some(ToProtoPush(MergedPush(PushOf(r.push), s.push.value))))
      && sent.ackDeadlineSeconds == plain.ackDeadlineSeconds
      && sent.messageRetention == plain.messageRetention
      && sent.retainAckedMessages == plain.retainAckedMessages
      && sent.enableExactlyOnceDelivery == plain.enableExactlyOnceDelivery
      && sent.expiration == plain.expiration
      && sent.deadLetter == plain.deadLetter
      && sent.retry == plain.retry
  {
  }

  lemma AckDeadlineSettles(project: string, s: Subscription, r: ProtoSubscription)
    requires Transmissible(s)
    ensures !SubDrifts(FromProtoSubscription(SubMessage(project, s, r)), s, AckDeadlinePath)
  {
  }

  lemma PushConfigSettles(project: string, s: Subscription, r: ProtoSubscription)
    ensures !SubDrifts(FromProtoSubscription(SubMessage(project, s, r)), s, PushConfigPath)
  {
    SubMessageFields(project, s, r);
    if s.push.Some? {
      PushSettles(PushOf(r.push), s.push.value);
    }
  }

  lemma DeadLetterSettles(project: string, s: Subscription, r: ProtoSubscription)
    requires Transmissible(s)
    ensures !SubDrifts(FromProtoSubscription(SubMessage(project, s, r)), s, DeadLetterPath)
  {
    SubMessageFields(project, s, r);
    if s.deadLetter.Some? {
      TopicPathShortens(project, s.deadLetter.value.topic);
    }
  }

  lemma PlainFieldSettles(project: string, s: Subscription, r: ProtoSubscription, p: Path)
    requires Transmissible(s)
    requires p != AckDeadlinePath && p != PushConfigPath && p != DeadLetterPath
    ensures !SubDrifts(FromProtoSubscription(SubMessage(project, s, r)), s, p)
  {
  }

  lemma SubSettles(project: string, s: Subscription, r: ProtoSubscription, p: Path)
    requires Transmissible(s)
    ensures !SubDrifts(FromProtoSubscription(SubMessage(project, s, r)), s, p)
  {
    match p
    case AckDeadlinePath => AckDeadlineSettles(project, s, r);
    case PushConfigPath => PushConfigSettles(project, s, r);
    case DeadLetterPath => DeadLetterSettles(project, s, r);
    case _ => PlainFieldSettles(project, s, r, p);
  }

  /** Sending a path settles it. */
  lemma PayloadSettles(env: Env, it: Item, r: Resource, p: Path)
    requires Sound(it) && Fits(it, r) && Drifts(it, r, p)
    ensures !Drifts(it, Payload(env, it, r), p)
  {
    if it.TopicItem? {
      MergeLabelsMeaning(r.topic.labels, it.topic.labels);
    } else if it.SubItem? {
      SubSettles(env.project, it.sub, r.sub, p);
    }
  }

  /** What is sent for a drifting path does not depend on how far other fields have come. */
  lemma PayloadIsStable(env: Env, it: Item, a: Resource, b: Resource, p: Path)
    requires Fits(it, a) && Fits(it, b)
    requires FieldEq(a, b, p) || FieldEq(b, Payload(env, it, a), p)
    requires Drifts(it, a, p)
    ensures FieldEq(Payload(env, it, a), Payload(env, it, b), p)
  {
    match it
    case TopicItem(t, _) =>
      MergeLabelsIdempotent(a.topic.labels, t.labels);
    case SubItem(s, _) =>
      SubMessageFields(env.project, s, a.sub);
      SubMessageFields(env.project, s, b.sub);
      match p {
        case LabelsPath => MergeLabelsIdempotent(a.sub.labels, s.labels);
        case PushConfigPath => PushIsStable(a.sub.push, b.sub.push, s.push.value);
        case _ =>
      }
    case BucketItem(_, _) =>
  }

  // ----- defaults, field by field -----

  /** What is stored under a path depends on nothing but what is sent under it, and only two paths
      are ever filled in. */
  lemma StoredIsLocal(env: Env, a: Resource, b: Resource, p: Path)
    requires SameKind(a, b)
    ensures FieldEq(a, b, p) ==> FieldEq(Stored(env, a), Stored(env, b), p)
    ensures env.defaults.None? || (p != DeadLetterPath && p != RetryPath) ==> FieldEq(Stored(env, a), a, p)
  {
  }

  /** A message that agrees with the config still does once stored, unless a default got in. */
  lemma StoredDrift(env: Env, it: Item, m: Resource, p: Path)
    requires Fits(it, m) && !Drifts(it, m, p)
    ensures Drifts(it, Stored(env, m), p) <==> Defaulted(env, it, p)
  {
    if p != DeadLetterPath && p != RetryPath {
      StoredIsLocal(env, m, m, p);
      DriftIsLocal(it, Stored(env, m), m, p);
    }
  }

  /** What an update writes under a drifting path leaves drift exactly where a default gets in. */
  lemma WrittenDrift(env: Env, it: Item, r: Resource, p: Path)
    requires Sound(it) && Fits(it, r) && Drifts(it, r, p)
    ensures Drifts(it, Written(env, it, r), p) <==> Defaulted(env, it, p)
  {
    PayloadSettles(env, it, r, p);
    StoredDrift(env, it, Payload(env, it, r), p);
  }

  /** The paths that can be filled in are sent straight from the config, whatever was read. */
  lemma PolicySent(env: Env, it: Item, r: Resource, p: Path)
    requires Fits(it, r) && it.SubItem? && (p == DeadLetterPath || p == RetryPath)
    ensures FieldEq(Payload(env, it, r), Created(env, it), p)
  {
    SubMessageFields(env.project, it.sub, r.sub);
  }

  /** What an update writes under a drifting path is the same from a stale read as from a fresh one. */
  lemma WrittenIsStable(env: Env, it: Item, a: Resource, b: Resource, p: Path)
    requires Fits(it, a) && Fits(it, b)
    requires FieldEq(a, b, p) || FieldEq(b, Written(env, it, a), p)
    requires Drifts(it, a, p)
    ensures FieldEq(Written(env, it, a), Written(env, it, b), p)
  {
    var m, n := Payload(env, it, a), Payload(env, it, b);
    StoredIsLocal(env, m, n, p);
    if it.SubItem? && (p == DeadLetterPath || p == RetryPath) {
      PolicySent(env, it, a, p);
      PolicySent(env, it, b, p);
    } else {
      StoredIsLocal(env, m, m, p);
      PayloadIsStable(env, it, a, b, p);
    }
  }
}
