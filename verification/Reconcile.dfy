/** What counts as drift and what an update carries
    (internal/provisioner/topics.go, internal/provisioner/subscriptions.go,
    internal/provisioner/buckets.go). */
module Reconcile {
  import opened Client

  // ----- ordered selection -----

  /** The elements of `xs` that satisfy `keep`, in order. */
  function Select<T>(xs: seq<T>, keep: T -> bool): seq<T> {
    if xs == [] then []
    else
      var last := xs[|xs| - 1];
      Select(xs[..|xs| - 1], keep) + if keep(last) then [last] else []
  }

  lemma {:induction false} SelectMembers<T(!new)>(xs: seq<T>, keep: T -> bool)
    ensures forall x :: x in Select(xs, keep) <==> x in xs && keep(x)
  {
    if xs != [] {
      SelectMembers(xs[..|xs| - 1], keep);
      assert xs == xs[..|xs| - 1] + [xs[|xs| - 1]];
    }
  }

  lemma {:induction false} SelectCongruence<T(!new)>(xs: seq<T>, f: T -> bool, g: T -> bool)
    requires forall x :: x in xs ==> f(x) == g(x)
    ensures Select(xs, f) == Select(xs, g)
  {
    if xs != [] {
      SelectCongruence(xs[..|xs| - 1], f, g);
    }
  }

  lemma {:induction false} SelectSelect<T(!new)>(xs: seq<T>, f: T -> bool, g: T -> bool, h: T -> bool)
    requires forall x :: x in xs ==> h(x) == (f(x) && g(x))
    ensures Select(Select(xs, f), g) == Select(xs, h)
  {
    if xs != [] {
      var init, last := xs[..|xs| - 1], xs[|xs| - 1];
      SelectSelect(init, f, g, h);
      if f(last) {
        var s := Select(init, f) + [last];
        assert s[..|s| - 1] == Select(init, f);
      } else {
        assert Select(xs, f) == Select(init, f);
      }
    }
  }

  lemma {:induction false} SelectAll<T(!new)>(xs: seq<T>, f: T -> bool)
    requires forall x :: x in xs ==> f(x)
    ensures Select(xs, f) == xs
  {
    if xs != [] {
      SelectAll(xs[..|xs| - 1], f);
      assert xs == xs[..|xs| - 1] + [xs[|xs| - 1]];
    }
  }

  lemma {:induction false} SelectNone<T(!new)>(xs: seq<T>, f: T -> bool)
    requires forall x :: x in xs ==> !f(x)
    ensures Select(xs, f) == []
  {
    if xs != [] {
      SelectNone(xs[..|xs| - 1], f);
    }
  }

  lemma {:induction false} SelectStep<T(!new)>(xs: seq<T>, f: T -> bool, k: nat)
    requires k < |xs|
    ensures Select(xs[..k + 1], f) == Select(xs[..k], f) + if f(xs[k]) then [xs[k]] else []
  {
    assert xs[..k + 1][..k] == xs[..k];
  }

  predicate Distinct<T(==)>(xs: seq<T>) {
    forall i, j :: 0 <= i < j < |xs| ==> xs[i] != xs[j]
  }

  lemma {:induction false} SelectDistinct<T(!new)>(xs: seq<T>, f: T -> bool)
    requires Distinct(xs)
    ensures Distinct(Select(xs, f))
  {
    if xs != [] {
      SelectMembers(xs[..|xs| - 1], f);
      SelectDistinct(xs[..|xs| - 1], f);
    }
  }

  // ----- labels -----

  /** Go's map read: a missing key reads as the empty string. */
  function Get(m: Labels, k: string): string {
    if k in m then m[k] else ""
  }

  predicate LabelsSubset(want: Labels, got: Labels) {
    forall k :: k in want ==> Get(got, k) == want[k]
  }

  method CheckLabelsSubset(want: Labels, got: Labels) returns (subset: bool)
    ensures subset <==> LabelsSubset(want, got)
  {
    var pending := want.Keys;
    while pending != {}
      invariant pending <= want.Keys
      invariant forall k :: k in want && k !in pending ==> Get(got, k) == want[k]
      decreases pending
    {
      var k :| k in pending;
      if Get(got, k) != want[k] {
        return false;
      }
      pending := pending - {k};
    }
    return true;
  }

  /** Every wanted label is present with the same value. */
  predicate Carries(want: Labels, got: Labels) {
    forall k :: k in want ==> k in got && got[k] == want[k]
  }

  /** When the comparison means presence: exactly when it does not pass over an absent empty-valued label. */
  lemma SubsetMeansCarries(want: Labels, got: Labels)
    ensures (LabelsSubset(want, got) <==> Carries(want, got)) <==>
            (LabelsSubset(want, got) ==> forall k :: k in want && want[k] == "" ==> k in got)
  {
    if LabelsSubset(want, got) && (forall k :: k in want && want[k] == "" ==> k in got) {
      forall k | k in want
        ensures k in got && got[k] == want[k]
      {
        assert Get(got, k) == want[k];
      }
    }
  }

  /** It means presence on every resource exactly when no configured label is empty-valued. */
  lemma OnlyEmptyValuesArePassedOver(want: Labels)
    ensures (forall got :: LabelsSubset(want, got) <==> Carries(want, got)) <==> forall k :: k in want ==> want[k] != ""
  {
    if forall k :: k in want ==> want[k] != "" {
      forall got
        ensures LabelsSubset(want, got) <==> Carries(want, got)
      {
        SubsetMeansCarries(want, got);
      }
    } else {
      var k :| k in want && want[k] == "";
      var got := want - {k};
      assert LabelsSubset(want, got) && !Carries(want, got);
    }
  }

  /** A configured empty-valued label is drift only against a live non-empty value. */
  lemma EmptyValuedLabelIsNotDrift(k: string, got: Labels)
    ensures LabelsSubset(map[k := ""], got) <==> k !in got || got[k] == ""
  {
    assert LabelsSubset(map[k := ""], got) ==> Get(got, k) == map[k := ""][k];
  }

  function MergeLabels(current: Labels, configured: Labels): Labels {
    if |configured| == 0 then current else current + configured
  }

  /** The overlay carries every configured label and loses none it does not manage. */
  lemma MergeLabelsMeaning(current: Labels, configured: Labels)
    ensures
      var merged := MergeLabels(current, configured);
      && LabelsSubset(configured, merged)
      && merged.Keys == current.Keys + configured.Keys
      && forall k :: k in current && k !in configured ==> merged[k] == current[k]
  {
  }

  lemma MergeLabelsIdempotent(current: Labels, configured: Labels)
    ensures MergeLabels(MergeLabels(current, configured), configured) == MergeLabels(current, configured)
  {
  }

  predicate LabelDrift(current: Labels, desired: Labels) {
    |desired| > 0 && !LabelsSubset(desired, current)
  }

  // ----- field comparisons -----

  /** A tri-state flag the config set and the live value disagrees with. */
  predicate BoolDrift(current: Option<bool>, desired: Option<bool>) {
    desired.Some? && DerefBool(current) != desired.value
  }

  predicate OidcEqual(current: Option<OIDCToken>, desired: Option<OIDCToken>) {
    desired.None? || current == desired
  }

  function EffectiveWrapper(w: Wrapper): Wrapper {
    if w == WrapperUnset then WrapperPubSub else w
  }

  predicate PushConfigEqual(current: Option<PushConfig>, desired: PushConfig) {
    && current.Some?
    && (desired.endpoint != "" ==> current.value.endpoint == desired.endpoint)
    && LabelsSubset(desired.attributes, current.value.attributes)
    && OidcEqual(current.value.oidcToken, desired.oidcToken)
    && (desired.wrapper != WrapperUnset ==>
          && EffectiveWrapper(current.value.wrapper) == desired.wrapper
          && (desired.wrapper == WrapperNone ==> current.value.writeMetadata == desired.writeMetadata))
  }

  // ----- topics -----

  const TOPIC_PATHS: seq<Path> := [MessageRetentionPath, LabelsPath]

  predicate TopicDrifts(current: Topic, desired: Topic, p: Path) {
    match p
    case MessageRetentionPath => desired.messageRetention > 0 && current.messageRetention != desired.messageRetention
    case LabelsPath => LabelDrift(current.labels, desired.labels)
    case _ => false
  }

  function TopicDriftTest(current: Topic, desired: Topic): Path -> bool {
    p => TopicDrifts(current, desired, p)
  }

  method DiffTopic(current: Topic, desired: Topic) returns (paths: seq<Path>)
    ensures paths == Select(TOPIC_PATHS, TopicDriftTest(current, desired))
  {
    ghost var drifts := TopicDriftTest(current, desired);
    paths := [];
    if desired.messageRetention > 0 && current.messageRetention != desired.messageRetention {
      paths := paths + [MessageRetentionPath];
    }
    SelectStep(TOPIC_PATHS, drifts, 0);
    var subset := CheckLabelsSubset(desired.labels, current.labels);
    if |desired.labels| > 0 && !subset {
      paths := paths + [LabelsPath];
    }
    SelectStep(TOPIC_PATHS, drifts, 1);
    assert TOPIC_PATHS[..2] == TOPIC_PATHS;
  }

  // ----- subscriptions -----

  const SUB_PATHS: seq<Path> := [
    AckDeadlinePath, MessageRetentionPath, RetainAckedPath, ExactlyOncePath, ExpirationPath,
    LabelsPath, PushConfigPath, DeadLetterPath, RetryPath]

  predicate SubDrifts(current: Subscription, desired: Subscription, p: Path) {
    match p
    case AckDeadlinePath => desired.ackDeadline > 0 && current.ackDeadline != desired.ackDeadline
    case MessageRetentionPath => desired.messageRetention > 0 && current.messageRetention != desired.messageRetention
    case RetainAckedPath => BoolDrift(current.retainAckedMessages, desired.retainAckedMessages)
    case ExactlyOncePath => BoolDrift(current.enableExactlyOnceDelivery, desired.enableExactlyOnceDelivery)
    case ExpirationPath =>
      desired.expirationSet && (!current.expirationSet || current.expirationTTL != desired.expirationTTL)
    case LabelsPath => LabelDrift(current.labels, desired.labels)
    case PushConfigPath => desired.push.Some? && !PushConfigEqual(current.push, desired.push.value)
    case DeadLetterPath => desired.deadLetter.Some? && current.deadLetter != desired.deadLetter
    case RetryPath => desired.retry.Some? && current.retry != desired.retry
    case VersioningPath => false
  }

  function SubDriftTest(current: Subscription, desired: Subscription): Path -> bool {
    p => SubDrifts(current, desired, p)
  }

  method CheckPushConfigEqual(current: Option<PushConfig>, desired: PushConfig) returns (equal: bool)
    ensures equal <==> PushConfigEqual(current, desired)
  {
    if current.None? {
      return false;
    }
    if desired.endpoint != "" && current.value.endpoint != desired.endpoint {
      return false;
    }
    var subset := CheckLabelsSubset(desired.attributes, current.value.attributes);
    if !subset {
      return false;
    }
    if !OidcEqual(current.value.oidcToken, desired.oidcToken) {
      return false;
    }
    if desired.wrapper != WrapperUnset {
      if EffectiveWrapper(current.value.wrapper) != desired.wrapper {
        return false;
      }
      if desired.wrapper == WrapperNone && current.value.writeMetadata != desired.writeMetadata {
        return false;
      }
    }
    return true;
  }

  /** One append of the diff: `paths` grows by the k-th path when it drifts. */
  method ConsiderPath(paths: seq<Path>, drifts: bool, p: Path, ghost k: nat, ghost test: Path -> bool)
    returns (r: seq<Path>)
    requires k < |SUB_PATHS| && p == SUB_PATHS[k] && drifts == test(p)
    requires paths == Select(SUB_PATHS[..k], test)
    ensures r == Select(SUB_PATHS[..k + 1], test)
  {
    r := paths;
    if drifts {
      r := r + [p];
    }
    SelectStep(SUB_PATHS, test, k);
  }

  method DiffSubscription(current: Subscription, desired: Subscription) returns (paths: seq<Path>)
    ensures paths == Select(SUB_PATHS, SubDriftTest(current, desired))
  {
    paths := DiffScalars(current, desired);
    paths := DiffMessages(current, desired, paths);
    assert SUB_PATHS[..9] == SUB_PATHS;
  }

  method DiffScalars(current: Subscription, desired: Subscription) returns (paths: seq<Path>)
    ensures paths == Select(SUB_PATHS[..5], SubDriftTest(current, desired))
  {
    ghost var test := SubDriftTest(current, desired);
    paths := ConsiderPath([],
      desired.ackDeadline > 0 && current.ackDeadline != desired.ackDeadline, AckDeadlinePath, 0, test);
    paths := ConsiderPath(paths,
      desired.messageRetention > 0 && current.messageRetention != desired.messageRetention,
      MessageRetentionPath, 1, test);
    paths := ConsiderPath(paths,
      BoolDrift(current.retainAckedMessages, desired.retainAckedMessages), RetainAckedPath, 2, test);
    paths := ConsiderPath(paths,
      BoolDrift(current.enableExactlyOnceDelivery, desired.enableExactlyOnceDelivery), ExactlyOncePath, 3, test);
    paths := ConsiderPath(paths,
      desired.expirationSet && (!current.expirationSet || current.expirationTTL != desired.expirationTTL),
      ExpirationPath, 4, test);
  }

  method DiffMessages(current: Subscription, desired: Subscription, scalars: seq<Path>) returns (paths: seq<Path>)
    requires scalars == Select(SUB_PATHS[..5], SubDriftTest(current, desired))
    ensures paths == Select(SUB_PATHS[..9], SubDriftTest(current, desired))
  {
    ghost var test := SubDriftTest(current, desired);
    var subset := CheckLabelsSubset(desired.labels, current.labels);
    paths := ConsiderPath(scalars, |desired.labels| > 0 && !subset, LabelsPath, 5, test);
    var equal := true;
    if desired.push.Some? {
      equal := CheckPushConfigEqual(current.push, desired.push.value);
    }
    paths := ConsiderPath(paths, !equal, PushConfigPath, 6, test);
    paths := ConsiderPath(paths,
      desired.deadLetter.Some? && current.deadLetter != desired.deadLetter, DeadLetterPath, 7, test);
    paths := ConsiderPath(paths, desired.retry.Some? && current.retry != desired.retry, RetryPath, 8, test);
  }

  /** The push settings an update sends after reading `current`. */
  function MergedPush(current: Option<PushConfig>, desired: PushConfig): PushConfig {
    if current.Some?
    then desired.(attributes := MergeLabels(current.value.attributes, desired.attributes))
    else desired
  }

  /** What an update sends: labels and push attributes overlaid on the live ones. */
  function MergedSubscription(current: Subscription, desired: Subscription): Subscription {
    desired.(
      labels := MergeLabels(current.labels, desired.labels),
      push := if desired.push.Some? then Some(MergedPush(current.push, desired.push.value)) else None)
  }

  // ----- fields fixed at creation -----

  datatype FixedField = FilterField | OrderingField | TopicField

  const FIXED_FIELDS: seq<FixedField> := [FilterField, OrderingField, TopicField]

  predicate FixedDrifts(current: Subscription, desired: Subscription, f: FixedField) {
    match f
    case FilterField => desired.filter != "" && desired.filter != current.filter
    case OrderingField => BoolDrift(current.enableMessageOrdering, desired.enableMessageOrdering)
    case TopicField => desired.topic != current.topic
  }

  function FixedDriftTest(current: Subscription, desired: Subscription): FixedField -> bool {
    f => FixedDrifts(current, desired, f)
  }

  method ImmutableDrift(current: Subscription, desired: Subscription) returns (drifts: seq<FixedField>)
    ensures drifts == Select(FIXED_FIELDS, FixedDriftTest(current, desired))
  {
    ghost var test := FixedDriftTest(current, desired);
    drifts := [];
    if desired.filter != "" && desired.filter != current.filter {
      drifts := drifts + [FilterField];
    }
    SelectStep(FIXED_FIELDS, test, 0);
    if BoolDrift(current.enableMessageOrdering, desired.enableMessageOrdering) {
      drifts := drifts + [OrderingField];
    }
    SelectStep(FIXED_FIELDS, test, 1);
    if desired.topic != current.topic {
      drifts := drifts + [TopicField];
    }
    SelectStep(FIXED_FIELDS, test, 2);
    assert FIXED_FIELDS[..3] == FIXED_FIELDS;
  }

  // ----- buckets -----

  datatype BucketField = LocationField | StorageClassField

  const BUCKET_FIELDS: seq<BucketField> := [LocationField, StorageClassField]

  /** strings.EqualFold. */
  type FoldTest = (string, string) -> bool

  /** A create-time attribute both sides state and disagree on. */
  predicate CreateOnlyDrifts(equalFold: FoldTest, current: Bucket, desired: DesiredBucket, f: BucketField) {
    match f
    case LocationField =>
      desired.location != "" && current.location != "" && !equalFold(desired.location, current.location)
    case StorageClassField =>
      desired.storageClass != "" && current.storageClass != "" && !equalFold(desired.storageClass, current.storageClass)
  }

  function CreateOnlyTest(equalFold: FoldTest, current: Bucket, desired: DesiredBucket): BucketField -> bool {
    f => CreateOnlyDrifts(equalFold, current, desired, f)
  }

  method CreateOnlyDrift(equalFold: FoldTest, current: Bucket, desired: DesiredBucket) returns (drifts: seq<BucketField>)
    ensures drifts == Select(BUCKET_FIELDS, CreateOnlyTest(equalFold, current, desired))
  {
    ghost var test := CreateOnlyTest(equalFold, current, desired);
    drifts := [];
    if desired.location != "" && current.location != "" && !equalFold(desired.location, current.location) {
      drifts := drifts + [LocationField];
    }
    SelectStep(BUCKET_FIELDS, test, 0);
    if desired.storageClass != "" && current.storageClass != "" && !equalFold(desired.storageClass, current.storageClass) {
      drifts := drifts + [StorageClassField];
    }
    SelectStep(BUCKET_FIELDS, test, 1);
    assert BUCKET_FIELDS[..2] == BUCKET_FIELDS;
  }

  const BUCKET_PATHS: seq<Path> := [VersioningPath]

  predicate BucketDrifts(current: Bucket, desired: DesiredBucket, p: Path) {
    && p == VersioningPath
    && desired.versioning.Some?
    && current.versioningEnabled != desired.versioning.value
  }

  /** Upper-casing of the letters whose upper case is ASCII: a to z, the dotless i and the long s.
      All others are left alone, which no storage class can tell from their own upper case. */
  function UpperChar(c: char): char {
    if 'a' <= c <= 'z' then (c as int - 32) as char
    else if c == '\U{131}' then 'I'
    else if c == '\U{17F}' then 'S'
    else c
  }

  function ToUpper(s: string): (u: string)
    ensures |u| == |s|
  {
    if s == [] then [] else [UpperChar(s[0])] + ToUpper(s[1..])
  }

  function NewBucket(d: DesiredBucket): Bucket {
    Bucket(d.name, DerefBool(d.versioning), d.location, ToUpper(d.storageClass))
  }
}
