/** The transport-neutral resources the provisioner reconciles
    (internal/client/pubsub.go, internal/client/storage.go).

    Durations are nanosecond counts, as in Go's time.Duration.  A Go map is a Dafny
    map; a nil map and an empty one are the same value, as they are on the wire. */
module Client {

  datatype Option<+T> = None | Some(value: T)

  type Labels = map<string, string>

  const SECOND: int := 1_000_000_000

  datatype Topic = Topic(name: string, labels: Labels, messageRetention: int)

  datatype OIDCToken = OIDCToken(serviceAccountEmail: string, audience: string)

  datatype Wrapper = WrapperUnset | WrapperPubSub | WrapperNone

  datatype PushConfig = PushConfig(
    endpoint: string,
    attributes: Labels,
    oidcToken: Option<OIDCToken>,
    wrapper: Wrapper,
    writeMetadata: bool)

  datatype DeadLetterPolicy = DeadLetterPolicy(topic: string, maxDeliveryAttempts: int)

  datatype RetryPolicy = RetryPolicy(minimumBackoff: int, maximumBackoff: int)

  /** The three tri-state flags are `None` only on a subscription built from config. */
  datatype Subscription = Subscription(
    name: string,
    topic: string,
    ackDeadline: int,
    messageRetention: int,
    retainAckedMessages: Option<bool>,
    enableMessageOrdering: Option<bool>,
    enableExactlyOnceDelivery: Option<bool>,
    filter: string,
    expirationSet: bool,
    expirationTTL: int,
    labels: Labels,
    push: Option<PushConfig>,
    deadLetter: Option<DeadLetterPolicy>,
    retry: Option<RetryPolicy>)

  datatype Bucket = Bucket(
    name: string,
    versioningEnabled: bool,
    location: string,
    storageClass: string)

  /** What the config asks of a bucket; `versioning` is tri-state. */
  datatype DesiredBucket = DesiredBucket(
    name: string,
    versioning: Option<bool>,
    location: string,
    storageClass: string)

  /** The update-mask paths of topics and subscriptions, and the one mutable bucket setting. */
  datatype Path =
    | AckDeadlinePath
    | MessageRetentionPath
    | RetainAckedPath
    | ExactlyOncePath
    | ExpirationPath
    | LabelsPath
    | PushConfigPath
    | DeadLetterPath
    | RetryPath
    | VersioningPath

  /** A tri-state flag as the concrete value the wire carries. */
  predicate DerefBool(b: Option<bool>) {
    b.Some? && b.value
  }
}
