/** The configuration and its validation (internal/config/config.go).

    `goParse` stands for time.ParseDuration throughout. */
module Config {
  import opened Client
  import opened Durations
  import opened Reconcile

  datatype DeadLetterConfig = DeadLetterConfig(topic: string, maxDeliveryAttempts: int)

  datatype RetryConfig = RetryConfig(minimumBackoff: string, maximumBackoff: string)

  datatype SubConfig = SubConfig(
    name: string,
    strategy: string,
    ackDeadline: string,
    messageRetention: string,
    retainAckedMessages: Option<bool>,
    enableMessageOrdering: Option<bool>,
    enableExactlyOnceDelivery: Option<bool>,
    filter: string,
    expirationTTL: string,
    labels: Labels,
    pushEndpoint: string,
    pushAttributes: Labels,
    pushOIDCToken: Option<OIDCToken>,
    pushWrapper: string,
    pushWriteMetadata: bool,
    deadLetter: Option<DeadLetterConfig>,
    retry: Option<RetryConfig>)

  datatype TopicConfig = TopicConfig(
    name: string,
    strategy: string,
    labels: Labels,
    messageRetention: string,
    subscriptions: seq<SubConfig>)

  datatype BucketConfig = BucketConfig(
    name: string,
    strategy: string,
    versioning: Option<bool>,
    location: string,
    storageClass: string)

  datatype Config = Config(strategy: string, topics: seq<TopicConfig>, buckets: seq<BucketConfig>)

  const EXPIRATION_NEVER: string := "never"

  // ----- strategies -----

  predicate ValidStrategy(s: string) {
    s == "" || s == "create" || s == "update"
  }

  /** The first non-empty strategy, or "update". */
  function FirstStrategy(strategies: seq<string>): string {
    if strategies == [] then "update"
    else if strategies[0] != "" then strategies[0]
    else FirstStrategy(strategies[1..])
  }

  /** Without any strategy entries are kept up to date; otherwise the first written one counts. */
  lemma {:induction false} StrategyMeaning(strategies: seq<string>, i: nat)
    requires i <= |strategies| && forall j :: 0 <= j < i ==> strategies[j] == ""
    ensures i == |strategies| ==> FirstStrategy(strategies) == "update"
    ensures i < |strategies| && strategies[i] != "" ==> FirstStrategy(strategies) == strategies[i]
  {
    if i > 0 {
      StrategyMeaning(strategies[1..], i - 1);
    }
  }

  /** An entry is only ever created, never updated. */
  predicate CreateOnly(own: string, global: string) {
    FirstStrategy([own, global]) == "create"
  }

  /** Exactly when it says so itself, or says nothing and the config as a whole does. */
  lemma CreateOnlyMeaning(own: string, global: string)
    ensures CreateOnly(own, global) <==> own == "create" || (own == "" && global == "create")
  {
    var both := [own, global];
    StrategyMeaning(both, if own != "" then 0 else if global != "" then 1 else 2);
  }

  method EffectiveStrategy(strategies: seq<string>) returns (s: string)
    ensures s == FirstStrategy(strategies)
  {
    for i := 0 to |strategies|
      invariant FirstStrategy(strategies) == FirstStrategy(strategies[i..])
    {
      if strategies[i] != "" {
        return strategies[i];
      }
      assert strategies[i..][1..] == strategies[i + 1..];
    }
    assert strategies[|strategies|..] == [];
    return "update";
  }

  // ----- names -----

  predicate NoNull(s: string) {
    '\0' !in s
  }

  predicate IsLetter(c: char) {
    'A' <= c <= 'Z' || 'a' <= c <= 'z'
  }

  predicate IsNameChar(c: char) {
    IsLetter(c) || IsDigit(c) || c in "-_.~+%"
  }

  /** `^[A-Za-z][A-Za-z0-9\-_.~+%]{2,254}$`, which no slash or null byte can match. */
  predicate IsResourceName(s: string) {
    && 3 <= |s| <= 255
    && IsLetter(s[0])
    && forall i :: 1 <= i < |s| ==> IsNameChar(s[i])
  }

  lemma ResourceNameHasNoSlash(s: string)
    requires IsResourceName(s)
    ensures '/' !in s
  {
  }

  predicate IsLowerAlnum(c: char) {
    'a' <= c <= 'z' || IsDigit(c)
  }

  /** `^[a-z0-9][a-z0-9-]{1,61}[a-z0-9]$` */
  predicate IsBucketName(s: string) {
    && 3 <= |s| <= 63
    && IsLowerAlnum(s[0])
    && IsLowerAlnum(s[|s| - 1])
    && forall i :: 0 <= i < |s| ==> IsLowerAlnum(s[i]) || s[i] == '-'
  }

  predicate GoodName(s: string) {
    IsResourceName(s) && !("goog" <= s)
  }

  // ----- entry by entry -----

  predicate LabelsOk(labels: Labels) {
    forall k :: k in labels ==> NoNull(k) && NoNull(labels[k])
  }

  /** An optional duration within [lo, hi]. */
  predicate DurationOk(goParse: GoParser, v: string, lo: int, hi: int) {
    v != "" ==>
      && NoNull(v)
      && ParseDuration(goParse, v).Some?
      && var d := ParseDuration(goParse, v).value; d >= 0 && lo <= d <= hi
  }

  const MIN_ACK: int := 10 * SECOND
  const MAX_ACK: int := 600 * SECOND
  const MIN_RETENTION: int := 600 * SECOND
  const MAX_RETENTION: int := 31 * DAY
  const MAX_BACKOFF: int := 600 * SECOND
  const MIN_EXPIRATION: int := DAY
  const MAX_EXPIRATION: int := 365 * DAY

  predicate RetentionOk(goParse: GoParser, v: string) {
    DurationOk(goParse, v, MIN_RETENTION, MAX_RETENTION)
  }

  predicate AckDeadlineOk(goParse: GoParser, v: string) {
    && DurationOk(goParse, v, MIN_ACK, MAX_ACK)
    && (v != "" ==> ParseDuration(goParse, v).value % SECOND == 0)
  }

  predicate ExpirationOk(goParse: GoParser, v: string) {
    v == EXPIRATION_NEVER || DurationOk(goParse, v, MIN_EXPIRATION, MAX_EXPIRATION)
  }

  predicate PushOk(s: SubConfig) {
    && (s.pushWrapper == "" || s.pushWrapper == "pubsub" || s.pushWrapper == "none")
    && (s.pushEndpoint == "" ==> s.pushWrapper == "" && s.pushOIDCToken.None?)
    && (s.pushWriteMetadata ==> s.pushWrapper == "none")
    && (s.pushOIDCToken.Some? ==>
          && s.pushOIDCToken.value.serviceAccountEmail != ""
          && NoNull(s.pushOIDCToken.value.serviceAccountEmail)
          && NoNull(s.pushOIDCToken.value.audience))
  }

  predicate DeadLetterOk(dl: Option<DeadLetterConfig>) {
    dl.Some? ==>
      && dl.value.topic != "" && NoNull(dl.value.topic)
      && (dl.value.maxDeliveryAttempts == 0 || 5 <= dl.value.maxDeliveryAttempts <= 100)
  }

  predicate RetryOk(goParse: GoParser, r: Option<RetryConfig>) {
    r.Some? ==>
      && DurationOk(goParse, r.value.minimumBackoff, 0, MAX_BACKOFF)
      && DurationOk(goParse, r.value.maximumBackoff, 0, MAX_BACKOFF)
      && var lo := ParseDuration(goParse, r.value.minimumBackoff).value;
         var hi := ParseDuration(goParse, r.value.maximumBackoff).value;
         lo > 0 && hi > 0 ==> lo <= hi
  }

  predicate SubOk(goParse: GoParser, s: SubConfig) {
    && ValidStrategy(s.strategy)
    && GoodName(s.name)
    && LabelsOk(s.labels) && LabelsOk(s.pushAttributes)
    && AckDeadlineOk(goParse, s.ackDeadline)
    && RetentionOk(goParse, s.messageRetention)
    && ExpirationOk(goParse, s.expirationTTL)
    && NoNull(s.filter) && NoNull(s.pushEndpoint)
    && (s.pushEndpoint == "" ==> s.pushAttributes == map[])
    && PushOk(s)
    && DeadLetterOk(s.deadLetter)
    && RetryOk(goParse, s.retry)
  }

  predicate TopicOk(goParse: GoParser, t: TopicConfig) {
    && ValidStrategy(t.strategy)
    && GoodName(t.name)
    && LabelsOk(t.labels)
    && RetentionOk(goParse, t.messageRetention)
    && forall j :: 0 <= j < |t.subscriptions| ==> SubOk(goParse, t.subscriptions[j])
  }

  const STORAGE_CLASSES: seq<string> := [
    "", "STANDARD", "NEARLINE", "COLDLINE", "ARCHIVE", "MULTI_REGIONAL", "REGIONAL",
    "DURABLE_REDUCED_AVAILABILITY"]

  predicate BucketOk(b: BucketConfig) {
    && ValidStrategy(b.strategy)
    && IsBucketName(b.name)
    && NoNull(b.location)
    && ToUpper(b.storageClass) in STORAGE_CLASSES
  }

  // ----- what is accepted, setting by setting -----

  /** A topic or subscription name: 3 to 255 characters, a letter first, then letters, digits and six
      signs, and not the reserved prefix. */
  lemma AcceptedNames(s: string)
    ensures GoodName(s) <==>
            && 3 <= |s| <= 255
            && ('a' <= s[0] <= 'z' || 'A' <= s[0] <= 'Z')
            && (forall c :: c in s ==>
                  || 'a' <= c <= 'z' || 'A' <= c <= 'Z' || '0' <= c <= '9'
                  || c == '-' || c == '_' || c == '.' || c == '~' || c == '+' || c == '%')
            && !(|s| >= 4 && s[0] == 'g' && s[1] == 'o' && s[2] == 'o' && s[3] == 'g')
  {
    if |s| >= 4 {
      assert "goog" <= s <==> s[..4] == "goog";
    }
    if 3 <= |s| {
      assert forall i :: 0 <= i < |s| ==> s[i] in s;
    }
  }

  /** A bucket name: 3 to 63 lower-case letters, digits and hyphens, no hyphen at either end. */
  lemma AcceptedBucketNames(s: string)
    ensures IsBucketName(s) <==>
            && 3 <= |s| <= 63
            && (forall c :: c in s ==> 'a' <= c <= 'z' || '0' <= c <= '9' || c == '-')
            && s[0] != '-' && s[|s| - 1] != '-'
  {
    if 3 <= |s| {
      assert s[0] in s && s[|s| - 1] in s;
      assert forall i :: 0 <= i < |s| ==> s[i] in s;
    }
  }

  /** A strategy is valid exactly if it resolves to one of the two there are. */
  lemma AcceptedStrategies(s: string)
    ensures ValidStrategy(s) <==> FirstStrategy([s]) == "create" || FirstStrategy([s]) == "update"
  {
    StrategyMeaning([s], if s == "" then 1 else 0);
  }

  /** Without an endpoint nothing else about push may be written; with one, only what fits together. */
  lemma AcceptedPush(s: SubConfig)
    ensures s.pushEndpoint == "" ==>
              (PushOk(s) <==> s.pushWrapper == "" && s.pushOIDCToken.None? && !s.pushWriteMetadata)
    ensures s.pushEndpoint != "" && s.pushWriteMetadata ==>
              (PushOk(s) <==> s.pushWrapper == "none" && TokenOk(s.pushOIDCToken))
    ensures s.pushEndpoint != "" && !s.pushWriteMetadata ==>
              (PushOk(s) <==>
               && (s.pushWrapper == "" || s.pushWrapper == "pubsub" || s.pushWrapper == "none")
               && TokenOk(s.pushOIDCToken))
  {
  }

  predicate TokenOk(t: Option<OIDCToken>) {
    t.Some? ==> t.value.serviceAccountEmail != "" && NoNull(t.value.serviceAccountEmail) && NoNull(t.value.audience)
  }

  predicate NullFree(m: Labels) {
    forall k :: k in m ==> NoNull(k) && NoNull(m[k])
  }

  /** No string of a validated subscription that reaches the service has a null byte in it. */
  lemma NoNullsPass(goParse: GoParser, s: SubConfig)
    requires SubOk(goParse, s)
    ensures NoNull(s.name) && NoNull(s.filter) && NoNull(s.pushEndpoint)
    ensures NullFree(s.labels) && NullFree(s.pushAttributes)
    ensures s.deadLetter.Some? ==> NoNull(s.deadLetter.value.topic)
    ensures s.pushOIDCToken.Some? ==>
              NoNull(s.pushOIDCToken.value.serviceAccountEmail) && NoNull(s.pushOIDCToken.value.audience)
  {
    forall i | 0 <= i < |s.name|
      ensures s.name[i] != '\0'
    {
      assert i == 0 || IsNameChar(s.name[i]);
    }
  }

  // ----- the limits, in numbers -----

  lemma AcceptedAckDeadlines(goParse: GoParser, v: string)
    ensures AckDeadlineOk(goParse, v) <==>
            v == "" || (NoNull(v) && exists n :: 10 <= n <= 600 && ParseDuration(goParse, v) == Some(n * 1_000_000_000))
  {
    if v != "" && AckDeadlineOk(goParse, v) {
      var d := ParseDuration(goParse, v).value;
      assert ParseDuration(goParse, v) == Some((d / SECOND) * 1_000_000_000);
    }
  }

  /** Ten minutes to 31 days. */
  lemma AcceptedRetentions(goParse: GoParser, v: string)
    ensures RetentionOk(goParse, v) <==>
            || v == ""
            || (&& NoNull(v) && ParseDuration(goParse, v).Some?
                && 600 * 1_000_000_000 <= ParseDuration(goParse, v).value <= 31 * 86_400 * 1_000_000_000)
  {
  }

  /** One day to 365. */
  lemma AcceptedExpirations(goParse: GoParser, v: string)
    ensures ExpirationOk(goParse, v) <==>
            || v == "" || v == "never"
            || (&& NoNull(v) && ParseDuration(goParse, v).Some?
                && 86_400 * 1_000_000_000 <= ParseDuration(goParse, v).value <= 365 * 86_400 * 1_000_000_000)
  {
  }

  /** At most 600 seconds each, and in order if both are positive. */
  lemma AcceptedBackoffs(goParse: GoParser, lo: string, hi: string, a: int, b: int)
    requires NoNull(lo) && NoNull(hi)
    requires ParseDuration(goParse, lo) == Some(a) && ParseDuration(goParse, hi) == Some(b)
    ensures RetryOk(goParse, Some(RetryConfig(lo, hi))) <==>
            && 0 <= a <= 600 * 1_000_000_000 && 0 <= b <= 600 * 1_000_000_000
            && (a == 0 || b == 0 || a <= b)
  {
  }

  lemma AcceptedAttempts(topic: string, n: int)
    requires topic != "" && NoNull(topic)
    ensures DeadLetterOk(Some(DeadLetterConfig(topic, n))) <==> n == 0 || 5 <= n <= 100
  {
  }

  // ----- the whole list -----

  function TopicNames(topics: seq<TopicConfig>): seq<string> {
    seq(|topics|, i requires 0 <= i < |topics| => topics[i].name)
  }

  function NamesOf(subs: seq<SubConfig>): seq<string> {
    seq(|subs|, i requires 0 <= i < |subs| => subs[i].name)
  }

  /** All subscription names, across topics, in file order. */
  function SubNames(topics: seq<TopicConfig>): seq<string> {
    if topics == [] then []
    else SubNames(topics[..|topics| - 1]) + NamesOf(topics[|topics| - 1].subscriptions)
  }

  predicate DeadLettersDeclared(topics: seq<TopicConfig>) {
    forall i, j :: 0 <= i < |topics| && 0 <= j < |topics[i].subscriptions| ==>
      var dl := topics[i].subscriptions[j].deadLetter;
      dl.Some? ==> dl.value.topic in TopicNames(topics)
  }

  /** The declarative reading of a valid topic list. */
  predicate ValidTopics(goParse: GoParser, topics: seq<TopicConfig>) {
    && (forall i :: 0 <= i < |topics| ==> TopicOk(goParse, topics[i]))
    && Distinct(TopicNames(topics))
    && Distinct(SubNames(topics))
    && DeadLettersDeclared(topics)
  }

  predicate ValidBuckets(buckets: seq<BucketConfig>) {
    && (forall i :: 0 <= i < |buckets| ==> BucketOk(buckets[i]))
    && forall i, j :: 0 <= i < j < |buckets| ==> buckets[i].name != buckets[j].name
  }

  predicate ValidConfig(goParse: GoParser, cfg: Config) {
    ValidStrategy(cfg.strategy) && ValidTopics(goParse, cfg.topics) && ValidBuckets(cfg.buckets)
  }
}
