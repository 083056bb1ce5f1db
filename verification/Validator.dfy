/** The early-exit validation loops and their seen-sets (internal/config/config.go:328-720). */
module Validator {
  import opened Client
  import opened Durations
  import opened Reconcile
  import opened Config
  import opened Credentials

  // ----- entries, check by check -----

  method ValidateDuration(goParse: GoParser, v: string) returns (ok: bool)
    ensures ok <==> v == "" || (NoNull(v) && ParseDuration(goParse, v).Some? && ParseDuration(goParse, v).value >= 0)
  {
    if v == "" {
      return true;
    }
    if '\0' in v {
      return false;
    }
    var d := ParseDuration(goParse, v);
    return d.Some? && d.value >= 0;
  }

  method ValidateDurationRange(goParse: GoParser, v: string, lo: int, hi: int) returns (ok: bool)
    ensures ok <==> DurationOk(goParse, v, lo, hi)
  {
    ok := ValidateDuration(goParse, v);
    if !ok || v == "" {
      return;
    }
    var d := ParseDuration(goParse, v).value;
    ok := !(d < lo || d > hi);
  }

  method ValidateAckDeadline(goParse: GoParser, v: string) returns (ok: bool)
    ensures ok <==> AckDeadlineOk(goParse, v)
  {
    ok := ValidateDurationRange(goParse, v, MIN_ACK, MAX_ACK);
    if !ok || v == "" {
      return;
    }
    ok := ParseDuration(goParse, v).value % SECOND == 0;
  }

  method ValidateLabels(labels: Labels) returns (ok: bool)
    ensures ok <==> LabelsOk(labels)
  {
    var pending := labels.Keys;
    while pending != {}
      invariant pending <= labels.Keys
      invariant forall k :: k in labels && k !in pending ==> NoNull(k) && NoNull(labels[k])
      decreases pending
    {
      var k :| k in pending;
      if '\0' in k || '\0' in labels[k] {
        return false;
      }
      pending := pending - {k};
    }
    return true;
  }

  method ValidatePush(s: SubConfig) returns (ok: bool)
    ensures ok <==> PushOk(s)
  {
    if s.pushWrapper != "" && s.pushWrapper != "pubsub" && s.pushWrapper != "none" {
      return false;
    }
    if s.pushEndpoint == "" && s.pushWrapper != "" {
      return false;
    }
    if s.pushWriteMetadata && s.pushWrapper != "none" {
      return false;
    }
    if s.pushOIDCToken.None? {
      return true;
    }
    if s.pushEndpoint == "" || s.pushOIDCToken.value.serviceAccountEmail == "" {
      return false;
    }
    return '\0' !in s.pushOIDCToken.value.serviceAccountEmail && '\0' !in s.pushOIDCToken.value.audience;
  }

  method ValidateRetry(goParse: GoParser, r: Option<RetryConfig>) returns (ok: bool)
    ensures ok <==> RetryOk(goParse, r)
  {
    if r.None? {
      return true;
    }
    ok := ValidateDurationRange(goParse, r.value.minimumBackoff, 0, MAX_BACKOFF);
    if !ok {
      return;
    }
    ok := ValidateDurationRange(goParse, r.value.maximumBackoff, 0, MAX_BACKOFF);
    if !ok {
      return;
    }
    var lo := ParseDuration(goParse, r.value.minimumBackoff).value;
    var hi := ParseDuration(goParse, r.value.maximumBackoff).value;
    ok := !(lo > 0 && hi > 0 && lo > hi);
  }

  /** Everything about one subscription but the uniqueness of its name. */
  method ValidateSubscription(goParse: GoParser, s: SubConfig) returns (ok: bool)
    ensures ok <==> SubOk(goParse, s)
  {
    if !ValidStrategy(s.strategy) || !GoodName(s.name) {
      return false;
    }
    ok := ValidateLabels(s.labels);
    if !ok {
      return;
    }
    ok := ValidateLabels(s.pushAttributes);
    if !ok {
      return;
    }
    ok := ValidateAckDeadline(goParse, s.ackDeadline);
    if !ok {
      return;
    }
    ok := ValidateDurationRange(goParse, s.messageRetention, MIN_RETENTION, MAX_RETENTION);
    if !ok {
      return;
    }
    if s.expirationTTL != "" && s.expirationTTL != EXPIRATION_NEVER {
      ok := ValidateDurationRange(goParse, s.expirationTTL, MIN_EXPIRATION, MAX_EXPIRATION);
      if !ok {
        return;
      }
    }
    if '\0' in s.filter || '\0' in s.pushEndpoint {
      return false;
    }
    if s.pushEndpoint == "" && |s.pushAttributes| > 0 {
      return false;
    }
    ok := ValidatePush(s);
    if !ok || !DeadLetterOk(s.deadLetter) {
      return false;
    }
    ok := ValidateRetry(goParse, s.retry);
  }

  // ----- uniqueness -----

  function Elements(names: seq<string>): set<string> {
    set n | n in names
  }

  predicate Fresh(names: seq<string>, seen: set<string>) {
    forall i :: 0 <= i < |names| ==> names[i] !in seen
  }

  /** One more name: a duplicate refutes the list, any other keeps the names unique. */
  lemma NextName(names: seq<string>, i: nat, seen: set<string>)
    requires i < |names| && Distinct(names[..i]) && Fresh(names[..i], seen)
    ensures
      var seen' := seen + Elements(names[..i]);
      if names[i] in seen' then !Distinct(names) || !Fresh(names, seen)
      else
        && Distinct(names[..i + 1]) && Fresh(names[..i + 1], seen)
        && seen' + {names[i]} == seen + Elements(names[..i + 1])
  {
  }

  /** One topic's subscriptions against the names already seen anywhere. */
  method ValidateSubscriptions(goParse: GoParser, subs: seq<SubConfig>, seen: set<string>)
    returns (ok: bool, seen': set<string>)
    ensures ok <==>
            && (forall j :: 0 <= j < |subs| ==> SubOk(goParse, subs[j]))
            && Distinct(NamesOf(subs)) && Fresh(NamesOf(subs), seen)
    ensures ok ==> seen' == seen + Elements(NamesOf(subs))
  {
    seen' := seen;
    ghost var names := NamesOf(subs);
    for i := 0 to |subs|
      invariant forall j :: 0 <= j < i ==> SubOk(goParse, subs[j])
      invariant Distinct(names[..i]) && Fresh(names[..i], seen)
      invariant seen' == seen + Elements(names[..i])
    {
      NextName(names, i, seen);
      ok := ValidateSubscription(goParse, subs[i]);
      if !ok {
        return;
      }
      if subs[i].name in seen' {
        ok := false;
        return;
      }
      seen' := seen' + {subs[i].name};
    }
    assert names[..|subs|] == names;
    ok := true;
  }

  lemma {:induction false} SubNamesPrefix(topics: seq<TopicConfig>, n: nat)
    requires n <= |topics|
    ensures SubNames(topics[..n]) <= SubNames(topics)
    decreases |topics| - n
  {
    if n < |topics| {
      SubNamesPrefix(topics, n + 1);
      assert topics[..n + 1][..n] == topics[..n];
    } else {
      assert topics[..n] == topics;
    }
  }

  lemma SubNamesStep(topics: seq<TopicConfig>, n: nat)
    requires n < |topics|
    ensures SubNames(topics[..n + 1]) == SubNames(topics[..n]) + NamesOf(topics[n].subscriptions)
  {
    assert topics[..n + 1][..n] == topics[..n];
  }

  lemma DistinctConcat(a: seq<string>, b: seq<string>)
    ensures Distinct(a + b) <==> Distinct(a) && Distinct(b) && Fresh(b, Elements(a))
  {
    if Distinct(a + b) {
      assert forall i :: 0 <= i < |a| ==> (a + b)[i] == a[i];
      forall i, j | 0 <= i < j < |b|
        ensures b[i] != b[j]
      {
        assert (a + b)[|a| + i] == b[i] && (a + b)[|a| + j] == b[j];
      }
      forall i | 0 <= i < |b|
        ensures b[i] !in Elements(a)
      {
        assert (a + b)[|a| + i] == b[i];
      }
    } else {
      var i, j :| 0 <= i < j < |a + b| && (a + b)[i] == (a + b)[j];
      if i < |a| && j >= |a| {
        assert b[j - |a|] in Elements(a);
      }
    }
  }

  /** The names of the topics validated so far are unique, and so are their subscriptions'. */
  ghost predicate Validated(goParse: GoParser, topics: seq<TopicConfig>, n: nat, names: set<string>, subNames: set<string>)
    requires n <= |topics|
  {
    && (forall i :: 0 <= i < n ==> TopicOk(goParse, topics[i]))
    && (forall i, j :: 0 <= i < j < n ==> topics[i].name != topics[j].name)
    && (forall s :: s in names <==> exists i :: 0 <= i < n && topics[i].name == s)
    && Distinct(SubNames(topics[..n]))
    && subNames == Elements(SubNames(topics[..n]))
  }

  lemma DistinctPrefix(a: seq<string>, b: seq<string>)
    requires a <= b && Distinct(b)
    ensures Distinct(a)
  {
  }

  /** If the next topic's names clash, the whole list is invalid. */
  lemma ClashRefutes(topics: seq<TopicConfig>, n: nat)
    requires n < |topics|
    requires !Distinct(NamesOf(topics[n].subscriptions)) ||
             !Fresh(NamesOf(topics[n].subscriptions), Elements(SubNames(topics[..n])))
    ensures !Distinct(SubNames(topics))
  {
    SubNamesStep(topics, n);
    DistinctConcat(SubNames(topics[..n]), NamesOf(topics[n].subscriptions));
    SubNamesPrefix(topics, n + 1);
    if Distinct(SubNames(topics)) {
      DistinctPrefix(SubNames(topics[..n + 1]), SubNames(topics));
    }
  }

  /** One more topic validated. */
  lemma ValidatedStep(
    goParse: GoParser, topics: seq<TopicConfig>, n: nat, names: set<string>, subNames: set<string>)
    requires n < |topics| && Validated(goParse, topics, n, names, subNames)
    requires TopicOk(goParse, topics[n]) && topics[n].name !in names
    requires Distinct(NamesOf(topics[n].subscriptions)) && Fresh(NamesOf(topics[n].subscriptions), subNames)
    ensures Validated(goParse, topics, n + 1, names + {topics[n].name},
                      subNames + Elements(NamesOf(topics[n].subscriptions)))
  {
    SubNamesStep(topics, n);
    DistinctConcat(SubNames(topics[..n]), NamesOf(topics[n].subscriptions));
    forall i | 0 <= i < n
      ensures topics[i].name in names
    {
    }
  }

  lemma DuplicateTopicRefutes(topics: seq<TopicConfig>, i: nat, j: nat)
    requires i < j < |topics| && topics[i].name == topics[j].name
    ensures !Distinct(TopicNames(topics))
  {
    assert TopicNames(topics)[i] == TopicNames(topics)[j];
  }

  method ValidateDeadLetterTargets(topics: seq<TopicConfig>, declared: set<string>) returns (ok: bool)
    requires declared == Elements(TopicNames(topics))
    ensures ok <==> DeadLettersDeclared(topics)
  {
    for i := 0 to |topics|
      invariant forall a, b :: 0 <= a < i && 0 <= b < |topics[a].subscriptions| ==>
                  var dl := topics[a].subscriptions[b].deadLetter;
                  dl.Some? ==> dl.value.topic in TopicNames(topics)
    {
      var subs := topics[i].subscriptions;
      for j := 0 to |subs|
        invariant forall b :: 0 <= b < j ==>
                    subs[b].deadLetter.Some? ==> subs[b].deadLetter.value.topic in TopicNames(topics)
      {
        if subs[j].deadLetter.Some? && subs[j].deadLetter.value.topic !in declared {
          return false;
        }
      }
    }
    return true;
  }

  /** The validator accepts exactly the valid topic lists. */
  method ValidateTopics(goParse: GoParser, topics: seq<TopicConfig>) returns (ok: bool)
    ensures ok <==> ValidTopics(goParse, topics)
  {
    var names: set<string> := {};
    var subNames: set<string> := {};
    assert topics[..0] == [];
    for i := 0 to |topics|
      invariant Validated(goParse, topics, i, names, subNames)
    {
      var t := topics[i];
      if !ValidStrategy(t.strategy) || !GoodName(t.name) {
        assert !TopicOk(goParse, topics[i]);
        return false;
      }
      if t.name in names {
        ghost var j :| 0 <= j < i && topics[j].name == t.name;
        DuplicateTopicRefutes(topics, j, i);
        return false;
      }
      ok := ValidateTopicSettings(goParse, t);
      if !ok {
        assert !TopicOk(goParse, topics[i]);
        return;
      }
      ghost var seen := subNames;
      ok, subNames := ValidateSubscriptions(goParse, t.subscriptions, subNames);
      if !ok {
        if TopicOk(goParse, topics[i]) {
          ClashRefutes(topics, i);
        }
        return;
      }
      ValidatedStep(goParse, topics, i, names, seen);
      names := names + {t.name};
    }
    assert topics[..|topics|] == topics;
    TopicNamesFacts(topics, names);
    ok := ValidateDeadLetterTargets(topics, names);
  }

  method ValidateTopicSettings(goParse: GoParser, t: TopicConfig) returns (ok: bool)
    ensures ok <==> LabelsOk(t.labels) && RetentionOk(goParse, t.messageRetention)
  {
    ok := ValidateLabels(t.labels);
    if ok {
      ok := ValidateDurationRange(goParse, t.messageRetention, MIN_RETENTION, MAX_RETENTION);
    }
  }

  lemma TopicNamesFacts(topics: seq<TopicConfig>, names: set<string>)
    requires forall i, j :: 0 <= i < j < |topics| ==> topics[i].name != topics[j].name
    requires forall s :: s in names <==> exists i :: 0 <= i < |topics| && topics[i].name == s
    ensures Distinct(TopicNames(topics)) && names == Elements(TopicNames(topics))
  {
    var all := TopicNames(topics);
    assert forall i :: 0 <= i < |topics| ==> all[i] == topics[i].name;
  }

  method ValidateBuckets(buckets: seq<BucketConfig>) returns (ok: bool)
    ensures ok <==> ValidBuckets(buckets)
  {
    var names: set<string> := {};
    for i := 0 to |buckets|
      invariant forall j :: 0 <= j < i ==> BucketOk(buckets[j])
      invariant forall j, k :: 0 <= j < k < i ==> buckets[j].name != buckets[k].name
      invariant names == set j | 0 <= j < i :: buckets[j].name
    {
      var b := buckets[i];
      if !ValidStrategy(b.strategy) || !IsBucketName(b.name) {
        return false;
      }
      if b.name in names {
        return false;
      }
      names := names + {b.name};
      if '\0' in b.location || ToUpper(b.storageClass) !in STORAGE_CLASSES {
        return false;
      }
    }
    return true;
  }

  /** The whole file: its project, the resources and the key files. */
  datatype ConfigFile = ConfigFile(projectID: string, config: Config, credentials: seq<Credential>)

  predicate ValidFile(goParse: GoParser, isAbsolute: string -> bool, file: ConfigFile) {
    && (file.projectID != "" ==> IsCloudId(file.projectID))
    && ValidConfig(goParse, file.config)
    && ValidCredentials(isAbsolute, file.credentials)
  }

  method Validate(goParse: GoParser, isAbsolute: string -> bool, file: ConfigFile) returns (ok: bool)
    ensures ok <==> ValidFile(goParse, isAbsolute, file)
  {
    if !ValidStrategy(file.config.strategy) {
      return false;
    }
    if file.projectID != "" && !IsCloudId(file.projectID) {
      return false;
    }
    ok := ValidateTopics(goParse, file.config.topics);
    if !ok {
      return;
    }
    ok := ValidateBuckets(file.config.buckets);
    if !ok {
      return;
    }
    ok := ValidateCredentials(isAbsolute, file.credentials);
  }
}
