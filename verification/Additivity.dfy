/** What no run ever takes away: additivity, omitted fields, and exactly when an omitted push
    setting survives. */
module Additivity {
  import opened Client
  import opened Wire
  import opened Reconcile
  import opened Resources
  import opened Algebra
  import opened Machine
  import opened Guarantees

  // ----- what the config leaves alone -----

  /** The config entry does not set the field that `p` names. */
  predicate Omits(it: Item, p: Path) {
    match it
    case TopicItem(t, _) => (
      match p
      case MessageRetentionPath => t.messageRetention <= 0
      case LabelsPath => t.labels == map[]
      case _ => true)
    case SubItem(s, _) => (
      match p
      case AckDeadlinePath => s.ackDeadline <= 0
      case MessageRetentionPath => s.messageRetention <= 0
      case RetainAckedPath => s.retainAckedMessages.None?
      case ExactlyOncePath => s.enableExactlyOnceDelivery.None?
      case ExpirationPath => !s.expirationSet
      case LabelsPath => s.labels == map[]
      case PushConfigPath => s.push.None?
      case DeadLetterPath => s.deadLetter.None?
      case RetryPath => s.retry.None?
      case VersioningPath => true)
    case BucketItem(b, _) => p == VersioningPath ==> b.versioning.None?
  }

  lemma OmittedNeverDrifts(it: Item, r: Resource, p: Path)
    requires Fits(it, r) && Omits(it, p)
    ensures !Drifts(it, r, p)
  {
  }

  // ----- labels and push attributes -----

  function LabelsOf(r: Resource): Labels {
    match r
    case TopicRes(t) => t.labels
    case SubRes(s) => s.labels
    case BucketRes(_) => map[]
  }

  function ConfiguredLabels(it: Item): Labels {
    match it
    case TopicItem(t, _) => t.labels
    case SubItem(s, _) => s.labels
    case BucketItem(_, _) => map[]
  }

  function AttributesOf(r: Resource): Labels {
    if r.SubRes? && r.sub.push.Some? then r.sub.push.value.attributes else map[]
  }

  function ConfiguredAttributes(it: Item): Labels {
    if it.SubItem? && it.sub.push.Some? then it.sub.push.value.attributes else map[]
  }

  /** `after` has every entry of `before` whose key is not configured, unchanged. */
  predicate Preserves(before: Labels, after: Labels, configured: Labels) {
    forall k :: k in before && k !in configured ==> k in after && after[k] == before[k]
  }

  lemma WrittenPreservesLabels(env: Env, it: Item, r: Resource)
    requires Fits(it, r)
    ensures Preserves(LabelsOf(r), LabelsOf(Written(env, it, r)), ConfiguredLabels(it))
  {
  }

  lemma WrittenPreservesAttributes(env: Env, it: Item, r: Resource)
    requires Fits(it, r) && it.SubItem? && it.sub.push.Some?
    ensures Preserves(AttributesOf(r), AttributesOf(Written(env, it, r)), ConfiguredAttributes(it))
  {
  }

  /** A resource on its way has lost no label and no push attribute that the config does not manage. */
  lemma MidwayPreserves(env: Env, it: Item, q: Resource, r: Resource)
    requires Fits(it, q) && Midway(env, it, Some(q), r)
    ensures Preserves(LabelsOf(q), LabelsOf(r), ConfiguredLabels(it))
    ensures Preserves(AttributesOf(q), AttributesOf(r), ConfiguredAttributes(it))
  {
    var t := Target(env, it, Some(q));
    WrittenPreservesLabels(env, it, q);
    if it.SubItem? && it.sub.push.Some? {
      WrittenPreservesAttributes(env, it, q);
    }
    assert FieldEq(r, q, LabelsPath) || FieldEq(r, t, LabelsPath);
    assert FieldEq(r, q, PushConfigPath) || FieldEq(r, t, PushConfigPath);
    if !it.createOnly {
      TargetField(env, it, q, LabelsPath);
      TargetField(env, it, q, PushConfigPath);
    }
  }

  // ----- additivity -----

  /** What every execution keeps of a resource that was there before. */
  ghost predicate Kept(it: Item, before: Resource, after: Resource) {
    && Fits(it, before) && Fits(it, after)
    && FixedEq(after, before)
    && (it.createOnly ==> after == before)
    && (forall p :: Omits(it, p) ==> FieldEq(after, before, p))
    && Preserves(LabelsOf(before), LabelsOf(after), ConfiguredLabels(it))
    && Preserves(AttributesOf(before), AttributesOf(after), ConfiguredAttributes(it))
  }

  lemma MidwayKeeps(env: Env, it: Item, q: Resource, r: Resource)
    requires Fits(it, q) && Midway(env, it, Some(q), r)
    ensures Kept(it, q, r)
  {
    MidwayPreserves(env, it, q, r);
    var t := Target(env, it, Some(q));
    forall p | it.createOnly || Omits(it, p)
      ensures FieldEq(r, q, p)
    {
      if !it.createOnly {
        OmittedNeverDrifts(it, q, p);
        TargetField(env, it, q, p);
        if FieldEq(r, t, p) {
          FieldEqTrans(r, t, q, p);
        }
      }
    }
    if it.createOnly {
      FieldsDetermine(r, q);
    }
  }

  /** Over every execution, failing runs included: no resource disappears, what the config does not
      name is untouched, and of what it names the fixed fields, the omitted fields, unmanaged labels
      and unmanaged push attributes stay; under strategy "create" everything stays. */
  lemma EveryExecutionIsAdditive(env: Env, items: seq<Item>, origin: Store, s: Store, k: Key)
    requires WellFormed(env, items) && Reachable(env, items, origin, s)
    requires Lookup(origin, k).Some?
    ensures Lookup(s, k).Some?
    ensures !Named(env, items, k) ==> Lookup(s, k) == Lookup(origin, k)
    ensures forall i :: 0 <= i < |items| && KeyOf(env, items[i]) == k ==>
              Kept(items[i], Lookup(origin, k).value, Lookup(s, k).value)
  {
    InitialOrTarget(env, items, origin, s);
    if Named(env, items, k) {
      forall i | 0 <= i < |items| && KeyOf(env, items[i]) == k
        ensures Lookup(s, k).Some? && Kept(items[i], Lookup(origin, k).value, Lookup(s, k).value)
      {
        MidwayKeeps(env, items[i], Lookup(origin, k).value, Lookup(s, k).value);
      }
      var j :| 0 <= j < |items| && KeyOf(env, items[j]) == k;
      assert Lookup(s, k).Some?;
    }
  }

  // ----- omitted push settings -----

  /** The update would send push_config and the endpoint would take it. */
  predicate SendsPushConfig(env: Env, it: Item, r: Resource)
    requires Fits(it, r)
  {
    !it.createOnly && Drifts(it, r, PushConfigPath) && PushConfigPath !in Refused(env, it)
  }

  lemma TargetPush(env: Env, it: Item, r: Resource)
    requires it.SubItem? && it.sub.push.Some? && Fits(it, r)
    ensures
      Target(env, it, Some(r)).sub.push ==
      if SendsPushConfig(env, it, r) then Some(ToProtoPush(MergedPush(PushOf(r.sub.push), it.sub.push.value)))
      else r.sub.push
  {
    SubMessageFields(env.project, it.sub, r.sub);
    if !it.createOnly {
      TargetField(env, it, r, PushConfigPath);
    }
  }

  /** A live OIDC token the config says nothing about survives exactly when push_config is not sent. */
  lemma OmittedTokenSurvives(env: Env, it: Item, r: Resource)
    requires it.SubItem? && it.sub.push.Some? && it.sub.push.value.oidcToken.None?
    requires Fits(it, r) && r.sub.push.Some? && r.sub.push.value.oidcToken.Some?
    ensures
      var t := Target(env, it, Some(r)).sub.push;
      t.Some? && (t.value.oidcToken == r.sub.push.value.oidcToken <==> !SendsPushConfig(env, it, r))
  {
    TargetPush(env, it, r);
  }

  /** Likewise an explicit live wrapper, when the config leaves the wrapper unset. */
  lemma OmittedWrapperSurvives(env: Env, it: Item, r: Resource)
    requires it.SubItem? && it.sub.push.Some? && it.sub.push.value.wrapper == WrapperUnset
    requires Fits(it, r) && r.sub.push.Some? && r.sub.push.value.wrapper != WrapperAbsent
    ensures
      var t := Target(env, it, Some(r)).sub.push;
      t.Some? && (t.value.wrapper == r.sub.push.value.wrapper <==> !SendsPushConfig(env, it, r))
  {
    TargetPush(env, it, r);
  }

  /** A live metadata flag under wrapper "none" survives exactly when the config says the same, where not
      writing push_write_metadata says false, or the update is not made. */
  lemma LiveMetadataSurvives(env: Env, it: Item, r: Resource)
    requires it.SubItem? && it.sub.push.Some? && it.sub.push.value.wrapper == WrapperNone
    requires Fits(it, r) && r.sub.push.Some? && r.sub.push.value.wrapper.NoWrapper?
    ensures
      var t, live, asked := Target(env, it, Some(r)).sub.push, r.sub.push.value.wrapper, it.sub.push.value.writeMetadata;
      && t.Some?
      && (t.value.wrapper == live <==>
          live.writeMetadata == asked || it.createOnly || PushConfigPath in Refused(env, it))
  {
    TargetPush(env, it, r);
  }

  /** The documentation says both survive; changing only the endpoint loses both. */
  lemma ChangedEndpointDropsTokenAndWrapper(env: Env, name: string, topic: string)
    requires PushConfigPath !in env.refusedSub
    ensures
      var d := PushConfig("https://new", map[], None, WrapperUnset, false);
      var live := ProtoPush("https://old", map[], Some(OIDCToken("push@project", "")), NoWrapper(true));
      var it := SubItem(Subscription(name, topic, 0, 0, None, None, None, "", false, 0, map[], Some(d), None, None), false);
      var r := SubRes(ToProtoSubscription(env.project, it.sub).(push := Some(live)));
      Target(env, it, Some(r)).sub.push == Some(ProtoPush("https://new", map[], None, WrapperAbsent))
  {
    var d := PushConfig("https://new", map[], None, WrapperUnset, false);
    var live := ProtoPush("https://old", map[], Some(OIDCToken("push@project", "")), NoWrapper(true));
    var it := SubItem(Subscription(name, topic, 0, 0, None, None, None, "", false, 0, map[], Some(d), None, None), false);
    var r := SubRes(ToProtoSubscription(env.project, it.sub).(push := Some(live)));
    assert "https://old"[8] != "https://new"[8];
    TargetPush(env, it, r);
    assert Drifts(it, r, PushConfigPath);
  }
}
