/** The Pub/Sub and Cloud Storage endpoints as objects: the in-process fake of
    internal/client/pubsub_server_test.go, with a script of faults and, optionally, defaults that it
    fills into what it is sent. */
module Endpoints {
  import opened Client
  import opened Wire
  import opened Resources
  import opened Machine
  import opened Trace

  /** Whether the fake refuses the mask: it looks at every path before touching anything. */
  method CheckMask(mask: seq<Path>, refused: set<Path>) returns (bad: bool)
    ensures bad <==> exists p :: p in mask && p in refused
  {
    for i := 0 to |mask|
      invariant forall j :: 0 <= j < i ==> mask[j] !in refused
    {
      if mask[i] in refused {
        return true;
      }
    }
    return false;
  }

  /** The fake's field-by-field assignment, one masked path at a time. */
  method AssignTopic(existing: ProtoTopic, m: ProtoTopic, mask: seq<Path>) returns (r: ProtoTopic)
    ensures r == ApplyTopic(existing, m, mask)
  {
    r := existing;
    for i := 0 to |mask|
      invariant r == ApplyTopic(existing, m, mask[..i])
    {
      match mask[i] {
        case LabelsPath => r := r.(labels := m.labels);
        case MessageRetentionPath => r := r.(messageRetention := m.messageRetention);
        case _ =>
      }
      assert mask[..i + 1] == mask[..i] + [mask[i]];
    }
    assert mask[..|mask|] == mask;
  }

  method AssignSubscriptionField(r: ProtoSubscription, m: ProtoSubscription, p: Path)
    returns (r': ProtoSubscription)
    ensures r' == ApplySub(r, m, [p])
  {
    match p {
      case AckDeadlinePath => r' := r.(ackDeadlineSeconds := m.ackDeadlineSeconds);
      case MessageRetentionPath => r' := r.(messageRetention := m.messageRetention);
      case RetainAckedPath => r' := r.(retainAckedMessages := m.retainAckedMessages);
      case ExactlyOncePath => r' := r.(enableExactlyOnceDelivery := m.enableExactlyOnceDelivery);
      case ExpirationPath => r' := r.(expiration := m.expiration);
      case LabelsPath => r' := r.(labels := m.labels);
      case PushConfigPath => r' := r.(push := m.push);
      case DeadLetterPath => r' := r.(deadLetter := m.deadLetter);
      case RetryPath => r' := r.(retry := m.retry);
      case VersioningPath => r' := r;
    }
  }

  method AssignSubscription(existing: ProtoSubscription, m: ProtoSubscription, mask: seq<Path>)
    returns (r: ProtoSubscription)
    ensures r == ApplySub(existing, m, mask)
  {
    r := existing;
    for i := 0 to |mask|
      invariant r == ApplySub(existing, m, mask[..i])
    {
      ApplyMore(SubRes(existing), SubRes(m), mask[..i], mask[i]);
      r := AssignSubscriptionField(r, m, mask[i]);
      assert mask[..i + 1] == mask[..i] + [mask[i]];
    }
    assert mask[..|mask|] == mask;
  }

  class Endpoint {
    const env: Env
    /** What the endpoint holds. */
    var topics: map<string, ProtoTopic>
    var subs: map<string, ProtoSubscription>
    var buckets: map<string, Bucket>
    /** What will befall the coming calls; nothing, once exhausted. */
    var script: seq<Fault>
    /** What befell the calls so far. */
    var history: seq<Fault>
    /** The mutating calls sent so far. */
    var calls: seq<Call>

    constructor (env: Env, s: Store, script: seq<Fault>)
      ensures this.env == env && Contents() == s && this.script == script
      ensures history == [] && calls == []
    {
      this.env := env;
      topics, subs, buckets := s.topics, s.subs, s.buckets;
      this.script := script;
      history, calls := [], [];
    }

    ghost function Contents(): Store
      reads this
    {
      Store(topics, subs, buckets)
    }

    /** The call was answered as the model of the endpoint says, under the fault that struck it. */
    twostate predicate Answered(req: Request, out: Outcome)
      requires ProperRequest(req)
      reads this
    {
      && var f := if old(script) == [] then NoFault else old(script)[0];
      && history == old(history) + [f]
      && script == (if old(script) == [] then [] else old(script)[1..])
      && (Contents(), out) == Answer(env, old(Contents()), req, f)
      && calls == old(calls) + CallsOf(req)
    }

    method NextFault() returns (f: Fault)
      modifies this`script, this`history
      ensures f == if old(script) == [] then NoFault else old(script)[0]
      ensures script == if old(script) == [] then [] else old(script)[1..]
      ensures history == old(history) + [f]
    {
      if script == [] {
        f := NoFault;
      } else {
        f, script := script[0], script[1..];
      }
      history := history + [f];
    }

    method GetTopic(path: string) returns (out: Outcome)
      modifies this
      ensures Answered(GetReq(TopicKey(path)), out)
    {
      var f := NextFault();
      if f != NoFault {
        return Fatal;
      }
      return if path in topics then Found(TopicRes(topics[path])) else NotFound;
    }

    method CreateTopic(m: ProtoTopic) returns (out: Outcome)
      modifies this
      ensures Answered(CreateReq(TopicKey(m.name), TopicRes(m)), out)
    {
      var f := NextFault();
      calls := calls + [CreateCall(TopicKey(m.name))];
      if f == LostRequest {
        return Fatal;
      }
      if m.name in topics {
        out := AlreadyExists;
      } else {
        topics := topics[m.name := m];
        out := Done;
      }
      if f == LostReply {
        out := Fatal;
      }
    }

    method UpdateTopic(m: ProtoTopic, mask: seq<Path>) returns (out: Outcome)
      modifies this
      ensures Answered(UpdateReq(TopicKey(m.name), TopicRes(m), mask), out)
    {
      var f := NextFault();
      calls := calls + [UpdateCall(TopicKey(m.name), mask)];
      if f == LostRequest {
        return Fatal;
      }
      var bad := CheckMask(mask, env.refusedTopic);
      if bad {
        out := Unsupported;
      } else if m.name !in topics {
        out := NotFound;
      } else {
        var r := AssignTopic(topics[m.name], m, mask);
        topics := topics[m.name := r];
        out := Done;
      }
      if f == LostReply {
        out := Fatal;
      }
    }

    method GetSubscription(path: string) returns (out: Outcome)
      modifies this
      ensures Answered(GetReq(SubKey(path)), out)
    {
      var f := NextFault();
      if f != NoFault {
        return Fatal;
      }
      return if path in subs then Found(SubRes(subs[path])) else NotFound;
    }

    method CreateSubscription(m: ProtoSubscription) returns (out: Outcome)
      modifies this
      ensures Answered(CreateReq(SubKey(m.name), SubRes(m)), out)
    {
      var f := NextFault();
      calls := calls + [CreateCall(SubKey(m.name))];
      if f == LostRequest {
        return Fatal;
      }
      if m.name in subs {
        out := AlreadyExists;
      } else if env.strict && !TopicsExist(Store(topics, subs, buckets), SubRes(m), true, true) {
        out := NotFound;
      } else {
        subs := subs[m.name := StoredSub(env, m)];
        out := Done;
      }
      if f == LostReply {
        out := Fatal;
      }
    }

    method UpdateSubscription(m: ProtoSubscription, mask: seq<Path>) returns (out: Outcome)
      modifies this
      ensures Answered(UpdateReq(SubKey(m.name), SubRes(m), mask), out)
    {
      var f := NextFault();
      calls := calls + [UpdateCall(SubKey(m.name), mask)];
      if f == LostRequest {
        return Fatal;
      }
      var bad := CheckMask(mask, env.refusedSub);
      if bad {
        out := Unsupported;
      } else if m.name !in subs {
        out := NotFound;
      } else if env.strict && !TopicsExist(Store(topics, subs, buckets), SubRes(m), false, DeadLetterPath in mask) {
        out := NotFound;
      } else {
        var r := AssignSubscription(subs[m.name], StoredSub(env, m), mask);
        subs := subs[m.name := r];
        out := Done;
      }
      if f == LostReply {
        out := Fatal;
      }
    }

    method GetBucket(name: string) returns (out: Outcome)
      modifies this
      ensures Answered(GetReq(BucketKey(name)), out)
    {
      var f := NextFault();
      if f != NoFault {
        return Fatal;
      }
      return if name in buckets then Found(BucketRes(buckets[name])) else NotFound;
    }

    method CreateBucket(b: Bucket) returns (out: Outcome)
      modifies this
      ensures Answered(CreateReq(BucketKey(b.name), BucketRes(b)), out)
    {
      var f := NextFault();
      calls := calls + [CreateCall(BucketKey(b.name))];
      if f == LostRequest {
        return Fatal;
      }
      if b.name in buckets {
        out := AlreadyExists;
      } else {
        buckets := buckets[b.name := b];
        out := Done;
      }
      if f == LostReply {
        out := Fatal;
      }
    }

    /** Only the versioning flag of the message is looked at. */
    method SetVersioning(name: string, enabled: bool, ghost m: Bucket) returns (out: Outcome)
      requires m.versioningEnabled == enabled
      modifies this
      ensures Answered(UpdateReq(BucketKey(name), BucketRes(m), [VersioningPath]), out)
    {
      var f := NextFault();
      calls := calls + [UpdateCall(BucketKey(name), [VersioningPath])];
      if f == LostRequest {
        return Fatal;
      }
      if name !in buckets {
        out := NotFound;
      } else {
        buckets := buckets[name := buckets[name].(versioningEnabled := enabled)];
        out := Done;
      }
      if f == LostReply {
        out := Fatal;
      }
    }
  }
}
