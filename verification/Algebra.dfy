/** The algebra of diff, merge and masked apply, on any kind of resource. */
module Algebra {
  import opened Client
  import opened Wire
  import opened Reconcile
  import opened Resources

  // ----- agreement on one field is an equivalence -----

  lemma FieldEqRefl(a: Resource, p: Path)
    ensures FixedEq(a, a) && FieldEq(a, a, p)
  {
  }

  lemma FieldEqSym(a: Resource, b: Resource, p: Path)
    requires SameKind(a, b) && FieldEq(a, b, p)
    ensures FieldEq(b, a, p)
  {
  }

  lemma FieldEqTrans(a: Resource, b: Resource, c: Resource, p: Path)
    requires SameKind(a, b) && SameKind(b, c) && FieldEq(a, b, p) && FieldEq(b, c, p)
    ensures FieldEq(a, c, p)
  {
  }

  // ----- the exact diff law -----

  lemma DriftAfterApply(env: Env, it: Item, r: Resource, mask: seq<Path>, p: Path)
    requires Sound(it) && Fits(it, r)
    requires forall q :: q in mask ==> Drifts(it, r, q)
    ensures
      var r' := Apply(r, Written(env, it, r), mask);
      Fits(it, r') && Drifts(it, r', p) == (Drifts(it, r, p) && (p !in mask || Defaulted(env, it, p)))
  {
    var m := Written(env, it, r);
    var r' := Apply(r, m, mask);
    ApplyField(r, m, mask, p);
    if p in mask {
      WrittenDrift(env, it, r, p);
      DriftIsLocal(it, r', m, p);
    } else {
      DriftIsLocal(it, r', r, p);
    }
  }

  /** Applying any part of the diff and diffing again leaves exactly the rest, in order, and what a
      default overruled. */
  lemma ExactDiffLaw(env: Env, it: Item, r: Resource, mask: seq<Path>)
    requires Sound(it) && Fits(it, r)
    requires forall p :: p in mask ==> p in Diff(it, r)
    ensures
      var r' := Apply(r, Written(env, it, r), mask);
      && Fits(it, r')
      && Diff(it, r') == Select(Diff(it, r), p => p !in mask || Defaulted(env, it, p))
      && (env.defaults.None? ==> Diff(it, r') == Select(Diff(it, r), p => p !in mask))
  {
    DiffMembers(it, r);
    var r' := Apply(r, Written(env, it, r), mask);
    forall p
      ensures Drifts(it, r', p) == (Drifts(it, r, p) && (p !in mask || Defaulted(env, it, p)))
    {
      DriftAfterApply(env, it, r, mask, p);
    }
    SelectSelect(PathsOf(it), DriftTest(it, r), p => p !in mask || Defaulted(env, it, p), DriftTest(it, r'));
    if env.defaults.None? {
      SelectSelect(PathsOf(it), DriftTest(it, r), p => p !in mask, DriftTest(it, r'));
    }
  }

  /** No drift is left exactly when the mask was the whole diff and no default got in. */
  lemma DiffIsMinimal(env: Env, it: Item, r: Resource, mask: seq<Path>)
    requires Sound(it) && Fits(it, r)
    requires forall p :: p in mask ==> p in Diff(it, r)
    ensures
      var r' := Apply(r, Written(env, it, r), mask);
      Fits(it, r') && (Diff(it, r') == [] <==> forall p :: p in Diff(it, r) ==> p in mask && !Defaulted(env, it, p))
  {
    ExactDiffLaw(env, it, r, mask);
    SelectMembers(Diff(it, r), p => p !in mask || Defaulted(env, it, p));
    var rest := Diff(it, Apply(r, Written(env, it, r), mask));
    assert rest == [] || rest[0] in rest;
  }

  /** A freshly created resource, read back, shows no drift. */
  lemma CreatedHasNoDrift(env: Env, it: Item)
    requires Sound(it)
    ensures Diff(it, Created(env, it)) == []
    ensures forall p :: !Drifts(it, Created(env, it), p)
  {
    var r := Created(env, it);
    match it {
      case TopicItem(t, _) => TopicRoundTrip(env.project, t);
      case SubItem(s, _) =>
        SubscriptionRoundTrip(env.project, s);
        forall p
          ensures !Drifts(it, r, p)
        {
          SettledHasNoDrift(s, p);
        }
      case BucketItem(_, _) =>
    }
    SelectNone(PathsOf(it), DriftTest(it, r));
  }

  lemma SettledHasNoDrift(s: Subscription, p: Path)
    ensures !SubDrifts(FlagsSettled(s), s, p)
  {
  }

  /** Nor does it show drift in a field fixed at creation. */
  lemma CreatedHasNoFixedDrift(env: Env, s: Subscription)
    requires Transmissible(s)
    ensures Select(FIXED_FIELDS, FixedDriftTest(FromProtoSubscription(ToProtoSubscription(env.project, s)), s)) == []
  {
    SubscriptionRoundTrip(env.project, s);
    SelectNone(FIXED_FIELDS, FixedDriftTest(FlagsSettled(s), s));
  }

  /** Stored, it shows drift exactly where the endpoint filled in a default. */
  lemma InitialDrift(env: Env, it: Item, p: Path)
    requires Sound(it)
    ensures Drifts(it, Initial(env, it), p) <==> Defaulted(env, it, p)
  {
    CreatedHasNoDrift(env, it);
    StoredDrift(env, it, Created(env, it), p);
  }

  /** Updating it again would write what it holds. */
  lemma InitialIsStable(env: Env, it: Item, p: Path)
    requires Sound(it) && Drifts(it, Initial(env, it), p)
    ensures FieldEq(Written(env, it, Initial(env, it)), Initial(env, it), p)
  {
    InitialDrift(env, it, p);
    PolicySent(env, it, Initial(env, it), p);
    StoredIsLocal(env, Payload(env, it, Initial(env, it)), Created(env, it), p);
  }

  // ----- the target, field by field -----

  lemma TargetField(env: Env, it: Item, r: Resource, p: Path)
    requires Fits(it, r) && !it.createOnly
    ensures
      var t := Target(env, it, Some(r));
      && FixedEq(t, r)
      && FieldEq(t, if Drifts(it, r, p) && p !in Refused(env, it) then Written(env, it, r) else r, p)
  {
    DiffMembers(it, r);
    AcceptedMembers(env, it, Diff(it, r));
    ApplyField(r, Written(env, it, r), Accepted(env, it, Diff(it, r)), p);
    if Drifts(it, r, p) {
      AllPathsCovered(it, r, p);
    }
  }

  // ----- resources on their way -----

  /** Every field of `r` holds its value in `a` or its value in `b`; what a mask cannot name, in both. */
  predicate Between(a: Resource, r: Resource, b: Resource)
    requires SameKind(a, r) && SameKind(r, b)
  {
    && FixedEq(r, a)
    && FixedEq(r, b)
    && forall p :: FieldEq(r, a, p) || FieldEq(r, b, p)
  }

  /** `r` may be seen between `found` and `goal`: just created, or each field old or new. */
  predicate Passing(found: Option<Resource>, goal: Resource, r: Resource)
    requires SameKind(r, goal) && (found.Some? ==> SameKind(found.value, r))
  {
    match found
    case None => r == goal
    case Some(q) => Between(q, r, goal)
  }

  /** `r` may be seen while reconciling `it` from `found`. */
  predicate Midway(env: Env, it: Item, found: Option<Resource>, r: Resource) {
    && Fits(it, r)
    && (found.Some? ==> Fits(it, found.value))
    && Passing(found, Target(env, it, found), r)
  }

  lemma MidwayStart(env: Env, it: Item, r: Resource)
    requires Fits(it, r)
    ensures Midway(env, it, Some(r), r)
  {
    var t := Target(env, it, Some(r));
    if !it.createOnly {
      TargetField(env, it, r, LabelsPath);
    }
    StartIsBetween(r, t);
  }

  lemma StartIsBetween(a: Resource, b: Resource)
    requires SameKind(a, b) && FixedEq(b, a)
    ensures Between(a, a, b)
  {
    forall p
      ensures FieldEq(a, a, p)
    {
      FieldEqRefl(a, p);
    }
  }

  /** A field that did not drift at the start, or is refused, is already home. */
  lemma MidwayHome(env: Env, it: Item, found: Option<Resource>, r: Resource, p: Path)
    requires Midway(env, it, found, r)
    requires found.None? || it.createOnly || p in Refused(env, it) || !Drifts(it, found.value, p)
    ensures FieldEq(r, Target(env, it, found), p)
  {
    if found.Some? {
      var t := Target(env, it, found);
      assert FieldEq(r, found.value, p) || FieldEq(r, t, p);
      if !it.createOnly {
        TargetField(env, it, found.value, p);
        if FieldEq(r, found.value, p) {
          FieldEqSym(t, found.value, p);
          FieldEqTrans(r, found.value, t, p);
        }
      }
    }
  }

  /** Every field home means the resource is the target. */
  lemma MidwayArrived(env: Env, it: Item, found: Option<Resource>, r: Resource)
    requires Midway(env, it, found, r)
    requires forall p :: FieldEq(r, Target(env, it, found), p)
    ensures r == Target(env, it, found)
  {
    if found.Some? {
      FieldsDetermine(r, Target(env, it, found));
    }
  }

  /** What a run learns by reading `r` on its way: the paths it will not send are home, and
      for those it will send, the message carries the target value. */
  lemma MidwayRead(env: Env, it: Item, found: Option<Resource>, r: Resource, p: Path)
    requires Sound(it) && Midway(env, it, found, r) && !it.createOnly
    ensures !Drifts(it, r, p) ==> FieldEq(r, Target(env, it, found), p)
    ensures Drifts(it, r, p) && p !in Refused(env, it) ==>
              FieldEq(Written(env, it, r), Target(env, it, found), p)
  {
    var t := Target(env, it, found);
    match found {
      case None =>
        FieldEqRefl(r, p);
        if Drifts(it, r, p) {
          InitialIsStable(env, it, p);
        }
      case Some(q) =>
        TargetField(env, it, q, p);
        if Drifts(it, q, p) && p !in Refused(env, it) {
          var m := Written(env, it, q);
          FieldEqSym(t, m, p);
          if FieldEq(r, t, p) {
            FieldEqTrans(r, t, m, p);
          } else {
            assert FieldEq(r, q, p);
            DriftIsLocal(it, r, q, p);
            FieldEqSym(r, q, p);
          }
          WrittenIsStable(env, it, q, r, p);
          FieldEqSym(m, Written(env, it, r), p);
          FieldEqTrans(Written(env, it, r), m, t, p);
        } else {
          MidwayHome(env, it, found, r, p);
          FieldEqTrans(r, t, q, p);
          DriftIsLocal(it, r, q, p);
        }
    }
  }

  /** A message that carries `b`'s values for its mask moves `r` towards `b`, never back. */
  lemma ApplyTowards(a: Resource, r: Resource, b: Resource, m: Resource, mask: seq<Path>)
    requires SameKind(a, r) && SameKind(r, b) && SameKind(r, m) && Between(a, r, b)
    requires forall p :: p in mask ==> FieldEq(m, b, p)
    ensures Between(a, Apply(r, m, mask), b)
    ensures forall p :: p in mask || FieldEq(r, b, p) ==> FieldEq(Apply(r, m, mask), b, p)
  {
    var r' := Apply(r, m, mask);
    forall p
      ensures FieldEq(r', a, p) || FieldEq(r', b, p)
      ensures p in mask || FieldEq(r, b, p) ==> FieldEq(r', b, p)
      ensures FixedEq(r', r)
    {
      ApplyField(r, m, mask, p);
      if p in mask {
        FieldEqTrans(r', m, b, p);
      } else if FieldEq(r, b, p) {
        FieldEqTrans(r', r, b, p);
      } else {
        FieldEqTrans(r', r, a, p);
      }
    }
    assert FixedEq(r', r) by {
      ApplyField(r, m, mask, LabelsPath);
    }
  }

  /** Wherever on the way a reconciliation is picked up again, it is headed for the same target. */
  lemma TargetFromMidway(env: Env, it: Item, found: Option<Resource>, r: Resource)
    requires Sound(it) && Midway(env, it, found, r)
    ensures Target(env, it, Some(r)) == Target(env, it, found)
  {
    var t, t' := Target(env, it, found), Target(env, it, Some(r));
    if it.createOnly {
      forall p
        ensures FieldEq(r, t, p)
      {
        MidwayHome(env, it, found, r, p);
      }
      MidwayArrived(env, it, found, r);
    } else {
      forall p
        ensures FieldEq(t', t, p)
      {
        TargetField(env, it, r, p);
        MidwayRead(env, it, found, r, p);
        if Drifts(it, r, p) && p !in Refused(env, it) {
          FieldEqTrans(t', Written(env, it, r), t, p);
        } else {
          if p in Refused(env, it) {
            MidwayHome(env, it, found, r, p);
          }
          FieldEqTrans(t', r, t, p);
        }
      }
      TargetField(env, it, r, LabelsPath);
      assert FixedEq(t', t);
      FieldsDetermine(t', t);
    }
  }

  /** The target is itself on the way, so reconciling it again changes nothing. */
  lemma TargetIsMidway(env: Env, it: Item, found: Option<Resource>)
    requires found.Some? ==> Fits(it, found.value)
    ensures Midway(env, it, found, Target(env, it, found))
  {
    if found.Some? {
      var t := Target(env, it, found);
      forall p
        ensures FieldEq(t, t, p) && FixedEq(t, t)
      {
        FieldEqRefl(t, p);
      }
      if !it.createOnly {
        TargetField(env, it, found.value, LabelsPath);
      }
      FieldEqRefl(t, LabelsPath);
    }
  }

  lemma TargetIdempotent(env: Env, it: Item, found: Option<Resource>)
    requires Sound(it)
    requires found.Some? ==> Fits(it, found.value)
    ensures Target(env, it, Some(Target(env, it, found))) == Target(env, it, found)
  {
    TargetIsMidway(env, it, found);
    TargetFromMidway(env, it, found, Target(env, it, found));
  }

  /** What no number of runs settles: refused by the endpoint, or overruled by a default. */
  predicate Stuck(env: Env, it: Item, p: Path) {
    p in Refused(env, it) || Defaulted(env, it, p)
  }

  /** The path is still in the mask of a run that finds the target of `found`. */
  predicate Recurs(env: Env, it: Item, found: Option<Resource>, p: Path)
    requires found.Some? ==> Fits(it, found.value)
  {
    && !it.createOnly
    && match found
       case None => Defaulted(env, it, p)
       case Some(r) => Drifts(it, r, p) && Stuck(env, it, p)
  }

  function RecursTest(env: Env, it: Item, found: Option<Resource>): Path -> bool
    requires found.Some? ==> Fits(it, found.value)
  {
    p => Recurs(env, it, found, p)
  }

  lemma TargetDrift(env: Env, it: Item, found: Option<Resource>, p: Path)
    requires Sound(it) && !it.createOnly
    requires found.Some? ==> Fits(it, found.value)
    ensures Drifts(it, Target(env, it, found), p) <==> Recurs(env, it, found, p)
  {
    match found {
      case None => InitialDrift(env, it, p);
      case Some(r) =>
        var t := Target(env, it, found);
        TargetField(env, it, r, p);
        if Drifts(it, r, p) && p !in Refused(env, it) {
          WrittenDrift(env, it, r, p);
          DriftIsLocal(it, t, Written(env, it, r), p);
        } else {
          DriftIsLocal(it, t, r, p);
        }
    }
  }

  /** At the target, what still drifts is exactly what recurs: of a resource that was found, the part
      of its drift that is refused or overruled by a default; of a new one, the defaults. */
  lemma DriftAtTarget(env: Env, it: Item, found: Option<Resource>)
    requires Sound(it) && !it.createOnly
    requires found.Some? ==> Fits(it, found.value)
    ensures Diff(it, Target(env, it, found)) == Select(PathsOf(it), RecursTest(env, it, found))
    ensures found.Some? ==>
              Diff(it, Target(env, it, found)) == Select(Diff(it, found.value), p => Stuck(env, it, p))
  {
    var t := Target(env, it, found);
    forall p
      ensures Drifts(it, t, p) <==> Recurs(env, it, found, p)
    {
      TargetDrift(env, it, found, p);
    }
    SelectCongruence(PathsOf(it), DriftTest(it, t), RecursTest(env, it, found));
    if found.Some? {
      SelectSelect(PathsOf(it), DriftTest(it, found.value), p => Stuck(env, it, p), DriftTest(it, t));
    }
  }
}
