/** Reconciling against an endpoint that fills in defaults: zero delivery attempts and zero backoffs
    come back as something else. */
module Defaulting {
  import opened Client
  import opened Resources
  import opened Algebra
  import opened Machine
  import opened Guarantees
  import opened Trace
  import opened Repetition

  // ----- stores such an endpoint can hold -----

  /** Nothing in the resource is left to fill in. */
  predicate Held(env: Env, r: Resource) {
    Stored(env, r) == r
  }

  ghost predicate HeldStore(env: Env, s: Store) {
    forall k :: Lookup(s, k).Some? ==> Held(env, Lookup(s, k).value)
  }

  lemma StoredIsHeld(env: Env, m: Resource)
    ensures Held(env, Stored(env, m))
  {
  }

  lemma ApplyKeepsHeld(env: Env, r: Resource, m: Resource, mask: seq<Path>)
    requires SameKind(r, m) && Held(env, r) && Held(env, m)
    ensures Held(env, Apply(r, m, mask))
  {
  }

  lemma AdvanceKeepsHeld(env: Env, items: seq<Item>, s: Store, run: Run, f: Fault)
    requires ProperPhase(items, run) && HeldStore(env, s)
    ensures HeldStore(env, Advance(env, items, s, run, f).0)
  {
    if Active(items, run) {
      var req := RequestOf(env, items, run);
      if !req.GetReq? {
        StoredIsHeld(env, req.message);
        if req.UpdateReq? && Lookup(s, req.key).Some? {
          ApplyKeepsHeld(env, Lookup(s, req.key).value, Stored(env, req.message), req.mask);
        }
      }
    }
  }

  /** Whatever runs are about and wherever they fail, the endpoint holds nothing it would fill in. */
  lemma {:induction false} ReachedIsHeld(
    env: Env, items: seq<Item>, origin: Store, modes: seq<bool>, schedule: seq<Event>)
    requires HeldStore(env, origin)
    ensures HeldStore(env, Reached(env, items, origin, modes, schedule).store)
  {
    if schedule != [] {
      var n := |schedule| - 1;
      ReachedIsHeld(env, items, origin, modes, schedule[..n]);
      var before := Reached(env, items, origin, modes, schedule[..n]);
      if schedule[n].who < |before.runs| {
        AdvanceKeepsHeld(env, items, before.store, before.runs[schedule[n].who], schedule[n].fault);
      }
    }
  }

  // ----- convergence -----

  /** A zero the config declares differs from anything the endpoint holds. */
  lemma ZeroDriftsFromHeld(env: Env, it: Item, r: Resource, p: Path)
    requires Fits(it, r) && Held(env, r) && Defaulted(env, it, p)
    ensures Drifts(it, r, p)
  {
  }

  /** From a store the endpoint can hold, a supported path recurs exactly where a default gets in. */
  lemma RecursIffDefaulted(env: Env, it: Item, found: Option<Resource>, p: Path)
    requires found.Some? ==> Fits(it, found.value) && Held(env, found.value)
    requires p !in Refused(env, it) && !it.createOnly
    ensures Recurs(env, it, found, p) <==> Defaulted(env, it, p)
  {
    if found.Some? && Defaulted(env, it, p) {
      ZeroDriftsFromHeld(env, it, found.value, p);
    }
  }

  /** After any number of runs, one at least, the next run sends the dead letter policy again exactly
      when the config declares zero attempts, and the retry policy exactly when it declares a zero
      backoff; each needs only its own path supported.  The store stays as the first run left it. */
  lemma ConvergesIffNonZero(
    env: Env, items: seq<Item>, origin: Store, runs: seq<seq<Fault>>, next: seq<Fault>, j: nat)
    requires WellFormed(env, items) && env.defaults.Some? && HeldStore(env, origin)
    requires runs != [] && LongEnough(items, runs) && Quiet(next) && |next| >= 11 * |items|
    requires j < |items| && items[j].SubItem? && !items[j].createOnly
    ensures
      var before := AfterRuns(env, items, origin, runs);
      var calls := SoloTrace(env, items, before, StartRun(false), next);
      var k, s := KeyOf(env, items[j]), items[j].sub;
      && Solo(env, items, before, StartRun(false), next).0 == before == TargetStore(env, items, origin)
      && (DeadLetterPath !in env.refusedSub ==> (Sends(calls, k, DeadLetterPath) <==> ZeroDeadLetter(s)))
      && (RetryPath !in env.refusedSub ==> (Sends(calls, k, RetryPath) <==> ZeroBackoff(s)))
      && (forall p :: p !in env.refusedSub && p != DeadLetterPath && p != RetryPath ==> !Sends(calls, k, p))
  {
    AfterRunsIsTarget(env, items, origin, runs);
    SecondRunIsIdle(env, items, origin, next);
    var found := Lookup(origin, KeyOf(env, items[j]));
    forall p | p !in env.refusedSub
      ensures Recurs(env, items[j], found, p) <==> Defaulted(env, items[j], p)
    {
      RecursIffDefaulted(env, items[j], found, p);
    }
  }

  /** The condition on the store is needed: a zero that was stored all the same is what the config
      asks for, and no run sends it. */
  lemma StoredZeroIsLeftAlone(env: Env, it: Item)
    requires Sound(it) && it.SubItem? && env.defaults.Some? && ZeroDeadLetter(it.sub)
    ensures !Held(env, Created(env, it))
    ensures !Recurs(env, it, Some(Created(env, it)), DeadLetterPath)
  {
    CreatedHasNoDrift(env, it);
  }
}
