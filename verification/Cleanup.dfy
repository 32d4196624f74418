/** Whole-run cleanup: no consumer finalizer outlives the Heat object.

    Both ends matter. A pass adds a consumer finalizer only after Heat's own finalizer
    was persisted, and a delete pass drops Heat's own finalizer only after both prunes
    left nothing behind.
 */
module Cleanup {
  import opened Names
  import opened Cluster

  predicate Clean(secrets: SecretStore) {
    Holders(secrets, TransportConsumer) == {} && Holders(secrets, CredentialConsumer) == {}
  }

  predicate Guarded(s: State) {
    s.heat.Some? && s.heat.value.finalizer
  }

  predicate OwnershipInv(s: State) {
    && (!Guarded(s) ==> Clean(s.secrets))
    && (s.heat.Some? && s.heat.value.deleting ==> s.heat.value.finalizer)
    && match s.parent
       case Resting => true
       case Adopting => true
       case Working(_) => Guarded(s)
       case ReleasingCredentials(_, _) => Guarded(s) && s.heat.value.deleting
       case ReleasingTransports(_) => Guarded(s) && s.heat.value.deleting
       case PurgingTransports => Guarded(s) && s.heat.value.deleting
       case PurgingCredentials =>
         Guarded(s) && s.heat.value.deleting && Holders(s.secrets, TransportConsumer) == {}
       case Departing => Guarded(s) && s.heat.value.deleting && Clean(s.secrets)
  }

  lemma RemovalShrinksHolders(secrets: SecretStore, n: SecretName, f: Finalizer, g: Finalizer)
    ensures Holders(RemoveFinalizer(secrets, n, f), g) == Holders(secrets, g) - (if f == g then {n} else {})
  {
  }

  lemma OwnershipInvParent(s: State, choice: nat)
    requires OwnershipInv(s)
    ensures OwnershipInv(Advance(s, choice))
  {
    if s.parent.Working? {
      OwnershipInvWork(s, s.parent.work, choice);
    }
  }

  lemma OwnershipInvWork(s: State, w: Work, choice: nat)
    requires OwnershipInv(s) && s.parent == Working(w)
    ensures OwnershipInv(AdvanceWork(s, w, choice))
  {
    var s' := AdvanceWork(s, w, choice);
    assert s'.parent.Working? || s'.parent.Resting?;
    assert s'.heat.Some? && s'.heat.value.finalizer && s'.heat.value.deleting == s.heat.value.deleting;
  }

  lemma OwnershipInvEnvironment(s: State, a: Action)
    requires OwnershipInv(s) && !a.ParentStep? && !a.PruneOne?
    ensures OwnershipInv(Step(s, a))
  {
    var s' := Step(s, a);
    assert forall f :: Holders(s'.secrets, f) == Holders(s.secrets, f);
  }

  lemma OwnershipInvStep(s: State, a: Action)
    requires OwnershipInv(s)
    ensures OwnershipInv(Step(s, a))
  {
    match a
    case PruneOne(n) =>
      RemovalShrinksHolders(s.secrets, n, TransportConsumer, TransportConsumer);
      RemovalShrinksHolders(s.secrets, n, CredentialConsumer, TransportConsumer);
      RemovalShrinksHolders(s.secrets, n, CredentialConsumer, CredentialConsumer);
    case ParentStep(choice) => OwnershipInvParent(s, choice);
    case _ => OwnershipInvEnvironment(s, a);
  }

  lemma {:induction false} OwnershipInvRun(s: State, actions: seq<Action>)
    requires OwnershipInv(s)
    ensures OwnershipInv(Run(s, actions))
    decreases |actions|
  {
    if actions != [] {
      OwnershipInvStep(s, actions[0]);
      OwnershipInvRun(Step(s, actions[0]), actions[1..]);
    }
  }

  /** In every run, interrupted anywhere, once the Heat object is gone no secret in the
      namespace carries a consumer finalizer. */
  lemma NoFinalizerOutlivesHeat(s: State, actions: seq<Action>)
    requires Initial(s)
    ensures var end := Run(s, actions);
            end.heat.None? ==> Clean(end.secrets)
  {
    OwnershipInvRun(s, actions);
  }

  /** The other half of the ordering: a secret carries a consumer finalizer only while Heat
      exists and its own finalizer is persisted, so a deletion cannot skip the delete pass. */
  lemma ConsumerFinalizersNeedHeatsOwn(s: State, actions: seq<Action>, n: SecretName, f: Finalizer)
    requires Initial(s)
    requires Holds(Run(s, actions).secrets, n, f)
    ensures Run(s, actions).heat.Some? && Run(s, actions).heat.value.finalizer
  {
    OwnershipInvRun(s, actions);
    assert n in Holders(Run(s, actions).secrets, f);
  }
}
