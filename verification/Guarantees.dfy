/** The safety results over whole runs: any number of rotations, any interleaving of the
    four controllers, the kubelet and the environment, with a crash or an early return
    between any two reads or writes.
 */
module Guarantees {
  import opened Names
  import opened Cluster
  import opened Confirmation
  import opened Protection
  import opened Cleanup
  import opened Rotation

  lemma Reachable(s: State, actions: seq<Action>)
    requires Initial(s) && Careful(s, actions)
    ensures var end := Run(s, actions); SafetyInv(end) && Truthful(end) && OwnershipInv(end) && RotationInv(end)
  {
    SafetyInvInitial(s);
    CarefulIsHonest(s, actions);
    SafetyInvRun(s, actions);
    RotationInvReachable(s, actions);
  }

  /** Protection. While Heat is live, whatever is rendered, published or running refers only to
      transport and notification secrets that carry the consumer finalizer, and no child
      spec names an unprotected credential secret. */
  lemma {:induction false} SecretsInUseAreProtected(s: State, actions: seq<Action>)
    requires Initial(s) && Careful(s, actions)
    ensures Live(Run(s, actions)) ==> Protected(Run(s, actions))
  {
    Reachable(s, actions);
  }

  /** What protection is for: the secret a pod connects with cannot disappear under it,
      neither so far nor by the next action. */
  lemma PodsKeepTheirSecrets(s: State, actions: seq<Action>, a: Action, c: Service, p: Pod)
    requires Initial(s) && Careful(s, actions)
    requires var end := Run(s, actions); Live(end) && p in end.children[c].pods
    requires a.DeleteSecret?
    ensures var after := Step(Run(s, actions), a);
            && Transport(p.config.names.transport) in after.secrets
            && (p.config.names.notification.Some? ==> Notification(p.config.names.notification.value) in after.secrets)
  {
    Reachable(s, actions);
    assert ChildProtected(Run(s, actions).secrets, Run(s, actions).children[c]);
  }

  /** Confirmation soundness. A child whose applied hash is the hash of the rendered tuple
      runs exactly that tuple in every pod. */
  lemma ConfirmationIsTrue(s: State, actions: seq<Action>, c: Service, p: Pod)
    requires Initial(s) && Careful(s, actions)
    requires var end := Run(s, actions);
             && end.config.Some? && p in end.children[c].pods
             && end.children[c].status.applied == ExpectedHash(end.config.value.names)
    ensures p.config.names == Run(s, actions).config.value.names
  {
    Reachable(s, actions);
    assert CannotMisreport(Run(s, actions).children[c], Run(s, actions).config.value.names);
  }

  /** Ready implies full rollout. When a pass marks Heat Ready, even if it fails later on, the
      rendered configuration and every pod of all three services are at that pass's names. */
  lemma ReadyMeansRolledOut(s: State, actions: seq<Action>, choice: nat)
    requires Initial(s) && Careful(s, actions)
    requires var end := Run(s, actions);
             && end.parent.Working? && end.parent.work.stage.AtPatch?
             && Step(end, ParentStep(choice)).heat.Some? && Step(end, ParentStep(choice)).heat.value.ready
    ensures var end := Run(s, actions);
            && AllConfirmed(end.parent.work)
            && end.config.Some? && end.config.value.names == NamesOf(end.parent.work)
            && forall c: Service :: Runs(end.children[c], NamesOf(end.parent.work))
  {
    Reachable(s, actions);
    forall c: Service ensures Runs(Run(s, actions).children[c], NamesOf(Run(s, actions).parent.work)) {
      MarkedReady(Run(s, actions), choice, c);
    }
    MarkedReady(Run(s, actions), choice, Engine);
  }

  lemma MarkedReady(s: State, choice: nat, c: Service)
    requires SafetyInv(s) && Truthful(s) && RotationInv(s) && s.parent.Working? && s.parent.work.stage.AtPatch?
    requires var s' := Step(s, ParentStep(choice)); s'.heat.Some? && s'.heat.value.ready
    ensures var w := s.parent.work;
            && AllConfirmed(w) && Runs(s.children[c], NamesOf(w))
            && s.config.Some? && s.config.value.names == NamesOf(w)
  {
    var w := s.parent.work;
    assert Step(s, ParentStep(choice)).heat.value.ready == w.ready;
    assert AllConfirmed(w) && c in AllServices;
    assert ServiceInv(s.children[c], w, c);
  }

  /** Deferred teardown. The notifications TransportURL is deleted only when no pod, no child
      configuration and no rendered configuration refers to a notification secret, although
      turning the bus off changes no child spec. */
  lemma BusIsDeletedOnlyWhenUnused(s: State, actions: seq<Action>, a: Action, c: Service)
    requires Initial(s) && Careful(s, actions)
    requires var end := Run(s, actions); end.notificationUrl.Url? && Step(end, a).notificationUrl.NoUrl?
    ensures var end := Run(s, actions);
            && end.config.Some? && end.config.value.names.notification.None?
            && end.children[c].own.Some? && end.children[c].own.value.names.notification.None?
            && forall p | p in end.children[c].pods :: p.config.names.notification.None?
  {
    Reachable(s, actions);
    var end := Run(s, actions);
    OnlyDeleteBusDeletes(end, a);
    UnusedAtDeleteBus(end, end.parent.work, c);
  }

  lemma UnusedAtDeleteBus(s: State, w: Work, c: Service)
    requires s.parent == Working(w) && WorkInv(s, w) && Truthful(s) && w.stage.AtDeleteBus?
    ensures w.notification.None? && s.config.Some? && s.config.value.names == NamesOf(w)
    ensures Runs(s.children[c], NamesOf(w))
  {
    AllConfirmedUsesOneTuple(s, w, c);
  }

  lemma OnlyDeleteBusDeletes(s: State, a: Action)
    requires s.notificationUrl.Url? && Step(s, a).notificationUrl.NoUrl?
    ensures s.parent.Working? && s.parent.work.stage.AtDeleteBus?
  {
    if a.ParentStep? && s.parent.Working? {
      assert Step(s, a) == AdvanceWork(s, s.parent.work, a.choice);
    }
  }

  /** The teardown repairs itself. Wherever earlier passes were interrupted, if Heat still
      tracks a notification secret when a pass with the bus off completes with everything
      confirmed, then no TransportURL, no tracked name and no finalizer is left of it. */
  lemma TeardownIsRepaired(s: State, actions: seq<Action>, w: Work)
    requires Initial(s)
    requires var end := Run(s, actions);
             && end.parent == Working(w) && w.stage == AtPatch(true) && AllConfirmed(w) && !w.bus
             && end.heat.Some? && end.heat.value.tracked.notification.Some?
    ensures var end := Step(Run(s, actions), ParentStep(0));
            && end.notificationUrl.NoUrl?
            && end.heat.Some? && end.heat.value.tracked.notification.None?
            && forall n: string :: !Holds(end.secrets, Notification(n), TransportConsumer)
  {
    ReadyPassKeepsExactlyTheCurrent(s, actions, w);
    RotationInvReachable(s, actions);
    var end := Step(Run(s, actions), ParentStep(0));
    forall n: string ensures !Holds(end.secrets, Notification(n), TransportConsumer) {
      assert Notification(n) !in Holders(end.secrets, TransportConsumer);
    }
  }
}
