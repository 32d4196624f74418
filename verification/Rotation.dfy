/** What one pass of a live Heat does to finalizers and tracked names, in every run.

    Nothing here needs a hypothesis on how names rotate.
 */
module Rotation {
  import opened Names
  import opened Cluster
  import opened Cleanup
  import opened Protection

  /** A tracked name stays, unless every service is confirmed; then it may become the current one. */
  predicate Follows(before: Option<string>, now: Option<string>, current: Option<string>, ready: bool) {
    before.Some? ==> now == before || (ready && now == current)
  }

  predicate TrackedInv(before: Tracked, w: Work) {
    var r, ready := Rank(w.stage), AllConfirmed(w);
    && Follows(before.transport, w.tracked.transport, Some(w.transport), ready)
    && Follows(before.notification, w.tracked.notification, w.notification, ready)
    && Follows(before.credential, w.tracked.credential, w.credential, ready)
    && (1 <= r <= 13 && before.notification.Some? ==> w.tracked.notification == before.notification)
    && (r >= 2 ==> w.tracked.transport.Some?)
    && (r >= 4 && w.notification.Some? ==> w.tracked.notification.Some?)
    && (r == 1 ==> w.tracked == before)
    && (1 <= r <= 3 ==> w.tracked.notification == before.notification)
    && (1 <= r <= 10 ==> w.tracked.credential == before.credential)
    && (r >= 2 && before.transport.None? ==> w.tracked.transport == Some(w.transport))
    && (r >= 4 && before.notification.None? ==> w.tracked.notification == w.notification)
    && (r >= 11 && before.credential.None? ==> w.tracked.credential == w.credential)
    && (ready && r >= 11 ==> w.tracked.credential == w.credential)
    && (ready && r >= 12 ==> w.tracked.transport == Some(w.transport))
    && (ready && r >= 14 ==> w.tracked.notification == w.notification)
  }

  predicate PassInv(s: State, before: Tracked, w: Work) {
    var r, ready := Rank(w.stage), AllConfirmed(w);
    && Held(s.secrets, w)
    && TrackedInv(before, w)
    && (w.notification.Some? ==> w.bus) && (w.bus && r >= 4 ==> w.notification.Some?)
    && (r >= 2 ==> s.transportUrl.Url?) && (w.notification.Some? ==> s.notificationUrl.Url?)
    && (forall c: Service | c in w.confirmed :: r > 0 ==> r > PublishRank(c))
    && (w.ready ==> ready) && (ready && r >= 11 ==> w.ready)
    && (ready && r >= 14 && w.notification.None? && before.notification.Some? ==> s.notificationUrl.NoUrl?)
    && (ready && r >= 15 ==> Holders(s.secrets, TransportConsumer) <= KeptTransports(w))
    && (ready && r >= 16 ==> Holders(s.secrets, CredentialConsumer) <= KeptCredentials(w))
  }

  predicate RotationInv(s: State) {
    s.parent.Working? ==> s.heat.Some? && PassInv(s, s.heat.value.tracked, s.parent.work)
  }

  // ---------------------------------------------------------------- preservation

  lemma NotConfirmedEarly(s: State, before: Tracked, w: Work)
    requires PassInv(s, before, w) && 1 <= Rank(w.stage) <= 9
    ensures !AllConfirmed(w)
  {
    assert AllConfirmed(w) ==> CfnApi in w.confirmed;
  }

  lemma PassInvRead(s: State, before: Tracked, w: Work)
    requires PassInv(s, before, w) && (w.stage.AtTransport? || w.stage.AtNotification?)
    ensures w.stage.AtTransport? ==> PassInv(ReadTransport(s, w), before, ReadTransport(s, w).parent.work)
    ensures w.stage.AtNotification? ==> PassInv(ReadNotification(s, w), before, ReadNotification(s, w).parent.work)
  {
    NotConfirmedEarly(s, before, w);
  }

  lemma PassInvProtect(s: State, before: Tracked, w: Work, n: SecretName, f: Finalizer, next: Stage)
    requires PassInv(s, before, w) && NextProtected(w, n, f, next)
    ensures PassInv(Protect(s, w, n, f, next), before, Protect(s, w, n, f, next).parent.work)
  {
    NotConfirmedEarly(s, before, w);
    if n in s.secrets {
      ProtectGrows(s.secrets, n, f);
    }
  }

  lemma PassInvPublish(s: State, before: Tracked, w: Work, c: Service, other: nat)
    requires PassInv(s, before, w) && w.stage == AtPublish(c)
    ensures PassInv(Publish(s, w, c, other), before, Publish(s, w, c, other).parent.work)
  {
    NotConfirmedEarly(s, before, w);
  }

  /** A rotation touches only a superseded name of its own kind. */
  lemma PassInvFinalizeCredential(s: State, before: Tracked, w: Work, choice: nat)
    requires PassInv(s, before, w) && w.stage.AtFinalizeCredential?
    ensures PassInv(AdvanceWork(s, w, choice), before, AdvanceWork(s, w, choice).parent.work)
  {
  }

  lemma PassInvFinalizeTransport(s: State, before: Tracked, w: Work, choice: nat)
    requires PassInv(s, before, w) && w.stage.AtFinalizeTransport?
    ensures PassInv(AdvanceWork(s, w, choice), before, AdvanceWork(s, w, choice).parent.work)
  {
  }

  lemma PassInvFinalizeNotification(s: State, before: Tracked, w: Work)
    requires PassInv(s, before, w) && w.stage.AtFinalizeNotification?
    ensures PassInv(FinalizeNotification(s, w), before, FinalizeNotification(s, w).parent.work)
  {
  }

  lemma PassInvTail(s: State, before: Tracked, w: Work, choice: nat)
    requires s.parent == Working(w) && PassInv(s, before, w)
             && (w.stage.AtDeleteBus? || w.stage.AtPruneTransports? || w.stage.AtPruneCredentials?)
    ensures PassInv(AdvanceWork(s, w, choice), before, AdvanceWork(s, w, choice).parent.work)
  {
    hide AddFinalizer;
  }

  lemma PassInvPrune(s: State, before: Tracked, w: Work, n: SecretName)
    requires s.parent == Working(w) && PassInv(s, before, w)
    ensures PassInv(Prune(s, n), before, w)
  {
    var f := if w.stage.AtPruneTransports? then TransportConsumer else CredentialConsumer;
    RemovalShrinksHolders(s.secrets, n, f, TransportConsumer);
    RemovalShrinksHolders(s.secrets, n, f, CredentialConsumer);
  }

  lemma PassInvConfig(s: State, before: Tracked, w: Work, choice: nat)
    requires PassInv(s, before, w)
    requires w.stage.AtConfig? || (w.stage.AtProtectCredential? && w.credential.None?)
    ensures PassInv(AdvanceWork(s, w, choice), before, AdvanceWork(s, w, choice).parent.work)
  {
    NotConfirmedEarly(s, before, w);
  }

  lemma RotationInvUpToPublish(s: State, w: Work, choice: nat)
    requires RotationInv(s) && s.parent == Working(w) && 1 <= Rank(w.stage) <= 9
    ensures RotationInv(AdvanceWork(s, w, choice))
  {
    var before := s.heat.value.tracked;
    match w.stage
    case AtTransport => PassInvRead(s, before, w);
    case AtProtectTransport => PassInvProtect(s, before, w, Transport(w.transport), TransportConsumer, AtNotification);
    case AtNotification => PassInvRead(s, before, w);
    case AtProtectNotification =>
      PassInvProtect(s, before, w, Notification(w.notification.value), TransportConsumer, AtConfig);
    case AtConfig => PassInvConfig(s, before, w, choice);
    case AtProtectCredential =>
      if w.credential.Some? {
        PassInvProtect(s, before, w, Credential(w.credential.value), CredentialConsumer, AtPublish(Engine));
      } else {
        PassInvConfig(s, before, w, choice);
      }
    case AtPublish(c) => PassInvPublish(s, before, w, c, choice);
  }

  lemma RotationInvWork(s: State, w: Work, choice: nat)
    requires RotationInv(s) && s.parent == Working(w)
    ensures RotationInv(AdvanceWork(s, w, choice))
  {
    var before := s.heat.value.tracked;
    match w.stage
    case AtFinalizeCredential => PassInvFinalizeCredential(s, before, w, choice);
    case AtFinalizeTransport => PassInvFinalizeTransport(s, before, w, choice);
    case AtFinalizeNotification => PassInvFinalizeNotification(s, before, w);
    case AtPatch(_) =>
    case AtDeleteBus => PassInvTail(s, before, w, choice);
    case AtPruneTransports => PassInvTail(s, before, w, choice);
    case AtPruneCredentials => PassInvTail(s, before, w, choice);
    case _ => RotationInvUpToPublish(s, w, choice);
  }

  /** The environment, the children and the kubelet move nothing that the invariant speaks of. */
  predicate SameHolders(s: State, s': State) {
    && s'.parent == s.parent && (s.heat.Some? && s'.heat.Some? ==> s'.heat.value.tracked == s.heat.value.tracked)
    && (forall f :: Holders(s'.secrets, f) == Holders(s.secrets, f))
    && (s.notificationUrl.NoUrl? <==> s'.notificationUrl.NoUrl?) && (s.transportUrl.NoUrl? <==> s'.transportUrl.NoUrl?)
  }

  lemma EnvironmentReleasesNothing(s: State, a: Action)
    requires !a.ParentBegin? && !a.ParentStep? && !a.PruneOne? && !a.ParentStop? && !a.ParentCrash?
    ensures SameHolders(s, Step(s, a))
  {
  }

  lemma RotationInvEnvironment(s: State, a: Action)
    requires RotationInv(s) && OwnershipInv(s)
    requires !a.ParentBegin? && !a.ParentStep? && !a.PruneOne? && !a.ParentStop? && !a.ParentCrash?
    ensures RotationInv(Step(s, a))
  {
    EnvironmentReleasesNothing(s, a);
    OwnershipInvEnvironment(s, a);
    hide Step, TrackedInv;
    var s' := Step(s, a);
    assert forall n, f :: Holds(s'.secrets, n, f) <==> n in Holders(s'.secrets, f);
  }

  lemma RotationInvBegin(s: State)
    requires RotationInv(s)
    ensures RotationInv(Begin(s))
  {
  }

  lemma RotationInvHalt(s: State)
    requires RotationInv(s)
    ensures RotationInv(Halt(s))
  {
  }

  lemma RotationInvStep(s: State, a: Action)
    requires RotationInv(s) && OwnershipInv(s)
    ensures RotationInv(Step(s, a))
  {
    hide PassInv, OwnershipInv;
    match a
    case ParentBegin => RotationInvBegin(s);
    case ParentStep(choice) =>
      if s.parent.Working? {
        RotationInvWork(s, s.parent.work, choice);
      }
    case PruneOne(n) =>
      if s.parent.Working? {
        PassInvPrune(s, s.heat.value.tracked, s.parent.work, n);
      }
    case ParentStop => RotationInvHalt(s);
    case ParentCrash =>
    case _ => RotationInvEnvironment(s, a);
  }

  lemma {:induction false} RotationInvRun(s: State, actions: seq<Action>)
    requires RotationInv(s) && OwnershipInv(s)
    ensures RotationInv(Run(s, actions)) && OwnershipInv(Run(s, actions))
    decreases |actions|
  {
    if actions != [] {
      RotationInvStep(s, actions[0]);
      OwnershipInvStep(s, actions[0]);
      RotationInvRun(Step(s, actions[0]), actions[1..]);
    }
  }

  // ---------------------------------------------------------------- the results

  lemma RotationInvReachable(s: State, actions: seq<Action>)
    requires Initial(s)
    ensures RotationInv(Run(s, actions)) && OwnershipInv(Run(s, actions))
  {
    SafetyInvInitial(s);
    RotationInvRun(s, actions);
  }

  function CurrentTransports(w: Work): set<SecretName> {
    {Transport(w.transport)} + (if w.notification.Some? then {Notification(w.notification.value)} else {})
  }

  function CurrentCredentials(w: Work): set<SecretName> {
    if w.credential.Some? then {Credential(w.credential.value)} else {}
  }

  lemma PatchOfAReadyPass(s: State, w: Work)
    requires RotationInv(s) && s.parent == Working(w) && w.stage == AtPatch(true) && AllConfirmed(w)
    ensures Holders(s.secrets, TransportConsumer) == CurrentTransports(w)
    ensures Holders(s.secrets, CredentialConsumer) == CurrentCredentials(w)
    ensures s.heat.Some? && w.ready && w.tracked == Tracked(Some(w.transport), w.notification, w.credential)
  {
  }

  /** No leak. However many secrets were superseded on the way, and wherever earlier passes
      were interrupted, a completed pass that found every service confirmed leaves the
      finalizers on exactly the current secrets and tracks exactly those. */
  lemma ReadyPassKeepsExactlyTheCurrent(s: State, actions: seq<Action>, w: Work)
    requires Initial(s)
    requires Run(s, actions).parent == Working(w) && w.stage == AtPatch(true) && AllConfirmed(w)
    ensures var end := Step(Run(s, actions), ParentStep(0));
            && Holders(end.secrets, TransportConsumer) == CurrentTransports(w)
            && Holders(end.secrets, CredentialConsumer) == CurrentCredentials(w)
            && end.heat.Some? && end.heat.value.ready
            && end.heat.value.tracked == Tracked(Some(w.transport), w.notification, w.credential)
  {
    RotationInvReachable(s, actions);
    PatchOfAReadyPass(Run(s, actions), w);
  }

  /** A name is the current one if nothing was tracked before, and otherwise it is the earlier or the current one. */
  predicate Continues(before: Option<string>, now: Option<string>, current: Option<string>) {
    if before.None? then now == current else now == before || now == current
  }

  /** Nothing in use goes untracked. After any run, a completed pass tracks its transport secret, and
      its notification and credential secrets if it has them, confirmed or not: at once if nothing of
      the kind was tracked before, and otherwise the earlier name stays until it is superseded. */
  lemma CompletedPassTracks(s: State, actions: seq<Action>, w: Work)
    requires Initial(s)
    requires Run(s, actions).parent == Working(w) && w.stage == AtPatch(true)
    ensures var mid := Run(s, actions);
            var end := Step(mid, ParentStep(0));
            && mid.heat.Some? && end.heat.Some?
            && var before, now := mid.heat.value.tracked, end.heat.value.tracked;
               && Continues(before.transport, now.transport, Some(w.transport))
               && Continues(before.notification, now.notification, w.notification)
               && Continues(before.credential, now.credential, w.credential)
               && now.transport.Some?
               && (w.notification.Some? ==> now.notification.Some?)
               && (w.credential.Some? ==> now.credential.Some?)
  {
    RotationInvReachable(s, actions);
  }

  /** Monotone holding. Whatever action takes a consumer finalizer away belongs to a delete
      pass, or to a pass in which all three services are confirmed and the secret is not
      one of that pass's current ones. */
  lemma ReleaseNeedsEveryConfirmation(s: State, a: Action, n: SecretName, f: Finalizer)
    requires Holds(s.secrets, n, f) && !Holds(Step(s, a).secrets, n, f)
    requires RotationInv(s)
    ensures s.parent.ReleasingCredentials? || s.parent.ReleasingTransports? || s.parent.PurgingTransports?
            || s.parent.PurgingCredentials?
            || (s.parent.Working? && AllConfirmed(s.parent.work) && Rank(s.parent.work.stage) >= 10
                && (f == TransportConsumer ==> n !in CurrentTransports(s.parent.work))
                && (f == CredentialConsumer ==> n !in CurrentCredentials(s.parent.work)))
  {
    if a.ParentStep? && s.parent.Working? {
      WorkReleases(s, s.parent.work, a.choice, n, f);
    } else if !a.ParentStep? {
      OnlyStepsAndPrunesRelease(s, a, n, f);
    }
  }

  lemma OnlyStepsAndPrunesRelease(s: State, a: Action, n: SecretName, f: Finalizer)
    requires Holds(s.secrets, n, f) && !a.ParentStep?
    ensures (a.PruneOne? && a.name == n) || Holds(Step(s, a).secrets, n, f)
  {
  }

  lemma WorkReleases(s: State, w: Work, choice: nat, n: SecretName, f: Finalizer)
    requires s.parent == Working(w) && Held(s.secrets, w)
    requires Holds(s.secrets, n, f) && !Holds(AdvanceWork(s, w, choice).secrets, n, f)
    ensures AllConfirmed(w) && Rank(w.stage) >= 10
    ensures f == TransportConsumer ==> n !in CurrentTransports(w)
    ensures f == CredentialConsumer ==> n !in CurrentCredentials(w)
  {
  }

  /** A service counts as confirmed only if, when it was published, it had observed its
      latest generation, had applied the hash of this pass's names, and was itself Ready. */
  lemma ConfirmedMeansObservedAppliedReady(s: State, a: Action, c: Service)
    requires Step(s, a).parent.Working? && c in Step(s, a).parent.work.confirmed
    requires !s.parent.Working? || c !in s.parent.work.confirmed
    ensures var end := Step(s, a);
            var ch, w := end.children[c], end.parent.work;
            && s.parent.Working? && s.parent.work.stage == AtPublish(c)
            && ch.spec.Some? && ch.spec.value.transport == w.transport && ch.spec.value.credential == w.credential
            && ch.status.observed == ch.generation && ch.status.applied == ExpectedHash(NamesOf(w)) && ch.status.ready
  {
    if a.ParentStep? && s.parent.Working? {
      OnlyPublishingConfirms(s, s.parent.work, a.choice);
    } else {
      OnlyWorkConfirms(s, a);
    }
  }

  lemma OnlyWorkConfirms(s: State, a: Action)
    requires !(a.ParentStep? && s.parent.Working?)
    ensures Step(s, a).parent.Working? && Step(s, a).parent.work.confirmed != {} ==>
              s.parent.Working? && s.parent.work.confirmed == Step(s, a).parent.work.confirmed
  {
  }

  lemma OnlyPublishingConfirms(s: State, w: Work, choice: nat)
    requires s.parent == Working(w)
    ensures var s' := AdvanceWork(s, w, choice);
            s'.parent.Working? && !w.stage.AtPublish? ==> s'.parent.work.confirmed == w.confirmed
    ensures w.stage.AtPublish? ==> AdvanceWork(s, w, choice) == Publish(s, w, w.stage.service, choice)
  {
    hide AddFinalizer, RemoveFinalizer, PublishChild;
    if w.stage.AtTransport? || w.stage.AtNotification? {
      ReadsConfirmNothing(s, w);
    }
  }

  lemma ReadsConfirmNothing(s: State, w: Work)
    requires s.parent == Working(w)
    ensures ReadTransport(s, w).parent.work.confirmed == w.confirmed
    ensures ReadNotification(s, w).parent.work.confirmed == w.confirmed
  {
  }

  predicate TrackedMoved(before: Option<string>, now: Option<string>) {
    before.Some? && now != before
  }

  /** A tracked name that is set moves only when a pass with all three confirmed is patched,
      and then to that pass's current name. */
  lemma TrackedNamesMoveOnConfirmation(s: State, actions: seq<Action>, a: Action)
    requires Initial(s)
    requires Run(s, actions).heat.Some? && Step(Run(s, actions), a).heat.Some?
    ensures var mid := Run(s, actions);
            var before, now := mid.heat.value.tracked, Step(mid, a).heat.value.tracked;
            TrackedMoved(before.transport, now.transport) || TrackedMoved(before.notification, now.notification)
            || TrackedMoved(before.credential, now.credential) ==>
              && mid.parent.Working? && mid.parent.work.stage.AtPatch? && AllConfirmed(mid.parent.work)
              && (TrackedMoved(before.transport, now.transport) ==> now.transport == Some(mid.parent.work.transport))
              && (TrackedMoved(before.notification, now.notification)
                  ==> now.notification == mid.parent.work.notification)
              && (TrackedMoved(before.credential, now.credential) ==> now.credential == mid.parent.work.credential)
  {
    RotationInvReachable(s, actions);
    OnlyThePatchMovesTracked(Run(s, actions), a);
  }

  lemma OnlyThePatchMovesTracked(s: State, a: Action)
    requires s.heat.Some? && Step(s, a).heat.Some?
    ensures Step(s, a).heat.value.tracked
            == if a.ParentStep? && s.parent.Working? && s.parent.work.stage.AtPatch? then s.parent.work.tracked
               else s.heat.value.tracked
  {
    if a.ParentStep? && s.parent.Working? {
      assert Step(s, a) == AdvanceWork(s, s.parent.work, a.choice);
    }
  }
}
