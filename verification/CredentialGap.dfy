/** Application credentials of running pods.

    For credentials the code writes the configuration before it adds the finalizer, the
    opposite order from transports. Between the two, and after a crash there, the rendered
    configuration names a secret that nothing protects. Pods are affected exactly through
    the children that copy the configuration while that gap is open.
 */
module CredentialGap {
  import opened Names
  import opened Cluster
  import opened Confirmation
  import opened Protection
  import opened Cleanup
  import opened Rotation

  predicate ChildCredentialsHeld(secrets: SecretStore, ch: Child) {
    && (ch.own.Some? ==> CredentialHeld(secrets, ch.own.value.names.credential))
    && (ch.pass.Copied? ==> CredentialHeld(secrets, ch.pass.copy.names.credential))
    && forall p | p in ch.pods :: CredentialHeld(secrets, p.config.names.credential)
  }

  /** Every credential a child carries or a pod runs with has the finalizer. */
  predicate CredentialsHeld(s: State) {
    forall c: Service :: ChildCredentialsHeld(s.secrets, s.children[c])
  }

  predicate GapOpen(s: State) {
    s.config.Some? && !CredentialHeld(s.secrets, s.config.value.names.credential)
  }

  /** The child is about to copy the rendered configuration. */
  predicate CopiesConfig(s: State, a: Action) {
    a.ChildStep? && s.children[a.service].pass.Hashed? && s.config.Some?
  }

  /** While Heat is live, no child copies the configuration in the gap. */
  predicate NoCopyInTheGap(s: State, actions: seq<Action>)
    decreases |actions|
  {
    actions != [] ==>
      && (Live(s) && CopiesConfig(s, actions[0]) ==> !GapOpen(s))
      && NoCopyInTheGap(Step(s, actions[0]), actions[1..])
  }

  /** Every credential in use is held at every live point of the run. */
  predicate HeldWhileLive(s: State, actions: seq<Action>)
    decreases |actions|
  {
    && (Live(s) ==> CredentialsHeld(s))
    && (actions != [] ==> HeldWhileLive(Step(s, actions[0]), actions[1..]))
  }

  lemma CopyInTheGap(s: State, a: Action)
    requires CopiesConfig(s, a) && GapOpen(s)
    ensures !CredentialsHeld(Step(s, a))
  {
    var s' := Step(s, a);
    assert s'.children[a.service].pass == Copied(s.children[a.service].pass.seen, s.children[a.service].pass.parent,
                                                 s.config.value);
    assert !ChildCredentialsHeld(s'.secrets, s'.children[a.service]);
  }

  lemma ChildKeepsCredentials(ch: Child, a: Action, config: Option<Config>, secrets: SecretStore)
    requires IsChildAction(a) && ChildCredentialsHeld(secrets, ch)
    requires a.ChildStep? && ch.pass.Hashed? && config.Some? ==> CredentialHeld(secrets, config.value.names.credential)
    ensures ChildCredentialsHeld(secrets, StepChild(ch, a, config, secrets))
  {
  }

  lemma CredentialsGrow(s: State, s': State)
    requires CredentialsHeld(s) && Grown(s.secrets, s'.secrets)
    requires forall c: Service :: s'.children[c].own == s.children[c].own && s'.children[c].pass == s.children[c].pass
                                  && s'.children[c].pods == s.children[c].pods
    ensures CredentialsHeld(s')
  {
    forall c: Service ensures ChildCredentialsHeld(s'.secrets, s'.children[c]) {
      assert ChildCredentialsHeld(s.secrets, s.children[c]);
    }
  }

  lemma ConfirmedCredentialIsKept(s: State, w: Work, n: SecretName, f: Finalizer)
    requires WorkInv(s, w) && s.parent == Working(w) && Truthful(s) && Rank(w.stage) >= 10 && AllConfirmed(w)
    requires f == CredentialConsumer ==> n !in CurrentCredentials(w)
    ensures CredentialsHeld(s.(secrets := RemoveFinalizer(s.secrets, n, f)))
  {
    forall c: Service ensures Runs(s.children[c], NamesOf(w)) {
      AllConfirmedUsesOneTuple(s, w, c);
    }
  }

  /** A parent action either adds or keeps finalizers, or releases one superseded secret. */
  lemma ParentActionShape(s: State, a: Action)
    requires !IsChildAction(a)
    ensures var s' := Step(s, a);
            forall c: Service :: s'.children[c].own == s.children[c].own && s'.children[c].pass == s.children[c].pass
                                 && s'.children[c].pods == s.children[c].pods
  {
    if a.ParentStep? && s.parent.Working? && !s.parent.work.stage.AtPublish? {
      assert AdvanceWork(s, s.parent.work, a.choice).children == s.children;
    }
  }

  lemma ReleaseIsOneSecret(s: State, w: Work, a: Action)
    requires s.parent == Working(w) && WorkInv(s, w) && (a.ParentStep? || a.PruneOne?)
    ensures Grown(s.secrets, Step(s, a).secrets)
            || (Rank(w.stage) >= 10 && AllConfirmed(w)
                && exists n, f :: Step(s, a).secrets == RemoveFinalizer(s.secrets, n, f)
                                  && (f == CredentialConsumer ==> n !in CurrentCredentials(w)))
  {
    hide WorkInv;
    if a.PruneOne? {
      assert Step(s, a).secrets == s.secrets
             || Step(s, a).secrets == RemoveFinalizer(s.secrets, a.name, TransportConsumer)
             || Step(s, a).secrets == RemoveFinalizer(s.secrets, a.name, CredentialConsumer);
    } else {
      WorkReleasesOneSecret(s, w, a.choice);
    }
  }

  lemma WorkReleasesOneSecret(s: State, w: Work, choice: nat)
    requires s.parent == Working(w) && WorkInv(s, w)
    ensures var secrets := AdvanceWork(s, w, choice).secrets;
            || Grown(s.secrets, secrets)
            || (Rank(w.stage) >= 10 && AllConfirmed(w)
                && exists n, f :: secrets == RemoveFinalizer(s.secrets, n, f)
                                  && (f == CredentialConsumer ==> n !in CurrentCredentials(w)))
  {
    var secrets := AdvanceWork(s, w, choice).secrets;
    if w.stage.AtFinalizeCredential? || w.stage.AtFinalizeTransport? || w.stage.AtFinalizeNotification? {
      RotationReleasesOneSecret(s, w, choice);
    } else {
      OtherStagesGrow(s, w, choice);
    }
  }

  lemma OtherStagesGrow(s: State, w: Work, choice: nat)
    requires s.parent == Working(w)
    requires !w.stage.AtFinalizeCredential? && !w.stage.AtFinalizeTransport? && !w.stage.AtFinalizeNotification?
    ensures Grown(s.secrets, AdvanceWork(s, w, choice).secrets)
  {
  }

  lemma RotationReleasesOneSecret(s: State, w: Work, choice: nat)
    requires s.parent == Working(w) && WorkInv(s, w)
    requires w.stage.AtFinalizeCredential? || w.stage.AtFinalizeTransport? || w.stage.AtFinalizeNotification?
    ensures var secrets := AdvanceWork(s, w, choice).secrets;
            || Grown(s.secrets, secrets)
            || (AllConfirmed(w) && exists n, f :: secrets == RemoveFinalizer(s.secrets, n, f)
                                                  && (f == CredentialConsumer ==> n !in CurrentCredentials(w)))
  {
    var secrets := AdvanceWork(s, w, choice).secrets;
    if w.stage.AtFinalizeCredential? {
      assert secrets == s.secrets
             || secrets == RemoveFinalizer(s.secrets, Credential(w.tracked.credential.value), CredentialConsumer);
    } else if w.stage.AtFinalizeTransport? {
      assert secrets == s.secrets
             || secrets == RemoveFinalizer(s.secrets, Transport(w.tracked.transport.value), TransportConsumer);
    } else {
      assert secrets == s.secrets
             || secrets == RemoveFinalizer(s.secrets, Notification(w.tracked.notification.value), TransportConsumer);
    }
  }

  lemma CredentialsHeldStep(s: State, a: Action)
    requires SafetyInv(s) && OwnershipInv(s) && Truthful(s) && (Live(s) ==> CredentialsHeld(s))
    requires Live(s) && CopiesConfig(s, a) ==> !GapOpen(s)
    ensures Live(Step(s, a)) ==> CredentialsHeld(Step(s, a))
  {
    var s' := Step(s, a);
    if Live(s') {
      if IsChildAction(a) {
        ChildActionIsLocal(s, a);
        ChildKeepsCredentials(s.children[a.service], a, s.config, s.secrets);
      } else {
        LiveBefore(s, a);
        ParentActionShape(s, a);
        if s.parent.Working? && (a.ParentStep? || a.PruneOne?) {
          ReleaseIsOneSecret(s, s.parent.work, a);
          if !Grown(s.secrets, s'.secrets) {
            var n, f :| s'.secrets == RemoveFinalizer(s.secrets, n, f)
                        && (f == CredentialConsumer ==> n !in CurrentCredentials(s.parent.work));
            ConfirmedCredentialIsKept(s, s.parent.work, n, f);
            CredentialsGrow(s.(secrets := s'.secrets), s');
          } else {
            CredentialsGrow(s, s');
          }
        } else {
          CredentialsGrow(s, s');
        }
      }
    }
  }

  /** Nothing becomes live again, and outside a running pass a live Heat loses no finalizer. */
  lemma LiveBefore(s: State, a: Action)
    requires OwnershipInv(s) && Live(Step(s, a)) && !IsChildAction(a)
    ensures Live(s)
    ensures !(s.parent.Working? && (a.ParentStep? || a.PruneOne?)) ==> Grown(s.secrets, Step(s, a).secrets)
  {
  }

  lemma CarefulStep(s: State, a: Action)
    requires SafetyInv(s) && OwnershipInv(s) && Truthful(s) && CarefulAction(s, a)
    ensures var s' := Step(s, a); SafetyInv(s') && OwnershipInv(s') && Truthful(s')
  {
    TruthfulIsHonest(s, a);
    TruthfulStep(s, a);
    SafetyInvStep(s, a);
    OwnershipInvStep(s, a);
  }

  /** One action keeps everything held, while Heat is live, unless it is a copy in the gap. */
  lemma HeldStepIff(s: State, a: Action)
    requires SafetyInv(s) && OwnershipInv(s) && Truthful(s) && (Live(s) ==> CredentialsHeld(s))
    ensures (Live(Step(s, a)) ==> CredentialsHeld(Step(s, a))) <==> !(Live(s) && CopiesConfig(s, a) && GapOpen(s))
  {
    if Live(s) && CopiesConfig(s, a) && GapOpen(s) {
      CopyInTheGap(s, a);
    } else {
      CredentialsHeldStep(s, a);
    }
  }

  lemma {:induction false} HeldWhileLiveFrom(s: State, actions: seq<Action>)
    requires SafetyInv(s) && OwnershipInv(s) && Truthful(s) && (Live(s) ==> CredentialsHeld(s)) && Careful(s, actions)
    ensures HeldWhileLive(s, actions) <==> NoCopyInTheGap(s, actions)
    decreases |actions|
  {
    if actions != [] {
      var a := actions[0];
      HeldStepIff(s, a);
      if !(Live(s) && CopiesConfig(s, a) && GapOpen(s)) {
        CarefulStep(s, a);
        HeldWhileLiveFrom(Step(s, a), actions[1..]);
      }
    }
  }

  /** Over runs, exactly: in a careful run everything a live Heat's children carry and run with
      is protected all along if and only if no child copies the configuration in the gap. */
  lemma CredentialsAreHeldIff(s: State, actions: seq<Action>)
    requires Initial(s) && Careful(s, actions)
    ensures HeldWhileLive(s, actions) <==> NoCopyInTheGap(s, actions)
  {
    SafetyInvInitial(s);
    forall c: Service ensures ChildCredentialsHeld(s.secrets, s.children[c]) {
      assert s.children[c] == NewChild();
    }
    HeldWhileLiveFrom(s, actions);
  }

  lemma {:induction false} HeldAtTheEnd(s: State, actions: seq<Action>)
    requires HeldWhileLive(s, actions)
    ensures Live(Run(s, actions)) ==> CredentialsHeld(Run(s, actions))
    decreases |actions|
  {
    if actions != [] {
      HeldAtTheEnd(Step(s, actions[0]), actions[1..]);
    }
  }

  /** In particular, every credential a pod of a live Heat runs with carries the finalizer. */
  lemma PodCredentialsAreHeld(s: State, actions: seq<Action>, c: Service, p: Pod)
    requires Initial(s) && Careful(s, actions) && NoCopyInTheGap(s, actions)
    requires Live(Run(s, actions)) && p in Run(s, actions).children[c].pods
    ensures CredentialsHeld(Run(s, actions)) && CredentialHeld(Run(s, actions).secrets, p.config.names.credential)
  {
    CredentialsAreHeldIff(s, actions);
    HeldAtTheEnd(s, actions);
    assert ChildCredentialsHeld(Run(s, actions).secrets, Run(s, actions).children[c]);
  }

  // ---------------------------------------------------------------- what pods come to run

  predicate ChildActions(actions: seq<Action>) {
    forall i | 0 <= i < |actions| :: IsChildAction(actions[i])
  }

  /** The child and the kubelet can bring about a copy: a pass is on its way to one, or the child
      is published and a new pass finds its transport secret. */
  predicate MayCopy(secrets: SecretStore, ch: Child) {
    || ch.pass.Hashed?
    || (ch.pass.Observed? && Transport(ch.pass.seen.transport) in secrets)
    || (ch.spec.Some? && Transport(ch.spec.value.transport) in secrets)
  }

  /** Child and kubelet actions end with a pod of c on a credential that nothing protects. */
  predicate EndsExposed(s: State, actions: seq<Action>, c: Service) {
    var end := Run(s, actions);
    && ChildActions(actions)
    && exists p | p in end.children[c].pods :: !CredentialHeld(end.secrets, p.config.names.credential)
  }

  lemma NoCopyStep(ch: Child, a: Action, config: Option<Config>, secrets: SecretStore)
    requires IsChildAction(a) && !MayCopy(secrets, ch)
    ensures !MayCopy(secrets, StepChild(ch, a, config, secrets))
  {
  }

  lemma {:induction false} StaysHeld(s: State, actions: seq<Action>, c: Service)
    requires ChildActions(actions) && ChildCredentialsHeld(s.secrets, s.children[c])
    requires !GapOpen(s) || !MayCopy(s.secrets, s.children[c])
    ensures Run(s, actions).secrets == s.secrets && ChildCredentialsHeld(s.secrets, Run(s, actions).children[c])
    decreases |actions|
  {
    if actions != [] {
      var a, ch := actions[0], s.children[c];
      assert IsChildAction(a);
      ChildActionIsLocal(s, a);
      if a.service == c {
        ChildKeepsCredentials(ch, a, s.config, s.secrets);
        if !MayCopy(s.secrets, ch) {
          NoCopyStep(ch, a, s.config, s.secrets);
        }
      }
      StaysHeld(Step(s, a), actions[1..], c);
    }
  }

  /** The first action followed by a run that ends exposed. */
  lemma Prepend(s: State, a: Action, rest: seq<Action>, c: Service)
    requires IsChildAction(a) && EndsExposed(Step(s, a), rest, c)
    ensures EndsExposed(s, [a] + rest, c)
  {
    assert ([a] + rest)[0] == a && ([a] + rest)[1..] == rest;
    assert Run(s, [a] + rest) == Run(Step(s, a), rest);
  }

  /** Copy, write, deploy, start a pod. */
  lemma {:induction false} CopyEndsInAPod(s: State, c: Service) returns (actions: seq<Action>)
    requires s.children[c].pass.Copied? && !CredentialHeld(s.secrets, s.children[c].pass.copy.names.credential)
    ensures EndsExposed(s, actions, c)
  {
    var ch := s.children[c];
    var h := InputHash(ch.pass.parent, ch.pass.copy, ch.pass.seen.transport, 0);
    var s1, s2 := Step(s, ChildStep(c, 0)), Step(Step(s, ChildStep(c, 0)), ChildStep(c, 0));
    assert s1.children[c] == ch.(own := Some(ch.pass.copy), pass := Rendered(ch.pass.seen, h));
    assert s2.children[c] == s1.children[c].(template := Some(h), pass := Deployed(ch.pass.seen, h));
    var s3 := Step(s2, StartPod(c, h));
    assert Pod(h, ch.pass.copy) in s3.children[c].pods;
    assert Run(s3, []) == s3;
    assert EndsExposed(s3, [], c);
    Prepend(s2, StartPod(c, h), [], c);
    Prepend(s1, ChildStep(c, 0), [StartPod(c, h)] + [], c);
    Prepend(s, ChildStep(c, 0), [ChildStep(c, 0)] + ([StartPod(c, h)] + []), c);
    actions := [ChildStep(c, 0)] + ([ChildStep(c, 0)] + ([StartPod(c, h)] + []));
  }

  /** One step of a pass that is on its way to a copy, or the copy itself. */
  lemma {:induction false} GapEndsInAPod(s: State, c: Service) returns (actions: seq<Action>)
    requires GapOpen(s) && (s.children[c].pass.Hashed?
                            || (s.children[c].pass.Observed?
                                && Transport(s.children[c].pass.seen.transport) in s.secrets))
    ensures EndsExposed(s, actions, c)
    decreases if s.children[c].pass.Hashed? then 0 else 1
  {
    var s' := Step(s, ChildStep(c, 0));
    var rest;
    if s.children[c].pass.Hashed? {
      rest := CopyEndsInAPod(s', c);
    } else {
      rest := GapEndsInAPod(s', c);
    }
    Prepend(s, ChildStep(c, 0), rest, c);
    actions := [ChildStep(c, 0)] + rest;
  }

  /** A new pass of an idle, published child, and before it the one that adds its finalizer. */
  lemma {:induction false} NewPassEndsInAPod(s: State, c: Service) returns (actions: seq<Action>)
    requires GapOpen(s) && s.children[c].pass.Idle?
    requires s.children[c].spec.Some? && Transport(s.children[c].spec.value.transport) in s.secrets
    ensures EndsExposed(s, actions, c)
    decreases if s.children[c].finalizer then 0 else 1
  {
    var s1 := Step(s, ChildBegin(c));
    var rest;
    if s.children[c].finalizer {
      rest := GapEndsInAPod(s1, c);
    } else {
      var joined := NewPassEndsInAPod(Step(s1, ChildStep(c, 0)), c);
      Prepend(s1, ChildStep(c, 0), joined, c);
      rest := [ChildStep(c, 0)] + joined;
    }
    Prepend(s, ChildBegin(c), rest, c);
    actions := [ChildBegin(c)] + rest;
  }

  lemma OpenGapExposesAPod(s: State, c: Service) returns (actions: seq<Action>)
    requires GapOpen(s) && MayCopy(s.secrets, s.children[c])
    ensures EndsExposed(s, actions, c)
  {
    var pass := s.children[c].pass;
    if pass.Hashed? || (pass.Observed? && Transport(pass.seen.transport) in s.secrets) {
      actions := GapEndsInAPod(s, c);
    } else {
      var rest := NewPassEndsInAPod(Step(s, ChildCrash(c)), c);
      Prepend(s, ChildCrash(c), rest, c);
      actions := [ChildCrash(c)] + rest;
    }
  }

  /** What pods come to run, exactly: from any state in which everything carried is held, no
      continuation of child and kubelet actions ends with a pod of c on an unprotected credential
      if and only if the gap is closed or c cannot come to copy the configuration. */
  lemma PodsStayProtectedIff(s: State, c: Service)
    requires CredentialsHeld(s)
    ensures (forall actions :: !EndsExposed(s, actions, c)) <==> !GapOpen(s) || !MayCopy(s.secrets, s.children[c])
  {
    if GapOpen(s) && MayCopy(s.secrets, s.children[c]) {
      var actions := OpenGapExposesAPod(s, c);
      assert EndsExposed(s, actions, c);
    } else {
      forall actions ensures !EndsExposed(s, actions, c) {
        if ChildActions(actions) {
          StaysHeld(s, actions, c);
        }
      }
    }
  }

  /** The gap has one cause: a configuration that names a credential before it is protected.
      No release ever opens it. */
  lemma OnlyTheConfigWriteOpensTheGap(s: State, a: Action)
    requires SafetyInv(s) && OwnershipInv(s) && Live(Step(s, a))
    requires !GapOpen(s) && GapOpen(Step(s, a))
    ensures a.ParentStep? && s.parent.Working? && s.parent.work.stage.AtConfig?
  {
    hide ChildrenInv, ChildProtected, AdvanceWork;
    var s' := Step(s, a);
    if IsChildAction(a) {
      ChildActionIsLocal(s, a);
    } else {
      LiveBefore(s, a);
      if s.parent.Working? && (a.ParentStep? || a.PruneOne?) {
        if !s.parent.work.stage.AtConfig? || a.PruneOne? {
          ConfigIsWrittenOnce(s, s.parent.work, a);
          ReleaseIsOneSecret(s, s.parent.work, a);
        }
      }
    }
  }

  lemma ConfigIsWrittenOnce(s: State, w: Work, a: Action)
    requires s.parent == Working(w) && !(a.ParentStep? && w.stage.AtConfig?) && (a.ParentStep? || a.PruneOne?)
    ensures Step(s, a).config == s.config
  {
  }
}
