/** Protection: while Heat is live, every transport and notification secret that the
    rendered configuration, a child spec, a child's own configuration or a running pod
    refers to carries the consumer finalizer, at every crash point of every run.
 */
module Protection {
  import opened Names
  import opened Cluster
  import opened Confirmation
  import opened Cleanup

  predicate TransportsHeld(secrets: SecretStore, k: Names) {
    && Holds(secrets, Transport(k.transport), TransportConsumer)
    && (k.notification.Some? ==> Holds(secrets, Notification(k.notification.value), TransportConsumer))
  }

  predicate CredentialHeld(secrets: SecretStore, credential: Option<string>) {
    credential.Some? ==> Holds(secrets, Credential(credential.value), CredentialConsumer)
  }

  predicate ChildProtected(secrets: SecretStore, ch: Child) {
    && (ch.spec.Some? ==> Holds(secrets, Transport(ch.spec.value.transport), TransportConsumer))
    && (ch.spec.Some? ==> CredentialHeld(secrets, ch.spec.value.credential))
    && (ch.own.Some? ==> TransportsHeld(secrets, ch.own.value.names))
    && (ch.pass.Copied? ==> TransportsHeld(secrets, ch.pass.copy.names))
    && forall p | p in ch.pods :: TransportsHeld(secrets, p.config.names)
  }

  predicate Protected(s: State) {
    && (s.config.Some? ==> TransportsHeld(s.secrets, s.config.value.names))
    && forall c: Service :: ChildProtected(s.secrets, s.children[c])
  }

  /** Deletion has not started, or a pass that began before it is still running. */
  predicate Live(s: State) {
    s.heat.Some? && (!s.heat.value.deleting || s.parent.Working?)
  }

  /** How far a pass got; 0 once it is returning early. */
  function Rank(stage: Stage): nat {
    match stage
    case AtPatch(completed) => if completed then 16 else 0
    case AtTransport => 1
    case AtProtectTransport => 2
    case AtNotification => 3
    case AtProtectNotification => 4
    case AtConfig => 5
    case AtProtectCredential => 6
    case AtPublish(c) => PublishRank(c)
    case AtFinalizeCredential => 10
    case AtFinalizeTransport => 11
    case AtFinalizeNotification => 12
    case AtDeleteBus => 13
    case AtPruneTransports => 14
    case AtPruneCredentials => 15
  }

  function PublishRank(c: Service): nat {
    match c case Engine => 7 case Api => 8 case CfnApi => 9
  }

  /** The child object is what this pass published. */
  predicate Published(ch: Child, w: Work) {
    && ch.spec.Some? && ch.spec.value.transport == w.transport && ch.spec.value.credential == w.credential
    && ch.annotation == ExpectedHash(NamesOf(w))
  }

  /** The finalizers a pass has added by the time it reaches a stage. */
  predicate Held(secrets: SecretStore, w: Work) {
    var r := Rank(w.stage);
    && (r >= 3 ==> Holds(secrets, Transport(w.transport), TransportConsumer))
    && (1 <= r <= 3 ==> w.notification.None?)
    && (r == 4 ==> w.notification.Some?)
    && (r >= 5 && w.notification.Some? ==> Holds(secrets, Notification(w.notification.value), TransportConsumer))
    && (r >= 7 ==> CredentialHeld(secrets, w.credential))
    && (r == 13 ==> w.notification.None? && AllConfirmed(w))
  }

  predicate NamesWithin(config: Names, k: Names) {
    config.transport == k.transport && (config.notification.Some? ==> config.notification == k.notification)
  }

  /** Whatever the child carries or runs needs only the transport and notification secrets of K. */
  predicate Within(ch: Child, k: Names) {
    && (ch.own.Some? ==> NamesWithin(ch.own.value.names, k))
    && (ch.pass.Copied? ==> NamesWithin(ch.pass.copy.names, k))
    && forall p | p in ch.pods :: NamesWithin(p.config.names, k)
  }

  predicate WorkInv(s: State, w: Work) {
    && Held(s.secrets, w)
    && (Rank(w.stage) >= 6 || w.confirmed != {} ==> s.config.Some? && s.config.value.names == NamesOf(w))
    && forall c: Service :: ServiceInv(s.children[c], w, c)
  }

  /** A service is published once its stage is past; a confirmed one needs only this pass's names. */
  predicate ServiceInv(ch: Child, w: Work, c: Service) {
    var r := Rank(w.stage);
    && (r > PublishRank(c) ==> Published(ch, w))
    && (c in w.confirmed ==> (r == 0 || r > PublishRank(c)) && Within(ch, NamesOf(w)))
  }

  predicate SafetyInv(s: State) {
    && (forall c: Service :: ChildInv(s.children[c]))
    && (s.parent.Working? ==> WorkInv(s, s.parent.work))
    && (Live(s) ==> Protected(s))
  }

  // ---------------------------------------------------------------- honest runs

  /** A child that is counted as confirmed needs only the secrets of the pass that counts it. */
  predicate HonestAction(s: State, a: Action) {
    a.ParentStep? && s.parent.Working? && s.parent.work.stage.AtPublish? ==>
      HonestPublish(s, s.parent.work, s.parent.work.stage.service, a.choice)
  }

  predicate HonestPublish(s: State, w: Work, c: Service, other: nat) {
    Confirms(PublishChild(s.children[c], w, other), ExpectedHash(NamesOf(w))) ==> Within(s.children[c], NamesOf(w))
  }

  /** No confirmation counted in the run is wrong in a way that could cost a finalizer. */
  predicate Honest(s: State, actions: seq<Action>)
    decreases |actions|
  {
    actions != [] ==> HonestAction(s, actions[0]) && Honest(Step(s, actions[0]), actions[1..])
  }

  // ---------------------------------------------------------------- preservation

  /** When all three are confirmed nothing needs a secret of any other tuple. */
  lemma AllConfirmedUsesOneTuple(s: State, w: Work, c: Service)
    requires WorkInv(s, w) && AllConfirmed(w) && Rank(w.stage) >= 10
    ensures c in w.confirmed && Within(s.children[c], NamesOf(w)) && Published(s.children[c], w)
    ensures s.config.Some? && s.config.value.names == NamesOf(w)
  {
    assert c in AllServices;
  }

  lemma ReleaseKeepsWorkAndUse(s: State, w: Work, n: SecretName, f: Finalizer)
    requires WorkInv(s, w) && Rank(w.stage) >= 10 && AllConfirmed(w)
    requires f == TransportConsumer ==> n != Transport(w.transport)
    requires f == TransportConsumer ==> w.notification.Some? ==> n != Notification(w.notification.value)
    requires f == CredentialConsumer ==> w.credential.Some? ==> n != Credential(w.credential.value)
    ensures var s' := s.(secrets := RemoveFinalizer(s.secrets, n, f)); WorkInv(s', w) && Protected(s')
  {
    forall c: Service ensures Within(s.children[c], NamesOf(w)) && Published(s.children[c], w) {
      AllConfirmedUsesOneTuple(s, w, c);
    }
  }

  /** Every finalizer is still where it was. */
  ghost predicate Grown(secrets: SecretStore, secrets': SecretStore) {
    forall n, f :: Holds(secrets, n, f) ==> Holds(secrets', n, f)
  }

  lemma ProtectionGrows(s: State, s': State)
    requires Grown(s.secrets, s'.secrets) && s'.children == s.children && s'.config == s.config && Protected(s)
    ensures Protected(s')
  {
    forall c: Service ensures ChildProtected(s'.secrets, s'.children[c]) {
      assert ChildProtected(s.secrets, s.children[c]);
    }
  }

  lemma WorkInvGrows(s: State, s': State, w: Work)
    requires Grown(s.secrets, s'.secrets) && s'.children == s.children && s'.config == s.config && WorkInv(s, w)
    ensures WorkInv(s', w)
  {
  }

  lemma ProtectionStep(ch: Child, a: Action, config: Option<Config>, secrets: SecretStore)
    requires IsChildAction(a) && ChildInv(ch)
    requires ChildProtected(secrets, ch) && (config.Some? ==> TransportsHeld(secrets, config.value.names))
    ensures ChildProtected(secrets, StepChild(ch, a, config, secrets))
  {
  }

  lemma WithinStep(ch: Child, a: Action, config: Config, secrets: SecretStore)
    requires IsChildAction(a) && ChildInv(ch) && Within(ch, config.names)
    ensures Within(StepChild(ch, a, Some(config), secrets), config.names)
  {
  }

  lemma PublishedStep(ch: Child, a: Action, config: Option<Config>, secrets: SecretStore, w: Work)
    requires IsChildAction(a) && Published(ch, w)
    ensures Published(StepChild(ch, a, config, secrets), w)
  {
  }

  lemma ServiceInvStep(ch: Child, a: Action, config: Option<Config>, secrets: SecretStore, w: Work, c: Service)
    requires IsChildAction(a) && ChildInv(ch) && ServiceInv(ch, w, c)
    requires Rank(w.stage) >= 6 || w.confirmed != {} ==> config.Some? && config.value.names == NamesOf(w)
    ensures ServiceInv(StepChild(ch, a, config, secrets), w, c)
  {
    if Rank(w.stage) > PublishRank(c) {
      PublishedStep(ch, a, config, secrets, w);
    }
    if c in w.confirmed {
      WithinStep(ch, a, config.value, secrets);
    }
  }

  lemma SafetyInvChildAction(s: State, a: Action)
    requires SafetyInv(s) && IsChildAction(a)
    ensures SafetyInv(Step(s, a))
  {
    ChildActionIsLocal(s, a);
    var c0, ch := a.service, StepChild(s.children[a.service], a, s.config, s.secrets);
    ChildInvStep(s.children[c0], a, s.config, s.secrets);
    if s.parent.Working? {
      ServiceInvStep(s.children[c0], a, s.config, s.secrets, s.parent.work, c0);
    }
    if Live(s) {
      ProtectionStep(s.children[c0], a, s.config, s.secrets);
    }
    SafetyInvOneChild(s, c0, ch);
  }

  lemma SafetyInvOneChild(s: State, c0: Service, ch: Child)
    requires SafetyInv(s) && ChildInv(ch)
    requires s.parent.Working? ==> ServiceInv(ch, s.parent.work, c0)
    requires Live(s) ==> ChildProtected(s.secrets, ch)
    ensures SafetyInv(s.(children := s.children[c0 := ch]))
  {
  }

  lemma SafetyInvEnvironment(s: State, a: Action)
    requires SafetyInv(s)
    requires a.CreateSecret? || a.DeleteSecret? || a.SetTransport? || a.SetNotification? || a.SetCredential?
             || a.SetBus?
             || a.RequestDelete?
    ensures SafetyInv(Step(s, a))
  {
    hide WorkInv, Protected;
    var s' := Step(s, a);
    assert s'.children == s.children && s'.config == s.config && s'.parent == s.parent;
    assert Live(s') ==> Live(s);
    assert Grown(s.secrets, s'.secrets);
    if s.parent.Working? {
      WorkInvGrows(s, s', s.parent.work);
    }
    if Live(s) {
      ProtectionGrows(s, s');
    }
  }

  /** A pass of a live Heat that only reads or adds finalizers. */
  lemma SafetyInvQuietWork(s: State, s': State, w': Work)
    requires SafetyInv(s) && s.parent.Working? && s'.parent == Working(w') && s'.heat == s.heat
    requires Grown(s.secrets, s'.secrets) && s'.children == s.children && s'.config == s.config
    requires WorkInv(s', w')
    ensures SafetyInv(s')
  {
    if Live(s) {
      ProtectionGrows(s, s');
    }
  }

  lemma ProtectGrows(secrets: SecretStore, n: SecretName, f: Finalizer)
    requires n in secrets
    ensures Grown(secrets, AddFinalizer(secrets, n, f)) && Holds(AddFinalizer(secrets, n, f), n, f)
  {
  }

  lemma StoppedIsQuiet(s: State, w: Work)
    requires WorkInv(s, w)
    ensures WorkInv(s, Stopped(w))
  {
  }

  lemma SafetyInvProtect(s: State, w: Work, n: SecretName, f: Finalizer, next: Stage)
    requires SafetyInv(s) && s.parent == Working(w) && NextProtected(w, n, f, next)
    ensures SafetyInv(Protect(s, w, n, f, next))
  {
    StoppedIsQuiet(s, w);
    if n in s.secrets {
      ProtectGrows(s.secrets, n, f);
      var s' := s.(secrets := AddFinalizer(s.secrets, n, f));
      WorkInvGrows(s, s', w);
      ProtectedMovesOn(s', w, n, f, next);
      SafetyInvQuietWork(s, Protect(s, w, n, f, next), w.(stage := next));
    } else {
      SafetyInvQuietWork(s, Protect(s, w, n, f, next), Stopped(w));
    }
  }

  /** The three places where a pass adds a finalizer. */
  predicate NextProtected(w: Work, n: SecretName, f: Finalizer, next: Stage) {
    match w.stage
    case AtProtectTransport => n == Transport(w.transport) && f == TransportConsumer && next == AtNotification
    case AtProtectNotification =>
      w.notification.Some? && n == Notification(w.notification.value) && f == TransportConsumer && next == AtConfig
    case AtProtectCredential =>
      w.credential.Some? && n == Credential(w.credential.value) && f == CredentialConsumer && next == AtPublish(Engine)
    case _ => false
  }

  lemma ProtectedMovesOn(s: State, w: Work, n: SecretName, f: Finalizer, next: Stage)
    requires WorkInv(s, w) && NextProtected(w, n, f, next) && Holds(s.secrets, n, f)
    ensures WorkInv(s.(parent := Working(w.(stage := next))), w.(stage := next))
  {
    forall c: Service ensures ServiceInv(s.children[c], w.(stage := next), c) {
      assert ServiceInv(s.children[c], w, c);
    }
  }

  /** Before the first publishing no service is confirmed and none is published. */
  lemma EarlyServiceInv(s: State, w: Work, w': Work, c: Service, ch: Child)
    requires ServiceInv(s.children[c], w, c) && 1 <= Rank(w.stage) <= 7
    requires w'.confirmed == w.confirmed && Rank(w'.stage) <= 7
    ensures ServiceInv(ch, w', c)
  {
  }

  lemma EarlyWorkInv(s: State, w: Work, s': State, w': Work)
    requires WorkInv(s, w) && 1 <= Rank(w.stage) <= 6 && w'.confirmed == w.confirmed && Rank(w'.stage) <= 7
    requires Held(s'.secrets, w') && (Rank(w'.stage) >= 6 ==> s'.config.Some? && s'.config.value.names == NamesOf(w'))
    ensures WorkInv(s', w')
  {
    forall c: Service ensures ServiceInv(s'.children[c], w', c) && c !in w'.confirmed {
      assert ServiceInv(s.children[c], w, c);
      EarlyServiceInv(s, w, w', c, s'.children[c]);
    }
    assert w'.confirmed == {};
  }

  lemma ReadTransportWorkInv(s: State, w: Work)
    requires WorkInv(s, w) && w.stage.AtTransport?
    ensures var s' := ReadTransport(s, w);
            && s'.parent.Working? && WorkInv(s', s'.parent.work)
            && s'.(transportUrl := s.transportUrl, parent := s.parent) == s
  {
    EarlyWorkInv(s, w, ReadTransport(s, w), ReadTransport(s, w).parent.work);
  }

  lemma ReadNotificationWorkInv(s: State, w: Work)
    requires WorkInv(s, w) && w.stage.AtNotification?
    ensures var s' := ReadNotification(s, w);
            && s'.parent.Working? && WorkInv(s', s'.parent.work)
            && s'.(notificationUrl := s.notificationUrl, parent := s.parent) == s
  {
    EarlyWorkInv(s, w, ReadNotification(s, w), ReadNotification(s, w).parent.work);
  }

  lemma SafetyInvRead(s: State, w: Work, s': State)
    requires SafetyInv(s) && s.parent == Working(w)
    requires (w.stage.AtTransport? && s' == ReadTransport(s, w))
             || (w.stage.AtNotification? && s' == ReadNotification(s, w))
    ensures SafetyInv(s')
  {
    if w.stage.AtTransport? {
      ReadTransportWorkInv(s, w);
    } else {
      ReadNotificationWorkInv(s, w);
    }
    SafetyInvQuietWork(s, s', s'.parent.work);
  }

  lemma SafetyInvConfig(s: State, w: Work, choice: nat)
    requires SafetyInv(s) && s.parent == Working(w) && w.stage.AtConfig?
    ensures SafetyInv(AdvanceWork(s, w, choice))
  {
    var s' := AdvanceWork(s, w, choice);
    assert WorkInv(s', s'.parent.work);
    assert Protected(s) ==> Protected(s');
  }

  lemma OtherServiceInv(ch: Child, w: Work, c0: Service, c: Service, w': Work)
    requires ServiceInv(ch, w, c) && w.stage == AtPublish(c0) && c != c0
    requires w'.stage == AfterPublish(c0) && NamesOf(w') == NamesOf(w)
    requires c in w'.confirmed ==> c in w.confirmed
    ensures ServiceInv(ch, w', c)
  {
  }

  lemma ThisServiceInv(ch: Child, w: Work, c0: Service, other: nat, w': Work)
    requires ServiceInv(ch, w, c0) && w.stage == AtPublish(c0)
    requires Confirms(PublishChild(ch, w, other), ExpectedHash(NamesOf(w))) ==> Within(ch, NamesOf(w))
    requires w'.stage == AfterPublish(c0) && NamesOf(w') == NamesOf(w)
    requires c0 in w'.confirmed ==>
               c0 in w.confirmed || Confirms(PublishChild(ch, w, other), ExpectedHash(NamesOf(w)))
    ensures ServiceInv(PublishChild(ch, w, other), w', c0)
  {
  }

  lemma PublishedServiceInv(s: State, w: Work, c0: Service, other: nat, c: Service)
    requires WorkInv(s, w) && w.stage == AtPublish(c0) && HonestPublish(s, w, c0, other)
    ensures var s' := Publish(s, w, c0, other); ServiceInv(s'.children[c], s'.parent.work, c)
  {
    var w' := Publish(s, w, c0, other).parent.work;
    assert ServiceInv(s.children[c], w, c);
    if c == c0 {
      ThisServiceInv(s.children[c], w, c0, other, w');
    } else {
      OtherServiceInv(s.children[c], w, c0, c, w');
    }
  }

  lemma PublishedWorkInv(s: State, w: Work, c0: Service, other: nat)
    requires WorkInv(s, w) && w.stage == AtPublish(c0) && HonestPublish(s, w, c0, other)
    ensures var s' := Publish(s, w, c0, other); WorkInv(s', s'.parent.work)
  {
    var s' := Publish(s, w, c0, other);
    forall c: Service ensures ServiceInv(s'.children[c], s'.parent.work, c) {
      PublishedServiceInv(s, w, c0, other, c);
    }
  }

  lemma SafetyInvPublish(s: State, w: Work, c0: Service, other: nat)
    requires SafetyInv(s) && s.parent == Working(w) && w.stage == AtPublish(c0) && HonestPublish(s, w, c0, other)
    ensures SafetyInv(Publish(s, w, c0, other))
  {
    var s', ch := Publish(s, w, c0, other), PublishChild(s.children[c0], w, other);
    PublishedWorkInv(s, w, c0, other);
    PublishKeepsSoundness(s.children[c0], w, other, NamesOf(w));
    if Live(s) {
      assert ChildProtected(s.secrets, s.children[c0]);
      assert ChildProtected(s.secrets, ch);
    }
    SafetyInvOneChildAndWork(s, c0, ch, s'.parent.work);
  }

  lemma SafetyInvOneChildAndWork(s: State, c0: Service, ch: Child, w: Work)
    requires SafetyInv(s) && s.parent.Working?
    requires ChildInv(ch)
    requires Live(s) ==> ChildProtected(s.secrets, ch)
    requires var s' := s.(children := s.children[c0 := ch], parent := Working(w)); WorkInv(s', w)
    ensures SafetyInv(s.(children := s.children[c0 := ch], parent := Working(w)))
  {
  }

  lemma SafetyInvRelease(s: State, w: Work, n: SecretName, f: Finalizer, w': Work)
    requires SafetyInv(s) && s.parent == Working(w) && Rank(w.stage) >= 10 && AllConfirmed(w)
    requires f == TransportConsumer ==> n != Transport(w.transport)
    requires f == TransportConsumer ==> w.notification.Some? ==> n != Notification(w.notification.value)
    requires f == CredentialConsumer ==> w.credential.Some? ==> n != Credential(w.credential.value)
    requires SameTail(w, w')
    ensures SafetyInv(s.(secrets := RemoveFinalizer(s.secrets, n, f), parent := Working(w')))
  {
    ReleaseKeepsWorkAndUse(s, w, n, f);
    var s1 := s.(secrets := RemoveFinalizer(s.secrets, n, f));
    TailKeepsWorkInv(s1, w, w');
    var s2 := s1.(parent := Working(w'));
    assert Protected(s2);
  }

  /** From the first rotation on, the stages only move forward over the same names. */
  predicate SameTail(w: Work, w': Work) {
    && Rank(w.stage) >= 10 && Rank(w'.stage) >= 10
    && NamesOf(w') == NamesOf(w) && w'.confirmed == w.confirmed
    && (w'.stage.AtDeleteBus? ==> w.notification.None? && AllConfirmed(w))
  }

  lemma TailKeepsWorkInv(s: State, w: Work, w': Work)
    requires WorkInv(s, w) && SameTail(w, w')
    ensures WorkInv(s, w')
  {
  }

  lemma SafetyInvNoRelease(s: State, s': State, w: Work, w': Work)
    requires SafetyInv(s) && s.parent == Working(w) && SameTail(w, w')
    requires s'.parent == Working(w') && s'.heat == s.heat && s'.secrets == s.secrets
    requires s'.children == s.children && s'.config == s.config
    ensures SafetyInv(s')
  {
    WorkInvGrows(s, s', w);
    TailKeepsWorkInv(s', w, w');
    SafetyInvQuietWork(s, s', w');
  }

  /** `FinalizeSecretRotation` releases at most the tracked name, and only a superseded one. */
  lemma SafetyInvRotation(s: State, w: Work, w': Work, previous: Option<string>, current: Option<string>,
                          kind: string -> SecretName, f: Finalizer)
    requires SafetyInv(s) && s.parent == Working(w) && SameTail(w, w')
    requires previous.Some? && previous != current && AllConfirmed(w) ==>
               && (f == TransportConsumer ==> kind(previous.value) != Transport(w.transport))
               && (f == TransportConsumer ==> w.notification.Some? ==>
                     kind(previous.value) != Notification(w.notification.value))
               && (f == CredentialConsumer ==> w.credential.Some? ==>
                     kind(previous.value) != Credential(w.credential.value))
    ensures var secrets := FinalizeRotation(s.secrets, previous, current, kind, f, AllConfirmed(w)).0;
            SafetyInv(s.(secrets := secrets, parent := Working(w')))
  {
    if previous.Some? && previous != current && AllConfirmed(w) {
      SafetyInvRelease(s, w, kind(previous.value), f, w');
    } else {
      SafetyInvNoRelease(s, s.(parent := Working(w')), w, w');
    }
  }

  lemma SafetyInvFinalizeNotification(s: State, w: Work)
    requires SafetyInv(s) && s.parent == Working(w) && w.stage.AtFinalizeNotification?
    ensures SafetyInv(FinalizeNotification(s, w))
  {
    if w.notification.Some? {
      var name := FinalizeRotation(s.secrets, w.tracked.notification, w.notification,
                                   x => Notification(x), TransportConsumer, AllConfirmed(w)).1;
      SafetyInvRotation(s, w, w.(tracked := w.tracked.(notification := name), stage := AtPruneTransports),
                        w.tracked.notification, w.notification, x => Notification(x), TransportConsumer);
    } else {
      SafetyInvBusOff(s, w);
    }
  }

  lemma SafetyInvBusOff(s: State, w: Work)
    requires SafetyInv(s) && s.parent == Working(w) && w.stage.AtFinalizeNotification? && w.notification.None?
    ensures SafetyInv(FinalizeNotification(s, w))
  {
    if w.tracked.notification.Some? && AllConfirmed(w) {
      SafetyInvRelease(s, w, Notification(w.tracked.notification.value), TransportConsumer, w.(stage := AtDeleteBus));
    } else {
      SafetyInvNoRelease(s, FinalizeNotification(s, w), w, w.(stage := AtPruneTransports));
    }
  }

  lemma SafetyInvFinalizeCredential(s: State, w: Work, choice: nat)
    requires SafetyInv(s) && s.parent == Working(w) && w.stage.AtFinalizeCredential?
    ensures SafetyInv(AdvanceWork(s, w, choice))
  {
    SafetyInvRotation(s, w, AdvanceWork(s, w, choice).parent.work,
                      w.tracked.credential, w.credential, x => Credential(x), CredentialConsumer);
  }

  lemma SafetyInvFinalizeTransport(s: State, w: Work, choice: nat)
    requires SafetyInv(s) && s.parent == Working(w) && w.stage.AtFinalizeTransport?
    ensures SafetyInv(AdvanceWork(s, w, choice))
  {
    SafetyInvRotation(s, w, AdvanceWork(s, w, choice).parent.work,
                      w.tracked.transport, Some(w.transport), x => Transport(x), TransportConsumer);
  }

  lemma SafetyInvDeleteBus(s: State, w: Work, choice: nat)
    requires SafetyInv(s) && s.parent == Working(w) && w.stage.AtDeleteBus?
    ensures SafetyInv(AdvanceWork(s, w, choice))
  {
    var w' := w.(tracked := w.tracked.(notification := None), stage := AtPruneTransports);
    SafetyInvNoRelease(s, s.(notificationUrl := NoUrl, parent := Working(w')), w, w');
  }

  lemma SafetyInvPruned(s: State, w: Work, next: Stage)
    requires SafetyInv(s) && s.parent == Working(w)
    requires (w.stage.AtPruneTransports? && next.AtPruneCredentials?)
             || (w.stage.AtPruneCredentials? && next == AtPatch(true))
    ensures SafetyInv(s.(parent := Working(w.(stage := next))))
  {
    SafetyInvNoRelease(s, s.(parent := Working(w.(stage := next))), w, w.(stage := next));
  }

  lemma SafetyInvPrune(s: State, w: Work, n: SecretName)
    requires SafetyInv(s) && s.parent == Working(w)
    ensures SafetyInv(Prune(s, n))
  {
    if w.stage.AtPruneTransports? && n in StrayTransports(s.secrets, w) {
      SafetyInvRelease(s, w, n, TransportConsumer, w);
    } else if w.stage.AtPruneCredentials? && n in StrayCredentials(s.secrets, w) {
      SafetyInvRelease(s, w, n, CredentialConsumer, w);
    }
  }

  lemma SafetyInvPatch(s: State, w: Work, choice: nat)
    requires SafetyInv(s) && s.parent == Working(w) && w.stage.AtPatch?
    ensures SafetyInv(AdvanceWork(s, w, choice))
  {
    var s' := AdvanceWork(s, w, choice);
    assert s'.children == s.children && s'.config == s.config && s'.secrets == s.secrets && !s'.parent.Working?;
    if Live(s) {
      ProtectionGrows(s, s');
    }
  }

  lemma SafetyInvNoCredential(s: State, w: Work, choice: nat)
    requires SafetyInv(s) && s.parent == Working(w) && w.stage.AtProtectCredential? && w.credential.None?
    ensures SafetyInv(AdvanceWork(s, w, choice))
  {
    var s' := AdvanceWork(s, w, choice);
    var w' := s'.parent.work;
    forall c: Service ensures ServiceInv(s'.children[c], w', c) {
      assert ServiceInv(s.children[c], w, c);
    }
    SafetyInvQuietWork(s, s', w');
  }

  lemma SafetyInvUpToConfig(s: State, w: Work, choice: nat)
    requires SafetyInv(s) && s.parent == Working(w) && 1 <= Rank(w.stage) <= 6
    ensures SafetyInv(AdvanceWork(s, w, choice))
  {
    match w.stage
    case AtTransport => SafetyInvRead(s, w, ReadTransport(s, w));
    case AtProtectTransport => SafetyInvProtect(s, w, Transport(w.transport), TransportConsumer, AtNotification);
    case AtNotification => SafetyInvRead(s, w, ReadNotification(s, w));
    case AtProtectNotification =>
      SafetyInvProtect(s, w, Notification(w.notification.value), TransportConsumer, AtConfig);
    case AtConfig => SafetyInvConfig(s, w, choice);
    case AtProtectCredential =>
      if w.credential.Some? {
        SafetyInvProtect(s, w, Credential(w.credential.value), CredentialConsumer, AtPublish(Engine));
      } else {
        SafetyInvNoCredential(s, w, choice);
      }
  }

  lemma SafetyInvWork(s: State, w: Work, choice: nat)
    requires SafetyInv(s) && s.parent == Working(w)
    requires w.stage.AtPublish? ==> HonestPublish(s, w, w.stage.service, choice)
    ensures SafetyInv(AdvanceWork(s, w, choice))
  {
    match w.stage
    case AtPublish(c) => SafetyInvPublish(s, w, c, choice);
    case AtFinalizeCredential => SafetyInvFinalizeCredential(s, w, choice);
    case AtFinalizeTransport => SafetyInvFinalizeTransport(s, w, choice);
    case AtFinalizeNotification => SafetyInvFinalizeNotification(s, w);
    case AtDeleteBus => SafetyInvDeleteBus(s, w, choice);
    case AtPruneTransports => SafetyInvPruned(s, w, AtPruneCredentials);
    case AtPruneCredentials => SafetyInvPruned(s, w, AtPatch(true));
    case AtPatch(_) => SafetyInvPatch(s, w, choice);
    case _ => SafetyInvUpToConfig(s, w, choice);
  }

  lemma OutsideWorkTouchesNoChild(s: State, choice: nat)
    requires !s.parent.Working?
    requires !s.parent.Resting? && !s.parent.Adopting? ==> s.heat.Some? && s.heat.value.deleting
    ensures var s' := Advance(s, choice);
            && s'.children == s.children && s'.config == s.config && !s'.parent.Working?
            && (Live(s') ==> Live(s) && s'.secrets == s.secrets)
  {
  }

  lemma SafetyInvOutsideWork(s: State, choice: nat)
    requires SafetyInv(s) && !s.parent.Working?
    requires !s.parent.Resting? && !s.parent.Adopting? ==> s.heat.Some? && s.heat.value.deleting
    ensures SafetyInv(Advance(s, choice))
  {
    OutsideWorkTouchesNoChild(s, choice);
    var s' := Advance(s, choice);
    if Live(s') {
      ProtectionGrows(s, s');
    }
  }

  lemma SafetyInvPruneOutsideWork(s: State, n: SecretName)
    requires SafetyInv(s) && !s.parent.Working?
    requires !s.parent.Resting? && !s.parent.Adopting? ==> s.heat.Some? && s.heat.value.deleting
    ensures SafetyInv(Prune(s, n))
  {
    var s' := Prune(s, n);
    assert s'.children == s.children && s'.config == s.config && s'.parent == s.parent && s'.heat == s.heat;
    if Live(s') {
      ProtectionGrows(s, s');
    }
  }

  /** Children, configuration and store are as before, and no pass of a live Heat is running. */
  lemma SafetyInvNotWorking(s: State, s': State)
    requires SafetyInv(s) && !s'.parent.Working? && s'.heat == s.heat
    requires s'.children == s.children && s'.config == s.config && s'.secrets == s.secrets
    ensures SafetyInv(s')
  {
    if Live(s') {
      ProtectionGrows(s, s');
    }
  }

  lemma SafetyInvHalt(s: State)
    requires SafetyInv(s)
    ensures SafetyInv(Halt(s))
  {
    if !s.parent.Working? {
      SafetyInvNotWorking(s, Halt(s));
    } else if !s.parent.work.stage.AtPatch? {
      StoppedIsQuiet(s, s.parent.work);
      WorkInvGrows(s, Halt(s), Stopped(s.parent.work));
      SafetyInvQuietWork(s, Halt(s), Stopped(s.parent.work));
    }
  }

  lemma SafetyInvBegin(s: State)
    requires SafetyInv(s)
    ensures SafetyInv(Begin(s))
  {
    var s' := Begin(s);
    if s'.parent.Working? && s' != s {
      var w' := s'.parent.work;
      forall c: Service ensures ServiceInv(s'.children[c], w', c) {
      }
      ProtectionGrows(s, s');
    } else if s' != s {
      SafetyInvNotWorking(s, s');
    }
  }

  lemma SafetyInvParentAction(s: State, a: Action)
    requires SafetyInv(s) && OwnershipInv(s) && HonestAction(s, a) && (a.ParentStep? || a.PruneOne?)
    ensures SafetyInv(Step(s, a))
  {
    if a.ParentStep? {
      if s.parent.Working? {
        SafetyInvWork(s, s.parent.work, a.choice);
      } else {
        SafetyInvOutsideWork(s, a.choice);
      }
    } else if s.parent.Working? {
      SafetyInvPrune(s, s.parent.work, a.name);
    } else {
      SafetyInvPruneOutsideWork(s, a.name);
    }
  }

  lemma SafetyInvStep(s: State, a: Action)
    requires SafetyInv(s) && OwnershipInv(s) && HonestAction(s, a)
    ensures SafetyInv(Step(s, a))
  {
    hide SafetyInv, OwnershipInv;
    match a
    case ParentBegin => SafetyInvBegin(s);
    case ParentStop => SafetyInvHalt(s);
    case ParentCrash => SafetyInvNotWorking(s, s.(parent := Resting));
    case ParentStep(_) => SafetyInvParentAction(s, a);
    case PruneOne(_) => SafetyInvParentAction(s, a);
    case CreateSecret(_) => SafetyInvEnvironment(s, a);
    case DeleteSecret(_) => SafetyInvEnvironment(s, a);
    case SetTransport(_) => SafetyInvEnvironment(s, a);
    case SetNotification(_) => SafetyInvEnvironment(s, a);
    case SetCredential(_) => SafetyInvEnvironment(s, a);
    case SetBus(_) => SafetyInvEnvironment(s, a);
    case RequestDelete => SafetyInvEnvironment(s, a);
    case _ => SafetyInvChildAction(s, a);
  }

  lemma SafetyInvInitial(s: State)
    requires Initial(s)
    ensures SafetyInv(s) && OwnershipInv(s) && Truthful(s)
  {
    forall c: Service ensures ChildInv(s.children[c]) && ChildProtected(s.secrets, s.children[c]) {
      assert s.children[c] == NewChild();
    }
  }

  lemma {:induction false} SafetyInvRun(s: State, actions: seq<Action>)
    requires SafetyInv(s) && OwnershipInv(s) && Honest(s, actions)
    ensures SafetyInv(Run(s, actions)) && OwnershipInv(Run(s, actions))
    decreases |actions|
  {
    if actions != [] {
      SafetyInvStep(s, actions[0]);
      OwnershipInvStep(s, actions[0]);
      SafetyInvRun(Step(s, actions[0]), actions[1..]);
    }
  }

  // ---------------------------------------------------------------- careful runs

  predicate ChildrenInv(children: Children, config: Option<Config>) {
    forall c: Service :: ChildInv(children[c]) && (config.Some? ==> CannotMisreport(children[c], config.value.names))
  }

  /** No child can misreport what is rendered, and a confirmed one runs it. */
  predicate Truthful(s: State) {
    && ChildrenInv(s.children, s.config)
    && (s.parent.Working? ==>
          forall c: Service :: c in s.parent.work.confirmed ==> Runs(s.children[c], NamesOf(s.parent.work)))
  }

  /** Writing a configuration that refers to K misleads no child about K. */
  predicate SafeToWrite(s: State, k: Names) {
    || (s.config.Some? && s.config.value.names == k)
    || forall c: Service :: CannotMisreport(s.children[c], k)
  }

  predicate CarefulAction(s: State, a: Action) {
    a.ParentStep? && s.parent.Working? && s.parent.work.stage.AtConfig? ==> SafeToWrite(s, NamesOf(s.parent.work))
  }

  /** Every configuration write of the run is safe: this is the one hypothesis on rotation. */
  predicate Careful(s: State, actions: seq<Action>)
    decreases |actions|
  {
    actions != [] ==> CarefulAction(s, actions[0]) && Careful(Step(s, actions[0]), actions[1..])
  }

  lemma RunsIsWithin(ch: Child, k: Names)
    requires Runs(ch, k)
    ensures Within(ch, k)
  {
  }

  lemma TruthfulIsHonest(s: State, a: Action)
    requires SafetyInv(s) && Truthful(s)
    ensures HonestAction(s, a)
  {
    if a.ParentStep? && s.parent.Working? && s.parent.work.stage.AtPublish? {
      var c := s.parent.work.stage.service;
      assert CannotMisreport(s.children[c], NamesOf(s.parent.work));
      if Runs(s.children[c], NamesOf(s.parent.work)) {
        RunsIsWithin(s.children[c], NamesOf(s.parent.work));
      }
    }
  }

  lemma TruthfulChildAction(s: State, a: Action)
    requires SafetyInv(s) && Truthful(s) && IsChildAction(a)
    ensures Truthful(Step(s, a))
  {
    ChildActionIsLocal(s, a);
    var c0 := a.service;
    ChildInvStep(s.children[c0], a, s.config, s.secrets);
    if s.config.Some? {
      SoundnessStep(s.children[c0], a, s.config.value, s.secrets);
      if s.parent.Working? && c0 in s.parent.work.confirmed {
        RunsStep(s.children[c0], a, s.config.value, s.secrets);
      }
    }
  }

  lemma TruthfulPublish(s: State, w: Work, c0: Service, other: nat)
    requires SafetyInv(s) && Truthful(s) && s.parent == Working(w) && w.stage == AtPublish(c0)
    ensures Truthful(Publish(s, w, c0, other))
  {
    PublishKeepsSoundness(s.children[c0], w, other, NamesOf(w));
    assert CannotMisreport(s.children[c0], NamesOf(w));
  }

  lemma NoneConfirmedEarly(s: State, w: Work)
    requires WorkInv(s, w) && 1 <= Rank(w.stage) <= 7
    ensures w.confirmed == {}
  {
    forall c: Service ensures c !in w.confirmed {
      assert ServiceInv(s.children[c], w, c);
    }
  }

  lemma TruthfulConfig(s: State, w: Work, choice: nat)
    requires SafetyInv(s) && Truthful(s) && s.parent == Working(w) && w.stage.AtConfig? && SafeToWrite(s, NamesOf(w))
    ensures Truthful(AdvanceWork(s, w, choice))
  {
    NoneConfirmedEarly(s, w);
  }

  lemma OtherStagesConfirmNothing(s: State, w: Work, choice: nat)
    requires s.parent == Working(w) && !w.stage.AtConfig? && !w.stage.AtPublish?
    ensures var s' := AdvanceWork(s, w, choice);
            && s'.children == s.children && s'.config == s.config
            && (s'.parent.Working? ==> s'.parent.work.confirmed == w.confirmed)
            && (s'.parent.Working? && Rank(w.stage) >= 10 ==> NamesOf(s'.parent.work) == NamesOf(w))
  {
    if Rank(w.stage) >= 10 {
      LateStagesConfirmNothing(s, w, choice);
    }
  }

  lemma LateStagesConfirmNothing(s: State, w: Work, choice: nat)
    requires s.parent == Working(w) && Rank(w.stage) >= 10
    ensures var s' := AdvanceWork(s, w, choice);
            && s'.children == s.children && s'.config == s.config
            && (s'.parent.Working? ==> s'.parent.work.confirmed == w.confirmed && NamesOf(s'.parent.work) == NamesOf(w))
  {
  }

  lemma TruthfulWork(s: State, w: Work, choice: nat)
    requires SafetyInv(s) && Truthful(s) && s.parent == Working(w)
    requires w.stage.AtConfig? ==> SafeToWrite(s, NamesOf(w))
    ensures Truthful(AdvanceWork(s, w, choice))
  {
    match w.stage
    case AtConfig => TruthfulConfig(s, w, choice);
    case AtPublish(c) => TruthfulPublish(s, w, c, choice);
    case _ => TruthfulOtherStage(s, w, choice);
  }

  lemma TruthfulOtherStage(s: State, w: Work, choice: nat)
    requires SafetyInv(s) && Truthful(s) && s.parent == Working(w) && !w.stage.AtConfig? && !w.stage.AtPublish?
    ensures Truthful(AdvanceWork(s, w, choice))
  {
    OtherStagesConfirmNothing(s, w, choice);
    if 1 <= Rank(w.stage) <= 7 {
      NoneConfirmedEarly(s, w);
    }
    TruthfulFrame(s, AdvanceWork(s, w, choice));
  }

  lemma TruthfulFrame(s: State, s': State)
    requires Truthful(s) && s'.children == s.children && s'.config == s.config
    requires s'.parent.Working? ==>
               s'.parent.work.confirmed == {}
               || (s.parent.Working? && s'.parent.work.confirmed == s.parent.work.confirmed
                   && NamesOf(s'.parent.work) == NamesOf(s.parent.work))
    ensures Truthful(s')
  {
  }

  lemma OtherActionsConfirmNothing(s: State, a: Action)
    requires !IsChildAction(a) && !(a.ParentStep? && s.parent.Working?)
    ensures var s' := Step(s, a);
            && s'.children == s.children && s'.config == s.config
            && (s'.parent.Working? ==>
                  s'.parent.work.confirmed == {}
                  || (s.parent.Working? && s'.parent.work.confirmed == s.parent.work.confirmed
                      && NamesOf(s'.parent.work) == NamesOf(s.parent.work)))
  {
  }

  lemma TruthfulStep(s: State, a: Action)
    requires SafetyInv(s) && Truthful(s) && CarefulAction(s, a)
    ensures Truthful(Step(s, a))
  {
    if IsChildAction(a) {
      TruthfulChildAction(s, a);
    } else if a.ParentStep? && s.parent.Working? {
      TruthfulParentStep(s, a.choice);
    } else {
      TruthfulOtherAction(s, a);
    }
  }

  lemma TruthfulParentStep(s: State, choice: nat)
    requires SafetyInv(s) && Truthful(s) && s.parent.Working?
    requires s.parent.work.stage.AtConfig? ==> SafeToWrite(s, NamesOf(s.parent.work))
    ensures Truthful(Step(s, ParentStep(choice)))
  {
    var s' := AdvanceWork(s, s.parent.work, choice);
    TruthfulWork(s, s.parent.work, choice);
    StepIsWork(s, choice);
    assert Truthful(s');
  }

  lemma StepIsWork(s: State, choice: nat)
    requires s.parent.Working?
    ensures Step(s, ParentStep(choice)) == AdvanceWork(s, s.parent.work, choice)
  {
  }

  lemma TruthfulOtherAction(s: State, a: Action)
    requires Truthful(s) && !IsChildAction(a) && !(a.ParentStep? && s.parent.Working?)
    ensures Truthful(Step(s, a))
  {
    OtherActionsConfirmNothing(s, a);
    TruthfulFrame(s, Step(s, a));
  }

  /** A careful run counts no wrong confirmation. */
  lemma {:induction false} CarefulIsHonest(s: State, actions: seq<Action>)
    requires SafetyInv(s) && OwnershipInv(s) && Truthful(s) && Careful(s, actions)
    ensures Honest(s, actions) && Truthful(Run(s, actions))
    decreases |actions|
  {
    if actions != [] {
      TruthfulIsHonest(s, actions[0]);
      TruthfulStep(s, actions[0]);
      SafetyInvStep(s, actions[0]);
      OwnershipInvStep(s, actions[0]);
      CarefulIsHonest(Step(s, actions[0]), actions[1..]);
    }
  }
}
