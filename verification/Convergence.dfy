/** Convergence: six fair rounds after the environment settles, Heat is Ready with exactly
    the current finalizers and tracked names, whatever state the run was in before.

    The proof is a ladder each service climbs one rung a round, and from which no settled
    action, crash or pod churn pushes it down: published, adopted, deployed, rolled out,
    confirmed. With all three on the last rung one more parent pass completes the rotation.
 */
module Convergence {
  import opened Names
  import opened Cluster
  import opened Confirmation
  import opened Protection
  import opened Cleanup
  import opened Rotation
  import opened History
  import opened Schedule

  function Rendering(t: Target): Config {
    Config(t.names, t.rest)
  }

  function TargetSpec(t: Target): ChildSpec {
    ChildSpec(t.names.transport, t.names.credential, t.other)
  }

  function TargetHash(t: Target): InputHash {
    InputHash(Some(Rendering(t)), Rendering(t), t.names.transport, t.extra)
  }

  // ---------------------------------------------------------------- the ladder

  /** A child pass in flight that began when its child was on rung k. */
  predicate PassAt(ch: Child, t: Target, k: nat) {
    && (ch.pass.Joining? ==> k <= 1)
    && (InFlight(ch.pass) ==>
          ch.finalizer && ch.pass.seen == Seen(ch.generation, ExpectedHash(t.names), t.names.transport))
    && (ch.pass.Hashed? ==> ch.pass.parent == Some(Rendering(t)))
    && (ch.pass.Copied? ==> ch.pass.parent == Some(Rendering(t)) && ch.pass.copy == Rendering(t))
    && (CarriesHash(ch.pass) ==> ch.pass.hash == TargetHash(t) && ch.own == Some(Rendering(t)))
    && (ch.pass.Deployed? || ch.pass.Checked? ==> ch.template == Some(TargetHash(t)))
    && (ch.pass.Checked? && k >= 4 ==> ch.pass.rolledOut)
  }

  /** The rungs: 1 published, 2 adopted, 3 deployed, 4 rolled out, 5 confirmed. */
  predicate OnRung(ch: Child, t: Target, k: nat) {
    && (k >= 1 ==> ch.spec == Some(TargetSpec(t)) && ch.annotation == ExpectedHash(t.names))
    && (k >= 2 ==> ch.finalizer)
    && (k >= 3 ==> ch.own == Some(Rendering(t)) && ch.template == Some(TargetHash(t)) && PassAt(ch, t, 3))
    && (k >= 4 ==> forall p | p in ch.pods :: p.hash == TargetHash(t))
    && (k >= 5 ==> ch.status == ChildStatus(ch.generation, ExpectedHash(t.names), true) && PassAt(ch, t, 5))
  }

  predicate Reached(s: State, t: Target, c: Service, k: nat) {
    (k >= 1 ==> s.config == Some(Rendering(t))) && OnRung(s.children[c], t, k)
  }

  /** A parent pass that began in the settled environment. */
  predicate WorkAt(s: State, w: Work, t: Target) {
    var r := Rank(w.stage);
    && r >= 1
    && w.credential == t.names.credential && w.bus == t.names.notification.Some?
    && (r >= 2 ==> w.transport == t.names.transport)
    && w.notification == (if r <= 3 then None else t.names.notification)
    && (r == 4 ==> w.notification.Some?)
    && (r >= 6 ==> s.config == Some(Rendering(t)))
    && (r == 13 ==> w.notification.None?)
    && forall c: Service :: r > PublishRank(c) ==> OnRung(s.children[c], t, 1)
  }

  predicate Settled(s: State, t: Target) {
    && Quiet(s, t)
    && (s.parent.Resting? || s.parent.Adopting? || (s.parent.Working? && WorkAt(s, s.parent.work, t)))
  }

  // ---------------------------------------------------------------- no rung is lost

  lemma RungStep(ch: Child, a: Action, s: State, t: Target, k: nat)
    requires Quiet(s, t) && s.config == Some(Rendering(t))
    requires IsChildAction(a) && ch == s.children[a.service] && Calm(s, a, t)
    requires 1 <= k <= 5 && OnRung(ch, t, k)
    ensures OnRung(StepChild(ch, a, s.config, s.secrets), t, k)
  {
    assert Transport(t.names.transport) in s.secrets;
  }

  /** A pass that began on rung k stays such a pass. */
  lemma PassStep(ch: Child, a: Action, s: State, t: Target, k: nat)
    requires Quiet(s, t) && s.config == Some(Rendering(t))
    requires IsChildAction(a) && ch == s.children[a.service] && Calm(s, a, t)
    requires 1 <= k <= 4 && OnRung(ch, t, k) && (PassAt(ch, t, k) || (a.ChildBegin? && ch.pass.Idle?) || a.ChildCrash?)
    ensures PassAt(StepChild(ch, a, s.config, s.secrets), t, k)
  {
    assert Transport(t.names.transport) in s.secrets;
  }

  /** Completing such a pass is what lifts the child. */
  lemma CompletedPassClimbs(ch: Child, a: Action, s: State, t: Target, k: nat)
    requires Quiet(s, t) && s.config == Some(Rendering(t))
    requires a.ChildStep? && ch == s.children[a.service] && Calm(s, a, t)
    requires k in {1, 2, 4} && OnRung(ch, t, k) && PassAt(ch, t, k) && (ch.pass.Joining? || ch.pass.Checked?)
    ensures OnRung(StepChild(ch, a, s.config, s.secrets), t, k + 1)
  {
  }

  /** Publishing the target lifts a child to rung 1 and disturbs nothing above it. */
  lemma PublishRung(ch: Child, w: Work, t: Target, k: nat)
    requires w.transport == t.names.transport && NamesOf(w) == t.names
    requires k == 0 || OnRung(ch, t, k)
    ensures OnRung(PublishChild(ch, w, t.other), t, if k == 0 then 1 else k)
    ensures k >= 1 ==> PublishChild(ch, w, t.other) == ch
  {
  }

  lemma SettledChildAction(s: State, a: Action, t: Target)
    requires Settled(s, t) && Calm(s, a, t) && IsChildAction(a)
    ensures Settled(Step(s, a), t)
  {
    ChildActionIsLocal(s, a);
    var ch := s.children[a.service];
    if s.parent.Working? && Rank(s.parent.work.stage) > PublishRank(a.service) {
      RungStep(ch, a, s, t, 1);
    }
  }

  lemma SettledReadTransport(s: State, w: Work, t: Target)
    requires Quiet(s, t) && s.parent == Working(w) && WorkAt(s, w, t) && w.stage.AtTransport?
    ensures Settled(ReadTransport(s, w), t)
  {
  }

  lemma SettledReadNotification(s: State, w: Work, t: Target)
    requires Quiet(s, t) && s.parent == Working(w) && WorkAt(s, w, t) && w.stage.AtNotification?
    ensures Settled(ReadNotification(s, w), t)
  {
  }

  lemma SettledProtect(s: State, w: Work, n: SecretName, f: Finalizer, next: Stage, t: Target)
    requires Quiet(s, t) && s.parent == Working(w) && WorkAt(s, w, t) && NextProtected(w, n, f, next)
    ensures Settled(Protect(s, w, n, f, next), t)
  {
    assert n in CurrentSecrets(t, f);
  }

  lemma SettledConfig(s: State, w: Work, choice: nat, t: Target)
    requires Quiet(s, t) && s.parent == Working(w) && WorkAt(s, w, t) && Calm(s, ParentStep(choice), t)
    requires w.stage.AtConfig? || (w.stage.AtProtectCredential? && w.credential.None?)
    ensures Settled(AdvanceWork(s, w, choice), t)
  {
  }

  lemma SettledPublish(s: State, w: Work, c: Service, t: Target)
    requires Quiet(s, t) && s.parent == Working(w) && WorkAt(s, w, t) && w.stage == AtPublish(c)
    ensures Settled(Publish(s, w, c, t.other), t)
  {
    PublishRung(s.children[c], w, t, 0);
  }

  predicate LaterWork(w: Work, w': Work) {
    && Rank(w'.stage) >= 10 && NamesOf(w') == NamesOf(w) && w'.bus == w.bus && w'.confirmed == w.confirmed
    && (w'.stage.AtDeleteBus? ==> w.notification.None?)
  }

  predicate OnlyReleases(s: State, w: Work, s': State) {
    && s'.secrets.Keys == s.secrets.Keys && s'.transportUrl == s.transportUrl
    && (s'.notificationUrl == s.notificationUrl || w.stage.AtDeleteBus?)
    && s'.config == s.config && s'.children == s.children
    && (s.heat.Some? ==>
          s'.heat.Some? && s'.heat.value.(tracked := s.heat.value.tracked, ready := s.heat.value.ready) == s.heat.value)
    && (s'.parent.Resting? || (s'.parent.Working? && LaterWork(w, s'.parent.work)))
  }

  lemma FinalizeStages(s: State, w: Work, choice: nat)
    requires s.parent == Working(w) && 10 <= Rank(w.stage) <= 11
    ensures OnlyReleases(s, w, AdvanceWork(s, w, choice))
  {
  }

  lemma FinalizeNotificationStage(s: State, w: Work)
    requires s.parent == Working(w) && Rank(w.stage) >= 10
    ensures OnlyReleases(s, w, FinalizeNotification(s, w))
  {
  }

  lemma LastStages(s: State, w: Work, choice: nat)
    requires s.parent == Working(w) && Rank(w.stage) >= 13
    ensures OnlyReleases(s, w, AdvanceWork(s, w, choice))
  {
  }

  /** After the publishing a pass only releases, and of what it read it forgets nothing. */
  lemma LateStages(s: State, w: Work, choice: nat)
    requires s.parent == Working(w) && Rank(w.stage) >= 10
    ensures OnlyReleases(s, w, AdvanceWork(s, w, choice))
  {
    if Rank(w.stage) <= 11 {
      FinalizeStages(s, w, choice);
    } else if w.stage.AtFinalizeNotification? {
      FinalizeNotificationStage(s, w);
    } else {
      LastStages(s, w, choice);
    }
  }

  lemma SettledLate(s: State, w: Work, choice: nat, t: Target)
    requires Quiet(s, t) && s.parent == Working(w) && WorkAt(s, w, t) && Rank(w.stage) >= 10
    ensures Settled(AdvanceWork(s, w, choice), t)
  {
    LateStages(s, w, choice);
  }

  lemma SettledWork(s: State, w: Work, choice: nat, t: Target)
    requires Quiet(s, t) && s.parent == Working(w) && WorkAt(s, w, t) && Calm(s, ParentStep(choice), t)
    ensures Settled(AdvanceWork(s, w, choice), t)
  {
    match w.stage
    case AtTransport => SettledReadTransport(s, w, t);
    case AtProtectTransport => SettledProtect(s, w, Transport(w.transport), TransportConsumer, AtNotification, t);
    case AtNotification => SettledReadNotification(s, w, t);
    case AtProtectNotification =>
      SettledProtect(s, w, Notification(w.notification.value), TransportConsumer, AtConfig, t);
    case AtConfig => SettledConfig(s, w, choice, t);
    case AtProtectCredential =>
      if w.credential.Some? {
        SettledProtect(s, w, Credential(w.credential.value), CredentialConsumer, AtPublish(Engine), t);
      } else {
        SettledConfig(s, w, choice, t);
      }
    case AtPublish(c) => SettledPublish(s, w, c, t);
    case _ => SettledLate(s, w, choice, t);
  }

  lemma SettledStep(s: State, a: Action, t: Target)
    requires Settled(s, t) && Calm(s, a, t)
    ensures Settled(Step(s, a), t)
  {
    if IsChildAction(a) {
      SettledChildAction(s, a, t);
    } else if a.ParentStep? && s.parent.Working? {
      SettledWork(s, s.parent.work, a.choice, t);
    }
  }

  // ---------------------------------------------------------------- rungs, for every action

  /** The parent, publishing the target, keeps every rung; nothing else of its touches a child. */
  lemma WorkKeepsRung(s: State, w: Work, choice: nat, t: Target, c: Service, k: nat)
    requires Quiet(s, t) && s.parent == Working(w) && WorkAt(s, w, t) && Calm(s, ParentStep(choice), t)
    requires Reached(s, t, c, k)
    ensures Reached(AdvanceWork(s, w, choice), t, c, k)
    ensures k >= 1 ==> AdvanceWork(s, w, choice).children[c] == s.children[c]
  {
    hide PassAt;
    if w.stage.AtPublish? {
      PublishRung(s.children[w.stage.service], w, t, if c == w.stage.service then k else 0);
    } else if Rank(w.stage) >= 10 {
      LateStages(s, w, choice);
    } else {
      EarlyStagesKeepChildren(s, w, choice, t);
    }
  }

  lemma EarlyStagesKeepChildren(s: State, w: Work, choice: nat, t: Target)
    requires s.parent == Working(w) && WorkAt(s, w, t) && Rank(w.stage) <= 6 && Calm(s, ParentStep(choice), t)
    ensures var s' := AdvanceWork(s, w, choice);
            s'.children == s.children && s'.config == if w.stage.AtConfig? then Some(Rendering(t)) else s.config
  {
    if 1 <= Rank(w.stage) <= 3 {
      ReadsKeepChildren(s, w, choice);
    }
  }

  lemma ReadsKeepChildren(s: State, w: Work, choice: nat)
    requires s.parent == Working(w) && 1 <= Rank(w.stage) <= 3
    ensures AdvanceWork(s, w, choice).children == s.children && AdvanceWork(s, w, choice).config == s.config
  {
  }

  lemma ReachedStep(s: State, a: Action, t: Target, c: Service, k: nat)
    requires Settled(s, t) && Calm(s, a, t) && k <= 5 && Reached(s, t, c, k)
    ensures Reached(Step(s, a), t, c, k)
    ensures k >= 1 && !(IsChildAction(a) && a.service == c) ==> Step(s, a).children[c] == s.children[c]
  {
    if IsChildAction(a) {
      ChildActionIsLocal(s, a);
      if a.service == c && k >= 1 {
        RungStep(s.children[c], a, s, t, k);
      }
    } else if a.ParentStep? && s.parent.Working? {
      WorkKeepsRung(s, s.parent.work, a.choice, t, c, k);
    }
  }

  // ---------------------------------------------------------------- one round, one rung

  /** What lifts a child from rung k. */
  predicate Lifted(w: Watch, c: Service, k: nat) {
    if k == 0 then w.parentDone else if k == 3 then c in w.rolled else c in w.childDone
  }

  predicate Climbing(s: State, w: Watch, t: Target, c: Service, k: nat) {
    && Settled(s, t) && Reached(s, t, c, k)
    && (k >= 1 && c in w.childFresh ==> PassAt(s.children[c], t, k))
    && (Lifted(w, c, k) ==> Reached(s, t, c, k + 1))
  }

  lemma ClimbingRollouts(s: State, w: Watch, t: Target, c: Service, k: nat)
    requires k <= 4 && Climbing(s, w, t, c, k)
    ensures Climbing(s, ObserveRollouts(s, w), t, c, k)
  {
    if k == 3 && FullyRolled(s.children[c]) {
      assert OnRung(s.children[c], t, 4);
    }
  }

  lemma ParentCompletes(s: State, a: Action, t: Target, c: Service)
    requires Settled(s, t) && a.ParentStep? && s.parent.Working? && s.parent.work.stage == AtPatch(true)
    ensures Reached(Step(s, a), t, c, 1)
  {
    assert Rank(s.parent.work.stage) > PublishRank(c);
  }

  lemma FreshStep(s: State, a: Action, w: Watch, t: Target, c: Service, k: nat)
    requires 1 <= k <= 4 && Climbing(s, w, t, c, k) && Calm(s, a, t)
    ensures c in Observe(s, a, w).childFresh ==> PassAt(Step(s, a).children[c], t, k)
  {
    if IsChildAction(a) && a.service == c {
      ChildActionIsLocal(s, a);
      if c in Observe(s, a, w).childFresh {
        PassStep(s.children[c], a, s, t, k);
      }
    } else {
      ReachedStep(s, a, t, c, k);
    }
  }

  lemma FreshCompletes(s: State, a: Action, w: Watch, t: Target, c: Service, k: nat)
    requires k in {1, 2, 4} && Climbing(s, w, t, c, k) && Calm(s, a, t)
    requires c in Observe(s, a, w).childDone && c !in w.childDone
    ensures Reached(Step(s, a), t, c, k + 1)
  {
    ReachedStep(s, a, t, c, k);
    ChildActionIsLocal(s, a);
    CompletedPassClimbs(s.children[c], a, s, t, k);
  }

  lemma ClimbingStep(s: State, a: Action, w: Watch, t: Target, c: Service, k: nat)
    requires k <= 4 && Climbing(s, w, t, c, k) && Calm(s, a, t)
    ensures Climbing(Step(s, a), Observe(s, a, w), t, c, k)
  {
    SettledStep(s, a, t);
    ReachedStep(s, a, t, c, k);
    if Lifted(w, c, k) {
      ReachedStep(s, a, t, c, k + 1);
    } else if k == 0 && Observe(s, a, w).parentDone {
      ParentCompletes(s, a, t, c);
    }
    if k >= 1 {
      FreshStep(s, a, w, t, c, k);
      if k in {1, 2, 4} && c in Observe(s, a, w).childDone && c !in w.childDone {
        FreshCompletes(s, a, w, t, c, k);
      }
    }
  }

  lemma {:induction false} ClimbingRun(s: State, actions: seq<Action>, w: Watch, t: Target, c: Service, k: nat)
    requires k <= 4 && Climbing(s, w, t, c, k) && CalmRun(s, actions, t)
    ensures Climbing(Run(s, actions), WatchRun(s, actions, w), t, c, k)
    decreases |actions|
  {
    ClimbingRollouts(s, w, t, c, k);
    if actions != [] {
      ClimbingStep(s, actions[0], ObserveRollouts(s, w), t, c, k);
      ClimbingRun(Step(s, actions[0]), actions[1..], Observe(s, actions[0], ObserveRollouts(s, w)), t, c, k);
    }
  }

  predicate AllReached(s: State, t: Target, k: nat) {
    forall c: Service :: Reached(s, t, c, k)
  }

  lemma RoundLiftsOne(s: State, actions: seq<Action>, t: Target, c: Service, k: nat)
    requires k <= 4 && Settled(s, t) && Reached(s, t, c, k)
    requires CalmRun(s, actions, t) && Fair(s, actions)
    ensures Settled(Run(s, actions), t) && Reached(Run(s, actions), t, c, k + 1)
  {
    ClimbingRun(s, actions, Unwatched, t, c, k);
    assert c in AllServices by {
      assert c.Engine? || c.Api? || c.CfnApi?;
    }
  }

  /** One fair round, in any interleaving, lifts every child by a rung. */
  lemma {:induction false} RoundLifts(s: State, actions: seq<Action>, t: Target, k: nat)
    requires k <= 4 && Settled(s, t) && AllReached(s, t, k)
    requires CalmRun(s, actions, t) && Fair(s, actions)
    ensures Settled(Run(s, actions), t) && AllReached(Run(s, actions), t, k + 1)
  {
    RoundLiftsOne(s, actions, t, Engine, k);
    var s', next := Run(s, actions), k + 1;
    forall c: Service ensures Reached(s', t, c, next) {
      RoundLiftsOne(s, actions, t, c, k);
    }
  }

  // ---------------------------------------------------------------- the top of the ladder

  function TargetTracked(t: Target): Tracked {
    Tracked(Some(t.names.transport), t.names.notification, t.names.credential)
  }

  /** Everything is where it should be. */
  predicate Converged(s: State, t: Target) {
    && AllReached(s, t, 5)
    && s.heat.Some? && s.heat.value.ready && s.heat.value.tracked == TargetTracked(t)
    && Holders(s.secrets, TransportConsumer) == CurrentSecrets(t, TransportConsumer)
    && Holders(s.secrets, CredentialConsumer) == CurrentSecrets(t, CredentialConsumer)
  }

  predicate ConfirmedSoFar(w: Work) {
    forall c: Service :: Rank(w.stage) > PublishRank(c) ==> c in w.confirmed
  }

  /** Converged, and no pass in flight will change that. */
  predicate Steady(s: State, t: Target) {
    && Settled(s, t) && Converged(s, t)
    && (s.parent.Working? ==>
          && ConfirmedSoFar(s.parent.work)
          && s.parent.work.tracked == TargetTracked(t)
          && !s.parent.work.stage.AtDeleteBus?
          && (Rank(s.parent.work.stage) >= 11 ==> s.parent.work.ready))
  }

  /** No spec, generation, annotation, status or finalizer differs. */
  predicate Unmoved(s: State, s': State) {
    && s'.config == s.config
    && s.heat.Some? && s'.heat.Some? && s'.heat.value == s.heat.value
    && Holders(s'.secrets, TransportConsumer) == Holders(s.secrets, TransportConsumer)
    && Holders(s'.secrets, CredentialConsumer) == Holders(s.secrets, CredentialConsumer)
    && forall c: Service ::
         && s'.children[c].spec == s.children[c].spec && s'.children[c].generation == s.children[c].generation
         && s'.children[c].annotation == s.children[c].annotation && s'.children[c].status == s.children[c].status
         && s'.children[c].finalizer == s.children[c].finalizer && s'.children[c].own == s.children[c].own
         && s'.children[c].template == s.children[c].template
  }

  lemma EverythingConfirmed(w: Work)
    requires ConfirmedSoFar(w) && Rank(w.stage) >= 10
    ensures AllConfirmed(w)
  {
    assert forall c: Service :: c in AllServices <==> c in w.confirmed by {
      forall c: Service ensures c in AllServices && c in w.confirmed {
        assert c.Engine? || c.Api? || c.CfnApi?;
        assert Rank(w.stage) > PublishRank(c);
      }
    }
  }

  lemma PublishConfirms(s: State, w: Work, t: Target, c: Service)
    requires AllReached(s, t, 5) && NamesOf(w) == t.names && w.stage == AtPublish(c) && ConfirmedSoFar(w)
    ensures ConfirmedSoFar(Publish(s, w, c, t.other).parent.work)
  {
    assert Reached(s, t, c, 5);
    PublishRung(s.children[c], w, t, 5);
  }

  lemma ConfirmedStep(s: State, w: Work, choice: nat, t: Target)
    requires Settled(s, t) && s.parent == Working(w) && AllReached(s, t, 5) && ConfirmedSoFar(w)
    requires Calm(s, ParentStep(choice), t)
    ensures var s' := AdvanceWork(s, w, choice); s'.parent.Working? ==> ConfirmedSoFar(s'.parent.work)
  {
    if w.stage.AtPublish? {
      PublishConfirms(s, w, t, w.stage.service);
    } else if Rank(w.stage) >= 10 {
      LateStages(s, w, choice);
    } else {
      EarlyStages(s, w, choice);
    }
  }

  lemma EarlyStages(s: State, w: Work, choice: nat)
    requires s.parent == Working(w) && 1 <= Rank(w.stage) <= 6
    ensures var s' := AdvanceWork(s, w, choice);
            s'.parent.Working? && Rank(s'.parent.work.stage) <= 7 && s'.parent.work.confirmed == w.confirmed
  {
    if Rank(w.stage) <= 3 {
      EarliestStages(s, w, choice);
    }
  }

  lemma EarliestStages(s: State, w: Work, choice: nat)
    requires s.parent == Working(w) && 1 <= Rank(w.stage) <= 3
    ensures var s' := AdvanceWork(s, w, choice);
            s'.parent.Working? && Rank(s'.parent.work.stage) <= 7 && s'.parent.work.confirmed == w.confirmed
  {
  }

  lemma AllReachedStep(s: State, a: Action, t: Target, k: nat)
    requires Settled(s, t) && Calm(s, a, t) && k <= 5 && AllReached(s, t, k)
    ensures AllReached(Step(s, a), t, k)
  {
    var s' := Step(s, a);
    forall c: Service ensures Reached(s', t, c, k) {
      ReachedStep(s, a, t, c, k);
    }
  }

  /** The pass that finds every service confirmed completes the rotation when it is patched. */
  lemma LastPatch(s: State, w: Work, choice: nat, t: Target)
    requires Settled(s, t) && AllReached(s, t, 5) && RotationInv(s)
    requires s.parent == Working(w) && w.stage == AtPatch(true) && ConfirmedSoFar(w)
    ensures Steady(Step(s, ParentStep(choice)), t)
  {
    EverythingConfirmed(w);
    SettledStep(s, ParentStep(choice), t);
    AllReachedStep(s, ParentStep(choice), t, 5);
  }

  // ---------------------------------------------------------------- nothing moves any more

  predicate ChildUnmoved(ch: Child, ch': Child) {
    ch' == ch.(pods := ch'.pods, pass := ch'.pass)
  }

  lemma ChildIsUnmoved(ch: Child, a: Action, s: State, t: Target)
    requires Quiet(s, t) && s.config == Some(Rendering(t))
    requires IsChildAction(a) && ch == s.children[a.service] && Calm(s, a, t) && OnRung(ch, t, 5)
    ensures ChildUnmoved(ch, StepChild(ch, a, s.config, s.secrets))
  {
    assert Transport(t.names.transport) in s.secrets;
  }

  predicate HoldersKept(secrets: SecretStore, secrets': SecretStore) {
    && Holders(secrets', TransportConsumer) == Holders(secrets, TransportConsumer)
    && Holders(secrets', CredentialConsumer) == Holders(secrets, CredentialConsumer)
  }

  /** A pass over a converged state adds nothing and releases nothing. */
  predicate PassIsIdle(s: State, s': State, t: Target) {
    && HoldersKept(s.secrets, s'.secrets)
    && s'.config == s.config && s'.children == s.children && s'.heat == s.heat
    && (s'.parent.Working? ==>
          && s'.parent.work.tracked == TargetTracked(t)
          && !s'.parent.work.stage.AtDeleteBus?
          && (Rank(s'.parent.work.stage) >= 11 ==> s'.parent.work.ready))
  }

  lemma IdleRead(s: State, w: Work, t: Target)
    requires Steady(s, t) && s.parent == Working(w)
    ensures w.stage.AtTransport? ==> PassIsIdle(s, ReadTransport(s, w), t)
    ensures w.stage.AtNotification? ==> PassIsIdle(s, ReadNotification(s, w), t)
  {
  }

  lemma IdleProtect(s: State, w: Work, n: SecretName, f: Finalizer, next: Stage, t: Target)
    requires Steady(s, t) && s.parent == Working(w) && NextProtected(w, n, f, next)
    ensures PassIsIdle(s, Protect(s, w, n, f, next), t)
  {
    assert n in Holders(s.secrets, f);
    assert s.secrets[n] + {f} == s.secrets[n];
    assert AddFinalizer(s.secrets, n, f) == s.secrets;
  }

  lemma IdleConfig(s: State, w: Work, choice: nat, t: Target)
    requires Steady(s, t) && s.parent == Working(w) && Calm(s, ParentStep(choice), t)
    requires w.stage.AtConfig? || (w.stage.AtProtectCredential? && w.credential.None?)
    ensures PassIsIdle(s, AdvanceWork(s, w, choice), t)
  {
    assert Reached(s, t, Engine, 5);
  }

  lemma IdlePublish(s: State, w: Work, c: Service, t: Target)
    requires Steady(s, t) && s.parent == Working(w) && w.stage == AtPublish(c)
    ensures PassIsIdle(s, Publish(s, w, c, t.other), t)
  {
    assert Reached(s, t, c, 5);
    PublishRung(s.children[c], w, t, 5);
  }

  lemma IdleFinalize(s: State, w: Work, choice: nat, t: Target)
    requires Steady(s, t) && s.parent == Working(w) && 10 <= Rank(w.stage) <= 11
    ensures PassIsIdle(s, AdvanceWork(s, w, choice), t)
  {
    EverythingConfirmed(w);
  }

  lemma IdleFinalizeNotification(s: State, w: Work, t: Target)
    requires Steady(s, t) && s.parent == Working(w) && w.stage.AtFinalizeNotification?
    ensures PassIsIdle(s, FinalizeNotification(s, w), t)
  {
  }

  lemma IdleTail(s: State, w: Work, choice: nat, t: Target)
    requires Steady(s, t) && s.parent == Working(w) && Rank(w.stage) >= 14
    ensures PassIsIdle(s, AdvanceWork(s, w, choice), t)
  {
  }

  lemma IdleWork(s: State, w: Work, choice: nat, t: Target)
    requires Steady(s, t) && s.parent == Working(w) && Calm(s, ParentStep(choice), t)
    ensures PassIsIdle(s, AdvanceWork(s, w, choice), t)
  {
    match w.stage
    case AtTransport => IdleRead(s, w, t);
    case AtProtectTransport => IdleProtect(s, w, Transport(w.transport), TransportConsumer, AtNotification, t);
    case AtNotification => IdleRead(s, w, t);
    case AtProtectNotification =>
      IdleProtect(s, w, Notification(w.notification.value), TransportConsumer, AtConfig, t);
    case AtConfig => IdleConfig(s, w, choice, t);
    case AtProtectCredential =>
      if w.credential.Some? {
        IdleProtect(s, w, Credential(w.credential.value), CredentialConsumer, AtPublish(Engine), t);
      } else {
        IdleConfig(s, w, choice, t);
      }
    case AtPublish(c) => IdlePublish(s, w, c, t);
    case AtFinalizeNotification => IdleFinalizeNotification(s, w, t);
    case AtFinalizeCredential => IdleFinalize(s, w, choice, t);
    case AtFinalizeTransport => IdleFinalize(s, w, choice, t);
    case _ => IdleTail(s, w, choice, t);
  }

  lemma IdleEnvironment(s: State, a: Action, t: Target)
    requires Steady(s, t) && Calm(s, a, t) && !IsChildAction(a) && !(a.ParentStep? && s.parent.Working?)
    ensures PassIsIdle(s, Step(s, a), t)
    ensures Step(s, a).parent.Working? ==> ConfirmedSoFar(Step(s, a).parent.work)
  {
    if a.PruneOne? {
      IdlePrune(s, a.name, t);
    }
  }

  lemma IdlePrune(s: State, n: SecretName, t: Target)
    requires Steady(s, t)
    ensures Prune(s, n) == s
  {
  }

  /** A settled action leaves a converged state converged, and moves nothing but pods. */
  lemma SteadyStep(s: State, a: Action, t: Target)
    requires Steady(s, t) && Calm(s, a, t)
    ensures Steady(Step(s, a), t) && Unmoved(s, Step(s, a))
  {
    SettledStep(s, a, t);
    AllReachedStep(s, a, t, 5);
    if IsChildAction(a) {
      ChildActionIsLocal(s, a);
      assert Reached(s, t, a.service, 5);
      ChildIsUnmoved(s.children[a.service], a, s, t);
    } else {
      SteadyOtherAction(s, a, t);
    }
  }

  lemma SteadyOtherAction(s: State, a: Action, t: Target)
    requires Steady(s, t) && Calm(s, a, t) && !IsChildAction(a)
    ensures PassIsIdle(s, Step(s, a), t)
    ensures Step(s, a).parent.Working? ==> ConfirmedSoFar(Step(s, a).parent.work)
  {
    if a.ParentStep? && s.parent.Working? {
      IdleWork(s, s.parent.work, a.choice, t);
      ConfirmedStep(s, s.parent.work, a.choice, t);
      StepIsWork(s, a.choice);
    } else {
      IdleEnvironment(s, a, t);
    }
  }

  lemma {:induction false} SteadyRun(s: State, actions: seq<Action>, t: Target)
    requires Steady(s, t) && CalmRun(s, actions, t)
    ensures Steady(Run(s, actions), t) && Unmoved(s, Run(s, actions))
    decreases |actions|
  {
    if actions != [] {
      SteadyStep(s, actions[0], t);
      SteadyRun(Step(s, actions[0]), actions[1..], t);
    }
  }

  // ---------------------------------------------------------------- the last round

  predicate Finishing(s: State, w: Watch, t: Target) {
    && Settled(s, t) && AllReached(s, t, 5) && RotationInv(s) && OwnershipInv(s)
    && (w.parentFresh && s.parent.Working? ==> ConfirmedSoFar(s.parent.work))
    && (w.parentDone ==> Steady(s, t))
  }

  lemma ConfirmedSoFarStep(s: State, a: Action, w: Watch, t: Target)
    requires Finishing(s, w, t) && Calm(s, a, t)
    ensures Observe(s, a, w).parentFresh && Step(s, a).parent.Working? ==> ConfirmedSoFar(Step(s, a).parent.work)
  {
    if a.ParentStep? && s.parent.Working? {
      if w.parentFresh {
        ConfirmedStep(s, s.parent.work, a.choice, t);
      }
    } else if !a.ParentBegin? {
      OtherActionsKeepThePass(s, a);
    }
  }

  lemma OtherActionsKeepThePass(s: State, a: Action)
    requires !(a.ParentStep? && s.parent.Working?) && !a.ParentBegin? && !a.ParentStop?
    ensures Step(s, a).parent.Working? ==> Step(s, a).parent == s.parent
  {
  }

  lemma FinishingStep(s: State, a: Action, w: Watch, t: Target)
    requires Finishing(s, w, t) && Calm(s, a, t)
    ensures Finishing(Step(s, a), Observe(s, a, w), t)
  {
    SettledStep(s, a, t);
    AllReachedStep(s, a, t, 5);
    RotationInvStep(s, a);
    OwnershipInvStep(s, a);
    ConfirmedSoFarStep(s, a, w, t);
    if w.parentDone {
      SteadyStep(s, a, t);
    } else if Observe(s, a, w).parentDone {
      LastPatch(s, s.parent.work, a.choice, t);
    }
  }

  lemma {:induction false} FinishingRun(s: State, actions: seq<Action>, w: Watch, t: Target)
    requires Finishing(s, w, t) && CalmRun(s, actions, t)
    ensures Finishing(Run(s, actions), WatchRun(s, actions, w), t)
    decreases |actions|
  {
    if actions != [] {
      FinishingStep(s, actions[0], ObserveRollouts(s, w), t);
      FinishingRun(Step(s, actions[0]), actions[1..], Observe(s, actions[0], ObserveRollouts(s, w)), t);
    }
  }

  lemma LastRound(s: State, actions: seq<Action>, t: Target)
    requires Settled(s, t) && AllReached(s, t, 5) && RotationInv(s) && OwnershipInv(s)
    requires CalmRun(s, actions, t) && Fair(s, actions)
    ensures Steady(Run(s, actions), t)
  {
    FinishingRun(s, actions, Unwatched, t);
  }

  // ---------------------------------------------------------------- the theorem

  lemma {:induction false} SteadyRounds(s: State, rounds: seq<seq<Action>>, t: Target)
    requires Steady(s, t) && FairRounds(s, rounds, t)
    ensures Steady(RunRounds(s, rounds), t)
    decreases |rounds|
  {
    if rounds != [] {
      SteadyRun(s, rounds[0], t);
      SteadyRounds(Run(s, rounds[0]), rounds[1..], t);
    }
  }

  lemma {:induction false} RoundsConverge(s: State, rounds: seq<seq<Action>>, t: Target, k: nat)
    requires k <= 5 && Settled(s, t) && AllReached(s, t, k) && RotationInv(s) && OwnershipInv(s)
    requires FairRounds(s, rounds, t) && |rounds| >= 6 - k
    ensures Steady(RunRounds(s, rounds), t)
    decreases |rounds|
  {
    var s' := Run(s, rounds[0]);
    RotationInvRun(s, rounds[0]);
    if k == 5 {
      LastRound(s, rounds[0], t);
      SteadyRounds(s', rounds[1..], t);
    } else {
      RoundLifts(s, rounds[0], t, k);
      RoundsConverge(s', rounds[1..], t, k + 1);
    }
  }

  // ---------------------------------------------------------------- whatever is in flight

  /** A pass begun in this stretch, up to the point where it has read both names. */
  predicate EarlyWork(s: State, w: Work, t: Target) {
    var r := Rank(w.stage);
    && r <= 3
    && w.credential == t.names.credential && w.bus == t.names.notification.Some?
    && (r >= 1 ==> w.notification.None?)
    && (r >= 2 ==> w.transport == t.names.transport && s.transportUrl == Url(Some(t.names.transport)))
  }

  predicate Unsettled(s: State, w: Watch, t: Target) {
    && Awaiting(s, t) && OwnershipInv(s) && !w.parentDone
    && (w.parentFresh && s.parent.Working? ==> EarlyWork(s, s.parent.work, t))
  }

  lemma AwaitingRead(s: State, w: Work, t: Target)
    requires Awaiting(s, t) && s.parent == Working(w)
    ensures w.stage.AtTransport? ==> Awaiting(ReadTransport(s, w), t)
    ensures w.stage.AtNotification? ==> Awaiting(ReadNotification(s, w), t)
  {
  }

  /** All else before the releases moves neither Heat nor a TransportURL, and deletes no secret. */
  lemma WritesKeepUrls(s: State, w: Work, choice: nat)
    requires s.parent == Working(w) && Rank(w.stage) in {2, 4, 5, 6, 7, 8, 9}
    ensures var s' := AdvanceWork(s, w, choice);
            && s'.heat == s.heat && s'.secrets.Keys == s.secrets.Keys
            && s'.transportUrl == s.transportUrl && s'.notificationUrl == s.notificationUrl
  {
  }

  /** Whatever pass is in flight, and whatever it read, it disturbs no more than the bus's
      TransportURL, which it may delete. */
  lemma AwaitingWork(s: State, w: Work, choice: nat, t: Target)
    requires Awaiting(s, t) && s.parent == Working(w)
    ensures Awaiting(AdvanceWork(s, w, choice), t)
  {
    if Rank(w.stage) >= 10 {
      LateStages(s, w, choice);
    } else if w.stage.AtTransport? || w.stage.AtNotification? {
      AwaitingRead(s, w, t);
    } else if Rank(w.stage) > 0 {
      WritesKeepUrls(s, w, choice);
    }
  }

  lemma AwaitingOther(s: State, a: Action, t: Target)
    requires Awaiting(s, t) && OwnershipInv(s) && Calm(s, a, t) && !(a.ParentStep? && s.parent.Working?)
    ensures Awaiting(Step(s, a), t)
  {
    if IsChildAction(a) {
      ChildActionIsLocal(s, a);
    }
  }

  /** A fresh pass either ends early, or reads both names, and then the environment has settled. */
  lemma EarlyWorkStep(s: State, w: Work, choice: nat, t: Target)
    requires Awaiting(s, t) && s.parent == Working(w) && EarlyWork(s, w, t)
    ensures var s' := AdvanceWork(s, w, choice);
            s'.parent.Working? ==> EarlyWork(s', s'.parent.work, t) || Settled(s', t)
  {
  }

  lemma EarlyWorkStays(s: State, a: Action, w: Watch, t: Target)
    requires Unsettled(s, w, t) && Calm(s, a, t) && !(a.ParentStep? && s.parent.Working?)
    requires Observe(s, a, w).parentFresh && Step(s, a).parent.Working?
    ensures EarlyWork(Step(s, a), Step(s, a).parent.work, t)
  {
    if IsChildAction(a) {
      ChildActionIsLocal(s, a);
    }
  }

  lemma UnsettledStep(s: State, a: Action, w: Watch, t: Target)
    requires Unsettled(s, w, t) && Calm(s, a, t)
    ensures !Observe(s, a, w).parentDone
    ensures Unsettled(Step(s, a), Observe(s, a, w), t) || Settled(Step(s, a), t)
  {
    OwnershipInvStep(s, a);
    if a.ParentStep? && s.parent.Working? {
      AwaitingWork(s, s.parent.work, a.choice, t);
      if w.parentFresh {
        EarlyWorkStep(s, s.parent.work, a.choice, t);
      }
    } else {
      AwaitingOther(s, a, t);
      if Observe(s, a, w).parentFresh && Step(s, a).parent.Working? {
        EarlyWorkStays(s, a, w, t);
      }
    }
  }

  lemma {:induction false} FirstRoundRun(s: State, actions: seq<Action>, w: Watch, t: Target, c: Service)
    requires Unsettled(s, w, t) && CalmRun(s, actions, t) && WatchRun(s, actions, w).parentDone
    ensures Settled(Run(s, actions), t) && Reached(Run(s, actions), t, c, 1)
    decreases |actions|
  {
    if actions != [] {
      var w0 := ObserveRollouts(s, w);
      var s', w' := Step(s, actions[0]), Observe(s, actions[0], w0);
      UnsettledStep(s, actions[0], w0, t);
      if Unsettled(s', w', t) {
        FirstRoundRun(s', actions[1..], w', t, c);
      } else {
        ClimbingRun(s', actions[1..], w', t, c, 0);
      }
    }
  }

  /** A fair round gets every child published, whatever pass is in flight at its beginning; and
      both TransportURLs are then there and answered. */
  lemma FirstRound(s: State, actions: seq<Action>, t: Target)
    requires Awaiting(s, t) && OwnershipInv(s)
    requires CalmRun(s, actions, t) && Fair(s, actions)
    ensures Settled(Run(s, actions), t) && AllReached(Run(s, actions), t, 1)
  {
    FirstRoundRun(s, actions, Unwatched, t, Engine);
    forall c: Service ensures Reached(Run(s, actions), t, c, 1) {
      FirstRoundRun(s, actions, Unwatched, t, c);
    }
  }

  lemma {:induction false} FromReachable(s0: State, actions: seq<Action>, rounds: seq<seq<Action>>, t: Target)
    requires Initial(s0) && Awaiting(Run(s0, actions), t)
    requires FairRounds(Run(s0, actions), rounds, t) && |rounds| >= 6
    ensures Steady(RunRounds(Run(s0, actions), rounds), t)
  {
    var s := Run(s0, actions);
    RotationInvReachable(s0, actions);
    FirstRound(s, rounds[0], t);
    RotationInvRun(s, rounds[0]);
    RoundsConverge(Run(s, rounds[0]), rounds[1..], t, 1);
  }

  /** Convergence. From any state any run has led to, with whatever mixture of half-written
      configurations, unpublished children and stranded finalizers it left, with passes in flight
      that read anything at all and TransportURLs still to be created or answered, six fair
      rounds in a settled environment make Heat Ready, every child confirmed, and the finalizers
      and tracked names exactly the current ones. A pass left from before may still delete the
      bus's TransportURL once; a round is then fair only if it was created and answered again. */
  lemma {:induction false} SixRoundsConverge(s0: State, actions: seq<Action>, rounds: seq<seq<Action>>, t: Target)
    requires Initial(s0) && Awaiting(Run(s0, actions), t)
    requires FairRounds(Run(s0, actions), rounds, t) && |rounds| >= 6
    ensures Converged(RunRounds(Run(s0, actions), rounds), t)
  {
    FromReachable(s0, actions, rounds, t);
  }

  /** Stability. After that, no further settled run moves a spec, a generation, an annotation,
      a status, a configuration, a template or a finalizer. */
  lemma {:induction false} NothingMovesAfterwards(s0: State, actions: seq<Action>, rounds: seq<seq<Action>>,
                                                  more: seq<Action>, t: Target)
    requires Initial(s0) && Awaiting(Run(s0, actions), t)
    requires FairRounds(Run(s0, actions), rounds, t) && |rounds| >= 6
    requires CalmRun(RunRounds(Run(s0, actions), rounds), more, t)
    ensures var end := RunRounds(Run(s0, actions), rounds);
            Unmoved(end, Run(end, more)) && Converged(Run(end, more), t)
  {
    FromReachable(s0, actions, rounds, t);
    SteadyRun(RunRounds(Run(s0, actions), rounds), more, t);
  }

  /** In a careful run that has converged every pod runs the target's names, whatever it ran
      before; and once the children are idle the rotation may go anywhere next, to an earlier
      tuple too. */
  lemma ConvergedRunsTheTarget(s0: State, actions: seq<Action>, t: Target, next: Names)
    requires Initial(s0) && Careful(s0, actions) && Converged(Run(s0, actions), t)
    ensures forall c: Service :: Runs(Run(s0, actions).children[c], t.names)
    ensures (forall c: Service :: Run(s0, actions).children[c].pass.Idle?) ==> SafeToWrite(Run(s0, actions), next)
  {
    var s := Run(s0, actions);
    SafetyInvInitial(s0);
    CarefulIsHonest(s0, actions);
    forall c: Service
      ensures Runs(s.children[c], t.names)
      ensures s.children[c].pass.Idle? ==> SettledOn(s.children[c], t.names)
    {
      assert Reached(s, t, c, 5);
      assert CannotMisreport(s.children[c], t.names);
    }
    if forall c: Service :: s.children[c].pass.Idle? {
      AnyTupleIsSafeAfterSettling(s, t.names, next);
    }
  }
}
