/** A settled environment and fair rounds, at the grain of single reads and writes.

    Once names, credential and bus have settled and every gate is satisfied, the four
    controllers and the kubelet may still interleave in any way and crash anywhere. A round is
    any stretch of such a run in which each controller completes a pass that it began in the
    stretch, and each Deployment is at some moment rolled out.
 */
module Schedule {
  import opened Names
  import opened Cluster

  /** What everything should come to: the names, and the rest of what is rendered. */
  datatype Target = Target(names: Names, rest: nat, other: nat, extra: nat)

  predicate IsCurrent(n: SecretName, t: Target) {
    n in CurrentSecrets(t, TransportConsumer) || n in CurrentSecrets(t, CredentialConsumer)
  }

  function CurrentSecrets(t: Target, f: Finalizer): set<SecretName> {
    match f
    case TransportConsumer =>
      {Transport(t.names.transport)}
      + (if t.names.notification.Some? then {Notification(t.names.notification.value)} else {})
    case CredentialConsumer =>
      if t.names.credential.Some? then {Credential(t.names.credential.value)} else {}
  }

  /** Heat is live and adopted, wants the target's names, and the secrets it needs exist. */
  predicate Quiet(s: State, t: Target) {
    && s.heat.Some? && s.heat.value.finalizer && !s.heat.value.deleting
    && s.heat.value.credential == t.names.credential
    && s.heat.value.bus == t.names.notification.Some?
    && s.transportUrl == Url(Some(t.names.transport))
    && (t.names.notification.Some? ==> s.notificationUrl == Url(t.names.notification))
    && CurrentSecrets(t, TransportConsumer) <= s.secrets.Keys
    && CurrentSecrets(t, CredentialConsumer) <= s.secrets.Keys
  }

  /** A TransportURL object that is absent, or still without a secret, or has this one. */
  predicate MayGet(u: Url, secret: Option<string>) {
    u.NoUrl? || u.secret.None? || u.secret == secret
  }

  /** The state with both TransportURL objects answered. */
  function Answered(s: State, t: Target): State {
    s.(transportUrl := Url(Some(t.names.transport)),
       notificationUrl := if t.names.notification.Some? then Url(t.names.notification) else s.notificationUrl)
  }

  /** Quiet, but for TransportURL objects that are still to be created or answered. */
  predicate Awaiting(s: State, t: Target) {
    && Quiet(Answered(s, t), t)
    && MayGet(s.transportUrl, Some(t.names.transport))
    && (t.names.notification.Some? ==> MayGet(s.notificationUrl, t.names.notification))
  }

  /** Nothing rotates, nobody deletes, and no gate fails; crashes and pod churn remain. */
  predicate Calm(s: State, a: Action, t: Target) {
    match a
    case DeleteSecret(n) => !IsCurrent(n, t)
    case SetTransport(o) => o == Some(t.names.transport)
    case SetNotification(o) => t.names.notification.Some? ==> o == t.names.notification
    case SetCredential(o) => o == t.names.credential
    case SetBus(b) => b == t.names.notification.Some?
    case RequestDelete => false
    case ParentStop => false
    case ParentStep(choice) =>
      s.parent.Working? ==>
        && (s.parent.work.stage.AtConfig? ==> choice == t.rest)
        && (s.parent.work.stage.AtPublish? ==> choice == t.other)
    case ChildStop(_) => false
    case ChildStep(c, choice) => choice == ChildChoice(s.children[c].pass, t)
    case _ => true
  }

  /** The child's other hashed inputs have settled too, and its own gates are satisfied. */
  function ChildChoice(pass: ChildPass, t: Target): nat {
    if pass.Copied? then t.extra else if pass.Deployed? || pass.Checked? then 1 else 0
  }

  predicate CalmRun(s: State, actions: seq<Action>, t: Target)
    decreases |actions|
  {
    actions != [] ==> Calm(s, actions[0], t) && CalmRun(Step(s, actions[0]), actions[1..], t)
  }

  /** What a stretch of a run has seen so far: passes begun in it, passes completed, rollouts. */
  datatype Watch = Watch(
    parentFresh: bool,
    parentDone: bool,
    childFresh: set<Service>,
    childDone: set<Service>,
    rolled: set<Service>)

  const Unwatched: Watch := Watch(false, false, {}, {}, {})

  /** `IsReadyForInput`: every pod carries the hash of the current template. */
  predicate FullyRolled(ch: Child) {
    ch.template.Some? ==> forall p | p in ch.pods :: p.hash == ch.template.value
  }

  function Observe(s: State, a: Action, w: Watch): Watch {
    match a
    case ParentBegin => w.(parentFresh := w.parentFresh || s.parent.Resting?)
    case ParentCrash => w.(parentFresh := false)
    case ParentStep(_) =>
      if s.parent.Working? && s.parent.work.stage == AtPatch(true)
      then w.(parentFresh := false, parentDone := w.parentDone || w.parentFresh)
      else w
    case ChildBegin(c) =>
      if s.children[c].pass.Idle? && s.children[c].spec.Some? then w.(childFresh := w.childFresh + {c}) else w
    case ChildCrash(c) => w.(childFresh := w.childFresh - {c})
    case ChildStep(c, _) =>
      if s.children[c].pass.Joining? || s.children[c].pass.Checked?
      then w.(childFresh := w.childFresh - {c},
              childDone := if c in w.childFresh then w.childDone + {c} else w.childDone)
      else w
    case _ => w
  }

  function ObserveRollouts(s: State, w: Watch): Watch {
    w.(rolled := w.rolled + set c: Service | FullyRolled(s.children[c]))
  }

  function WatchRun(s: State, actions: seq<Action>, w: Watch): Watch
    decreases |actions|
  {
    if actions == [] then ObserveRollouts(s, w)
    else WatchRun(Step(s, actions[0]), actions[1..], Observe(s, actions[0], ObserveRollouts(s, w)))
  }

  /** Each controller completed a pass begun in this stretch, and each Deployment rolled out. */
  predicate Fair(s: State, actions: seq<Action>) {
    var w := WatchRun(s, actions, Unwatched);
    w.parentDone && w.childDone == AllServices && w.rolled == AllServices
  }

  function RunRounds(s: State, rounds: seq<seq<Action>>): State
    decreases |rounds|
  {
    if rounds == [] then s else RunRounds(Run(s, rounds[0]), rounds[1..])
  }

  predicate FairRounds(s: State, rounds: seq<seq<Action>>, t: Target)
    decreases |rounds|
  {
    rounds != [] ==>
      && CalmRun(s, rounds[0], t) && Fair(s, rounds[0])
      && FairRounds(Run(s, rounds[0]), rounds[1..], t)
  }
}
