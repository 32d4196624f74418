/** The Heat controller's pass as the code runs it: an instance that was read once, changed in
    memory step by step and patched at the end, over a store that is written as it goes.

    Every method is proved against the state machine: what a whole call does to the store is a
    run of the parent's own actions, wherever the pass stopped early or crashed.
 */
module Reconcilers {
  import opened Names
  import opened Cluster
  import opened Protection
  import opened Cleanup
  import opened Rotation

  /** What happens to a pass when it reaches a stage: a gate may send it back, or it may crash. */
  datatype Verdict = Proceed | Return | Crash

  /** Exactly one pass: it begins, then takes the parent's own actions only, and is not cut short
      but where the script says so. */
  predicate OnePass(actions: seq<Action>, script: nat -> Verdict) {
    && actions != [] && actions[0] == ParentBegin
    && forall i {:trigger Scripted(actions[i], script(i))} | 1 <= i < |actions| :: Scripted(actions[i], script(i))
  }

  predicate Scripted(a: Action, v: Verdict) {
    a.ParentStep? || a.PruneOne? || ((a.ParentStop? || a.ParentCrash?) && v != Proceed)
  }

  ghost predicate Uninterrupted(script: nat -> Verdict) {
    forall i: nat :: script(i) == Proceed
  }

  /** Every name a pass will read is there, and so are the secrets. */
  predicate Unhindered(s: State) {
    && s.heat.Some? && TransportThere(s.transportUrl, s.secrets)
    && (s.heat.value.bus ==> NotificationThere(s.notificationUrl, s.secrets))
    && CredentialThere(s.heat.value.credential, s.secrets)
  }

  predicate TransportThere(u: Url, secrets: SecretStore) {
    u.Url? && u.secret.Some? && Transport(u.secret.value) in secrets
  }

  predicate NotificationThere(u: Url, secrets: SecretStore) {
    u.Url? && u.secret.Some? && Notification(u.secret.value) in secrets
  }

  predicate CredentialThere(credential: Option<string>, secrets: SecretStore) {
    credential.Some? ==> Credential(credential.value) in secrets
  }

  /** The last action is the patch of a completed pass. */
  predicate EndsCompleted(s: State, actions: seq<Action>) {
    actions != [] && actions[|actions| - 1].ParentStep?
    && var parent := Run(s, actions[..|actions| - 1]).parent; parent.Working? && parent.work.stage == AtPatch(true)
  }

  /** And that pass found every service confirmed. */
  predicate EndsConfirmed(s: State, actions: seq<Action>) {
    EndsCompleted(s, actions) && AllConfirmed(Run(s, actions[..|actions| - 1]).parent.work)
  }

  /** The states a run goes through. */
  predicate IsPath(path: seq<State>, actions: seq<Action>) {
    && |path| == |actions| + 1
    && forall i {:trigger Step(path[i], actions[i])} | 0 <= i < |actions| :: path[i + 1] == Step(path[i], actions[i])
  }

  lemma PathSnoc(path: seq<State>, actions: seq<Action>, a: Action)
    requires IsPath(path, actions)
    ensures IsPath(path + [Step(path[|actions|], a)], actions + [a])
  {
  }

  lemma {:induction false} PathIsRun(path: seq<State>, actions: seq<Action>)
    requires IsPath(path, actions)
    ensures Run(path[0], actions) == path[|actions|]
    decreases |actions|
  {
    if actions != [] {
      assert IsPath(path[1..], actions[1..]) by {
        forall i | 0 <= i < |actions[1..]| ensures path[1..][i + 1] == Step(path[1..][i], actions[1..][i]) {
          assert path[(i + 1) + 1] == Step(path[i + 1], actions[i + 1]);
        }
      }
      PathIsRun(path[1..], actions[1..]);
    }
  }

  lemma PathBeforeLast(path: seq<State>, actions: seq<Action>)
    requires IsPath(path, actions) && actions != []
    ensures IsPath(path[..|actions|], actions[..|actions| - 1])
    ensures Run(path[0], actions[..|actions| - 1]) == path[|actions| - 1]
  {
    PathIsRun(path[..|actions|], actions[..|actions| - 1]);
  }

  lemma StepPublishes(s: State, w: Work, c: Service, other: nat)
    requires s.parent == Working(w) && w.stage == AtPublish(c)
    ensures AdvanceWork(s, w, other) == Publish(s, w, c, other)
  {
  }

  lemma PruneReleases(s: State, w: Work, n: SecretName, f: Finalizer)
    requires s.parent == Working(w)
    requires w.stage == if f == TransportConsumer then AtPruneTransports else AtPruneCredentials
    requires n in if f == TransportConsumer then StrayTransports(s.secrets, w) else StrayCredentials(s.secrets, w)
    ensures Step(s, PruneOne(n)) == s.(secrets := RemoveFinalizer(s.secrets, n, f))
  {
  }

  /** The API server. */
  class Store {
    var secrets: SecretStore
    var heat: Option<Heat>
    var transportUrl: Url
    var notificationUrl: Url
    var config: Option<Config>
    var children: Children

    constructor (s: State)
      ensures With(s.parent) == s
    {
      secrets, heat, transportUrl, notificationUrl := s.secrets, s.heat, s.transportUrl, s.notificationUrl;
      config, children := s.config, s.children;
    }

    ghost function With(parent: ParentPass): State
      reads this
    {
      State(secrets, heat, transportUrl, notificationUrl, config, children, parent)
    }

    /** Idempotent; fails on a missing secret. */
    method ManageSecretConsumerFinalizer(n: SecretName, f: Finalizer) returns (ok: bool)
      modifies this`secrets
      ensures ok <==> n in old(secrets)
      ensures secrets == if ok then AddFinalizer(old(secrets), n, f) else old(secrets)
    {
      ok := n in secrets;
      if ok {
        secrets := secrets[n := secrets[n] + {f}];
      }
    }

    /** Idempotent; a missing secret is fine. */
    method RemoveSecretConsumerFinalizer(n: SecretName, f: Finalizer)
      modifies this`secrets
      ensures secrets == RemoveFinalizer(old(secrets), n, f)
    {
      if n in secrets {
        secrets := secrets[n := secrets[n] - {f}];
      }
    }

    /** Spec and annotation in one write; the generation moves only when the spec does. */
    method CreateOrUpdateChild(c: Service, spec: ChildSpec, annotation: InputSecretHash) returns (child: Child)
      modifies this`children
      ensures child == old(children[c]).(spec := Some(spec), annotation := annotation, generation := child.generation)
      ensures child.generation == old(children[c]).generation + (if old(children[c]).spec == Some(spec) then 0 else 1)
      ensures children == old(children)[c := child]
    {
      child := children[c];
      if child.spec != Some(spec) {
        child := child.(spec := Some(spec), generation := child.generation + 1);
      }
      child := child.(annotation := annotation);
      children := children[c := child];
    }

    method FinalizeSecretRotation(previous: Option<string>, current: Option<string>,
                                  kind: string -> SecretName, f: Finalizer, ready: bool)
      returns (tracked: Option<string>)
      modifies this`secrets
      ensures (secrets, tracked) == FinalizeRotation(old(secrets), previous, current, kind, f, ready)
      // nothing was tracked: the current name is from now on, whether anybody has confirmed it or not
      ensures previous.None? ==> tracked == current && secrets == old(secrets)
      // the same name, or a new one that is not confirmed yet: nothing moves
      ensures previous.Some? && (previous == current || !ready) ==> tracked == previous && secrets == old(secrets)
      // a superseded name: it loses this finalizer, and nothing else does
      ensures previous.Some? && previous != current && ready ==>
                && tracked == current && secrets.Keys == old(secrets).Keys
                && forall n, g :: Holds(secrets, n, g)
                                  <==> Holds(old(secrets), n, g) && (n, g) != (kind(previous.value), f)
    {
      tracked := current;
      if previous.Some? && previous != current {
        if ready {
          RemoveSecretConsumerFinalizer(kind(previous.value), f);
        } else {
          tracked := previous;
        }
      }
    }
  }

  /** One pass over a live Heat. */
  class Pass {
    const store: Store
    // the instance and the local variables of reconcileNormal
    const credential: Option<string>
    const bus: bool
    var tracked: Tracked
    var transport: string
    var notification: Option<string>
    var confirmed: set<Service>
    var ready: bool
    // where the pass is, and the run it has been so far
    ghost var stage: Stage
    var over: bool
    var steps: nat
    const script: nat -> Verdict
    ghost const start: State
    ghost var trace: seq<Action>
    ghost var path: seq<State>

    ghost function Locals(): Work
      reads this
    {
      Work(stage, credential, bus, tracked, transport, notification, confirmed, ready)
    }

    ghost function View(): State
      reads this, store
    {
      store.With(if over then Resting else Working(Locals()))
    }

    ghost predicate Valid()
      reads this, store
    {
      && IsPath(path, trace) && path[0] == start && path[|trace|] == View()
      && OnePass(trace, script) && |trace| == steps
      && (over && !stage.AtPatch? ==> trace[|trace| - 1] == ParentCrash)
    }

    /** The journal is in order; the last change may still have to be recorded. */
    ghost predicate Recorded()
      reads this, store
    {
      IsPath(path, trace) && path[0] == start && OnePass(trace, script) && |trace| == steps
    }

    /** The pass has crashed, or has only the patch of an early return left to do. */
    ghost predicate CutShort()
      reads this
    {
      if over then !stage.AtPatch? else stage == AtPatch(false)
    }

    constructor (s: Store, script: nat -> Verdict)
      requires s.heat.Some? && s.heat.value.finalizer && !s.heat.value.deleting
      ensures Valid() && !over && stage == AtTransport && store == s && start == s.With(Resting)
              && this.script == script
      ensures credential == s.heat.value.credential && bus == s.heat.value.bus
    {
      store := s;
      credential, bus, tracked := s.heat.value.credential, s.heat.value.bus, s.heat.value.tracked;
      transport, notification, confirmed, ready := "", None, {}, false;
      stage, over, start, trace := AtTransport, false, s.With(Resting), [ParentBegin];
      steps, this.script := 1, script;
      path := [s.With(Resting), Begin(s.With(Resting))];
    }

    /** The pass has done, in memory and in the store, what one action does. */
    method Record(ghost a: Action)
      requires Scripted(a, script(steps)) && OnePass(trace, script) && |trace| == steps
      requires IsPath(path, trace) && path[0] == start && View() == Step(path[|trace|], a)
      requires over && !stage.AtPatch? ==> a == ParentCrash
      modifies this`trace, this`path, this`steps
      ensures Valid() && trace == old(trace) + [a]
    {
      hide Step;
      PathSnoc(path, trace, a);
      path := path + [Step(path[|trace|], a)];
      trace := trace + [a];
      steps := steps + 1;
    }

    /** The same for a step of the pass, from the locals it had before. */
    method RecordStep(ghost w: Work, ghost choice: nat)
      requires Recorded() && path[|trace|].parent == Working(w) && View() == AdvanceWork(path[|trace|], w, choice)
      requires over ==> stage.AtPatch?
      modifies this`trace, this`path, this`steps
      ensures Valid() && trace == old(trace) + [ParentStep(choice)]
    {
      hide Valid;
      Record(ParentStep(choice));
    }

    /** A gate: an early return leaves the deferred patch to be done, a crash leaves nothing. */
    method Gate() returns (go: bool)
      requires Valid() && !over && !stage.AtPatch?
      modifies this`stage, this`over, this`trace, this`path, this`steps
      ensures Valid()
      ensures go <==> script(old(steps)) == Proceed
      ensures if go then !over && stage == old(stage) && trace == old(trace) else CutShort()
    {
      hide IsPath, OnePass;
      go := script(steps) == Proceed;
      if script(steps) == Return {
        stage := AtPatch(false);
        Record(ParentStop);
      } else if script(steps) == Crash {
        over := true;
        Record(ParentCrash);
      }
    }

    method CreateOrUpdateTransportUrl() returns (ok: bool)
      requires Valid() && !over && stage == AtTransport
      modifies this`transport, this`tracked, this`stage, this`trace, this`path, this`steps, store`transportUrl
      ensures Valid() && !over && trace == old(trace) + [ParentStep(0)]
      ensures store.transportUrl == Ensured(old(store.transportUrl)) && (ok <==> store.transportUrl.secret.Some?)
      ensures if ok then
                && stage == AtProtectTransport && Some(transport) == store.transportUrl.secret
                && tracked == old(tracked).(transport := TrackFirst(old(tracked).transport, transport))
              else stage == AtPatch(false) && tracked == old(tracked)
    {
      hide IsPath, OnePass;
      ghost var w := Locals();
      if store.transportUrl.NoUrl? {
        store.transportUrl := Url(None);
      }
      var secret := store.transportUrl.secret;
      ok := secret.Some?;
      if ok {
        transport := secret.value;
        // set early for first-time setup only
        if tracked.transport.None? {
          tracked := tracked.(transport := secret);
        }
        stage := AtProtectTransport;
      } else {
        stage := AtPatch(false);
      }
      RecordStep(w, 0);
    }

    method CreateOrUpdateNotificationsUrl() returns (ok: bool)
      requires Valid() && !over && stage == AtNotification
      modifies this`notification, this`tracked, this`stage, this`trace, this`path, this`steps, store`notificationUrl
      ensures Valid() && !over && trace == old(trace) + [ParentStep(0)]
      ensures stage == if !ok then AtPatch(false) else if bus then AtProtectNotification else AtConfig
      ensures if bus then
                && store.notificationUrl == Ensured(old(store.notificationUrl))
                && (ok <==> store.notificationUrl.secret.Some?)
              else ok && store.notificationUrl == old(store.notificationUrl)
      ensures if ok && bus then
                && notification.Some? && notification == store.notificationUrl.secret
                && tracked == old(tracked).(notification := TrackFirst(old(tracked).notification, notification.value))
              else notification == old(notification) && tracked == old(tracked)
    {
      hide IsPath, OnePass;
      ghost var w := Locals();
      ok := true;
      if bus {
        if store.notificationUrl.NoUrl? {
          store.notificationUrl := Url(None);
        }
        var secret := store.notificationUrl.secret;
        ok := secret.Some?;
        if ok {
          notification := secret;
          if tracked.notification.None? {
            tracked := tracked.(notification := secret);
          }
          stage := AtProtectNotification;
        } else {
          stage := AtPatch(false);
        }
      } else {
        stage := AtConfig;
      }
      RecordStep(w, 0);
    }

    /** The finalizer goes on before anything refers to the secret. */
    method Protect(n: SecretName, f: Finalizer, ghost next: Stage) returns (ok: bool)
      requires Valid() && !over && NextProtected(Locals(), n, f, next)
      modifies this`stage, this`trace, this`path, this`steps, store`secrets
      ensures Valid() && !over && trace == old(trace) + [ParentStep(0)]
      ensures stage == (if ok then next else AtPatch(false)) && (ok <==> n in old(store.secrets))
      ensures store.secrets == if ok then AddFinalizer(old(store.secrets), n, f) else old(store.secrets)
    {
      hide IsPath, OnePass;
      ghost var w := Locals();
      ok := store.ManageSecretConsumerFinalizer(n, f);
      stage := if ok then next else AtPatch(false);
      RecordStep(w, 0);
    }

    method GenerateServiceSecrets(rest: nat)
      requires Valid() && !over && stage == AtConfig
      modifies this`stage, this`trace, this`path, this`steps, store`config
      ensures Valid() && !over && stage == AtProtectCredential && trace == old(trace) + [ParentStep(rest)]
      ensures store.config == Some(Config(Names(transport, notification, credential), rest))
    {
      ghost var w := Locals();
      store.config := Some(Config(Names(transport, notification, credential), rest));
      stage := AtProtectCredential;
      RecordStep(w, rest);
    }

    method ProtectCredential() returns (ok: bool)
      requires Valid() && !over && stage == AtProtectCredential
      modifies this`stage, this`trace, this`path, this`steps, store`secrets
      ensures Valid() && !over && trace == old(trace) + [ParentStep(0)]
      ensures stage == if ok then AtPublish(Engine) else AtPatch(false)
      ensures ok <==> CredentialThere(credential, old(store.secrets))
      ensures store.secrets == if ok && credential.Some?
                               then AddFinalizer(old(store.secrets), Credential(credential.value), CredentialConsumer)
                               else old(store.secrets)
    {
      hide IsPath, OnePass;
      if credential.Some? {
        ok := Protect(Credential(credential.value), CredentialConsumer, AtPublish(Engine));
      } else {
        ok := true;
        stage := AtPublish(Engine);
        Record(ParentStep(0));
      }
    }

    /** The child object as this pass publishes it. */
    method PublishSpec(c: Service, other: nat, expected: InputSecretHash) returns (child: Child)
      requires expected == ExpectedHash(Names(transport, notification, credential))
      modifies store`children
      ensures child == PublishChild(old(store.children[c]), Locals(), other)
      ensures store.children == old(store.children)[c := child]
    {
      child := store.CreateOrUpdateChild(c, ChildSpec(transport, credential, other), expected);
    }

    /** The child is published, and counts as confirmed if what came back says so. */
    method DeploymentCreateOrUpdate(c: Service, other: nat)
      requires Valid() && !over && stage == AtPublish(c)
      modifies this`stage, this`confirmed, this`trace, this`path, this`steps, store`children
      ensures Valid() && !over && stage == AfterPublish(c) && trace == old(trace) + [ParentStep(other)]
      ensures store.children == old(store.children)[c := PublishChild(old(store.children[c]), old(Locals()), other)]
      ensures var child, expected := store.children[c], ExpectedHash(Names(transport, notification, credential));
              confirmed == if child.status.observed == child.generation && child.status.applied == expected
                              && child.status.ready then old(confirmed) + {c} else old(confirmed)
    {
      hide IsPath, OnePass, Publish, PublishChild;
      ghost var w := Locals();
      PublishAndCount(c, other);
      RecordPublish(w, c, other);
    }

    method PublishAndCount(c: Service, other: nat)
      requires !over && stage == AtPublish(c)
      modifies this`stage, this`confirmed, store`children
      ensures View() == Publish(old(View()), old(Locals()), c, other) && stage == AfterPublish(c)
      ensures store.children == old(store.children)[c := PublishChild(old(store.children[c]), old(Locals()), other)]
      ensures var expected := ExpectedHash(Names(transport, notification, credential));
              confirmed == if Confirms(store.children[c], expected) then old(confirmed) + {c} else old(confirmed)
    {
      hide PublishChild;
      var expected := ExpectedHash(Names(transport, notification, credential));
      var child := PublishSpec(c, other, expected);
      Count(c, child, expected);
      stage := AfterPublish(c);
    }

    /** Observed its latest generation, applied the expected hash, and Ready. */
    method Count(c: Service, child: Child, expected: InputSecretHash)
      modifies this`confirmed
      ensures confirmed == if Confirms(child, expected) then old(confirmed) + {c} else old(confirmed)
    {
      if child.generation == child.status.observed && child.status.applied == expected && child.status.ready {
        confirmed := confirmed + {c};
      }
    }

    method RecordPublish(ghost w: Work, ghost c: Service, ghost other: nat)
      requires Recorded() && path[|trace|].parent == Working(w) && w.stage == AtPublish(c) && !over
      requires View() == Publish(path[|trace|], w, c, other)
      modifies this`trace, this`path, this`steps
      ensures Valid() && trace == old(trace) + [ParentStep(other)]
    {
      hide Valid;
      StepPublishes(path[|trace|], w, c, other);
      RecordStep(w, other);
    }

    method FinalizeCredential()
      requires Valid() && !over && stage == AtFinalizeCredential
      modifies this`tracked, this`ready, this`stage, this`trace, this`path, this`steps, store`secrets
      ensures Valid() && !over && stage == AtFinalizeTransport && trace == old(trace) + [ParentStep(0)]
      ensures tracked == old(tracked).(credential := tracked.credential) && ready == (confirmed == AllServices)
      ensures (store.secrets, tracked.credential)
              == FinalizeRotation(old(store.secrets), old(tracked).credential, credential, x => Credential(x),
                                  CredentialConsumer, ready)
      ensures tracked.credential
              == if old(tracked).credential.None? || ready then credential else old(tracked).credential
    {
      hide IsPath, OnePass, RemoveFinalizer;
      ghost var w := Locals();
      var allServicesReady := confirmed == AllServices;
      var name := store.FinalizeSecretRotation(tracked.credential, credential, x => Credential(x), CredentialConsumer,
                                               allServicesReady);
      tracked := tracked.(credential := name);
      ready := allServicesReady;
      stage := AtFinalizeTransport;
      RecordStep(w, 0);
    }

    method FinalizeTransport()
      requires Valid() && !over && stage == AtFinalizeTransport
      modifies this`tracked, this`stage, this`trace, this`path, this`steps, store`secrets
      ensures Valid() && !over && stage == AtFinalizeNotification && trace == old(trace) + [ParentStep(0)]
      ensures tracked == old(tracked).(transport := tracked.transport)
      ensures (store.secrets, tracked.transport)
              == FinalizeRotation(old(store.secrets), old(tracked).transport, Some(transport), x => Transport(x),
                                  TransportConsumer, confirmed == AllServices)
      ensures tracked.transport
              == if old(tracked).transport.None? || confirmed == AllServices then Some(transport)
                 else old(tracked).transport
    {
      hide IsPath, OnePass;
      ghost var w := Locals();
      var name := store.FinalizeSecretRotation(tracked.transport, Some(transport), x => Transport(x), TransportConsumer,
                                               confirmed == AllServices);
      tracked := tracked.(transport := name);
      stage := AtFinalizeNotification;
      RecordStep(w, 0);
    }

    /** Release, delete, clear: an interruption in between is repaired by the next pass. */
    method TearDownNotifications() returns (ok: bool)
      requires Valid() && !over && stage == AtFinalizeNotification
      requires notification.None? && tracked.notification.Some? && AllConfirmed(Locals())
      modifies this`tracked, this`stage, this`over, this`trace, this`path, this`steps, store`secrets,
               store`notificationUrl
      ensures Valid() && (if ok then !over && stage == AtPruneTransports else CutShort())
      ensures Uninterrupted(script) ==> ok
      ensures store.secrets
              == RemoveFinalizer(old(store.secrets), Notification(old(tracked).notification.value), TransportConsumer)
      ensures if ok then
                && store.notificationUrl.NoUrl? && tracked == old(tracked).(notification := None)
                && trace == old(trace) + [ParentStep(0), ParentStep(0)]
              else store.notificationUrl == old(store.notificationUrl) && tracked == old(tracked)
    {
      hide Valid;
      ReleaseNotifications();
      ok := Gate();
      if ok {
        DeleteNotificationsUrl();
      }
    }

    method ReleaseNotifications()
      requires Valid() && !over && stage == AtFinalizeNotification
      requires notification.None? && tracked.notification.Some? && AllConfirmed(Locals())
      modifies this`stage, this`trace, this`path, this`steps, store`secrets
      ensures Valid() && !over && stage == AtDeleteBus && trace == old(trace) + [ParentStep(0)]
      ensures store.secrets
              == RemoveFinalizer(old(store.secrets), Notification(tracked.notification.value), TransportConsumer)
    {
      ghost var w := Locals();
      store.RemoveSecretConsumerFinalizer(Notification(tracked.notification.value), TransportConsumer);
      stage := AtDeleteBus;
      RecordStep(w, 0);
    }

    method DeleteNotificationsUrl()
      requires Valid() && !over && stage == AtDeleteBus
      modifies this`tracked, this`stage, this`trace, this`path, this`steps, store`notificationUrl
      ensures Valid() && !over && stage == AtPruneTransports && trace == old(trace) + [ParentStep(0)]
      ensures store.notificationUrl.NoUrl? && tracked == old(tracked).(notification := None)
    {
      ghost var w := Locals();
      store.notificationUrl := NoUrl;
      tracked := tracked.(notification := None);
      stage := AtPruneTransports;
      RecordStep(w, 0);
    }

    method FinalizeNotification() returns (ok: bool)
      requires Valid() && !over && stage == AtFinalizeNotification
      modifies this`tracked, this`stage, this`over, this`trace, this`path, this`steps, store`secrets,
               store`notificationUrl
      ensures Valid() && (if ok then !over && stage == AtPruneTransports else CutShort())
      ensures Uninterrupted(script) ==> ok
      // with the bus on, a rotation
      ensures notification.Some? ==>
                && ok && tracked == old(tracked).(notification := tracked.notification)
                && (store.secrets, tracked.notification)
                   == FinalizeRotation(old(store.secrets), old(tracked).notification, notification,
                                       x => Notification(x),
                                       TransportConsumer, confirmed == AllServices)
      // with the bus off, the teardown once every service is confirmed
      ensures notification.None? && old(tracked).notification.Some? && confirmed == AllServices ==>
                store.secrets == RemoveFinalizer(old(store.secrets), Notification(old(tracked).notification.value),
                                                 TransportConsumer)
                && (ok ==> store.notificationUrl.NoUrl? && tracked == old(tracked).(notification := None))
      // and otherwise nothing
      ensures notification.None? && (old(tracked).notification.None? || confirmed != AllServices) ==>
                ok && store.secrets == old(store.secrets) && tracked == old(tracked)
      ensures store.notificationUrl == old(store.notificationUrl)
              || (notification.None? && old(tracked).notification.Some? && confirmed == AllServices)
    {
      hide Valid;
      if notification.None? && tracked.notification.Some? && confirmed == AllServices {
        ok := TearDownNotifications();
        return;
      }
      ok := true;
      if notification.Some? {
        RotateNotifications();
      } else {
        LeaveNotifications();
      }
    }

    /** Nothing is tracked, or not every service is confirmed yet. */
    method LeaveNotifications()
      requires Valid() && !over && stage == AtFinalizeNotification && notification.None?
      requires tracked.notification.None? || confirmed != AllServices
      modifies this`stage, this`trace, this`path, this`steps
      ensures Valid() && !over && stage == AtPruneTransports && trace == old(trace) + [ParentStep(0)]
    {
      ghost var w := Locals();
      stage := AtPruneTransports;
      RecordStep(w, 0);
    }

    method RotateNotifications()
      requires Valid() && !over && stage == AtFinalizeNotification && notification.Some?
      modifies this`tracked, this`stage, this`trace, this`path, this`steps, store`secrets
      ensures Valid() && !over && stage == AtPruneTransports && trace == old(trace) + [ParentStep(0)]
      ensures tracked == old(tracked).(notification := tracked.notification)
      ensures (store.secrets, tracked.notification)
              == FinalizeRotation(old(store.secrets), old(tracked).notification, notification, x => Notification(x),
                                  TransportConsumer, confirmed == AllServices)
    {
      hide IsPath, OnePass;
      ghost var w := Locals();
      var name := store.FinalizeSecretRotation(tracked.notification, notification, x => Notification(x),
                                               TransportConsumer, confirmed == AllServices);
      tracked := tracked.(notification := name);
      stage := AtPruneTransports;
      RecordStep(w, 0);
    }

    ghost predicate Pruning(f: Finalizer)
      reads this
    {
      && !over && AllConfirmed(Locals())
      && stage == if f == TransportConsumer then AtPruneTransports else AtPruneCredentials
    }

    ghost function Kept(f: Finalizer): set<SecretName>
      reads this
    {
      if f == TransportConsumer then KeptTransports(Locals()) else KeptCredentials(Locals())
    }

    method ReleaseStray(n: SecretName, f: Finalizer) returns (ok: bool)
      requires Valid() && Pruning(f) && n in Holders(store.secrets, f) - Kept(f)
      modifies this`stage, this`over, this`trace, this`path, this`steps, store`secrets
      ensures Valid() && (if ok then stage == old(stage) && over == old(over) else CutShort())
      ensures (Uninterrupted(script) ==> ok) && (ok ==> trace == old(trace) + [PruneOne(n)])
      ensures store.secrets == if ok then RemoveFinalizer(old(store.secrets), n, f) else old(store.secrets)
      ensures Holders(store.secrets, f) == Holders(old(store.secrets), f) - (if ok then {n} else {})
    {
      hide OnePass;
      RemovalShrinksHolders(store.secrets, n, f, f);
      ok := Gate();
      if ok {
        PruneReleases(path[|trace|], Locals(), n, f);
        store.RemoveSecretConsumerFinalizer(n, f);
        Record(PruneOne(n));
      }
    }

    /** Every secret in the namespace outside `keep` loses the finalizer, unless the pass is interrupted. */
    method PruneSecretConsumerFinalizers(f: Finalizer, keep: set<SecretName>) returns (ok: bool)
      requires Valid() && Pruning(f) && keep == Kept(f)
      modifies this`stage, this`over, this`trace, this`path, this`steps, store`secrets
      ensures Valid() && (if ok then Pruning(f) else CutShort()) && (Uninterrupted(script) ==> ok)
      ensures Holders(store.secrets, f) <= Holders(old(store.secrets), f)
      ensures Holders(old(store.secrets), f) * keep <= Holders(store.secrets, f)
      ensures ok ==> Holders(store.secrets, f) <= keep
    {
      hide Valid;
      ok := true;
      var stray := Holders(store.secrets, f) - keep;
      while stray != {} && ok
        invariant Valid() && (if ok then Pruning(f) else CutShort()) && (Uninterrupted(script) ==> ok)
        invariant ok ==> stray == Holders(store.secrets, f) - keep
        invariant Holders(store.secrets, f) <= Holders(old(store.secrets), f)
        invariant Holders(old(store.secrets), f) * keep <= Holders(store.secrets, f)
        decreases stray, ok
      {
        var n :| n in stray;
        ok := ReleaseStray(n, f);
        stray := stray - {n};
      }
    }

    /** No stray is left, and the pass moves on. */
    method AfterPrune(ghost f: Finalizer)
      requires Valid() && !over && stage == (if f == TransportConsumer then AtPruneTransports else AtPruneCredentials)
      requires AllConfirmed(Locals()) ==> Holders(store.secrets, f) <= Kept(f)
      modifies this`stage, this`trace, this`path, this`steps
      ensures Valid() && stage == if f == TransportConsumer then AtPruneCredentials else AtPatch(true)
    {
      hide IsPath, OnePass;
      ghost var w := Locals();
      stage := if f == TransportConsumer then AtPruneCredentials else AtPatch(true);
      RecordStep(w, 0);
    }

    method PruneTransports() returns (ok: bool)
      requires Valid() && !over && stage == AtPruneTransports
      modifies this`stage, this`over, this`trace, this`path, this`steps, store`secrets
      ensures Valid() && (if ok then !over && stage == AtPruneCredentials else CutShort())
      ensures Uninterrupted(script) ==> ok
      ensures ok && AllConfirmed(Locals()) ==> Holders(store.secrets, TransportConsumer) <= Kept(TransportConsumer)
    {
      hide Valid;
      ok := true;
      if confirmed == AllServices {
        var keep := KeptTransports(Work(AtPruneTransports, credential, bus, tracked, transport, notification,
                                        confirmed, ready));
        ok := PruneSecretConsumerFinalizers(TransportConsumer, keep);
      }
      if ok {
        AfterPrune(TransportConsumer);
      }
    }

    method PruneCredentials() returns (ok: bool)
      requires Valid() && !over && stage == AtPruneCredentials
      modifies this`stage, this`over, this`trace, this`path, this`steps, store`secrets
      ensures Valid() && (if ok then !over && stage == AtPatch(true) else CutShort())
      ensures Uninterrupted(script) ==> ok
      ensures ok && AllConfirmed(Locals()) ==> Holders(store.secrets, CredentialConsumer) <= Kept(CredentialConsumer)
    {
      hide Valid;
      ok := true;
      if confirmed == AllServices {
        var keep := KeptCredentials(Work(AtPruneCredentials, credential, bus, tracked, transport, notification,
                                         confirmed, ready));
        ok := PruneSecretConsumerFinalizers(CredentialConsumer, keep);
      }
      if ok {
        AfterPrune(CredentialConsumer);
      }
    }

    /** The deferred patch of status and Ready condition. */
    method PatchInstance()
      requires Valid() && !over && stage.AtPatch?
      modifies this`over, this`trace, this`path, this`steps, store`heat
      ensures Valid() && over && trace == old(trace) + [ParentStep(0)]
      ensures store.heat == if old(store.heat).None? then None
                            else Some(old(store.heat).value.(tracked := tracked, ready := ready))
    {
      hide IsPath, OnePass;
      ghost var w := Locals();
      if store.heat.Some? {
        store.heat := Some(store.heat.value.(tracked := tracked, ready := ready));
      }
      over := true;
      RecordStep(w, 0);
    }

    /** The two halves of what comes before the configuration names the transport secret. */
    method ReadTransport() returns (ok: bool)
      requires Valid() && !over && stage == AtTransport
      modifies this`transport, this`tracked, this`stage, this`over, this`trace, this`path, this`steps,
               store`transportUrl
      ensures Valid() && (if ok then !over && stage == AtProtectTransport else CutShort())
      ensures ok ==> store.transportUrl == Url(Some(transport))
      ensures Uninterrupted(script) ==>
                (ok <==> old(store.transportUrl).Url? && old(store.transportUrl).secret.Some?)
                && (ok ==> store.transportUrl == old(store.transportUrl))
    {
      hide Valid;
      ok := Gate();
      if ok {
        ok := CreateOrUpdateTransportUrl();
      }
    }

    method ProtectTransport() returns (ok: bool)
      requires Valid() && !over && stage == AtProtectTransport
      modifies this`stage, this`over, this`trace, this`path, this`steps, store`secrets
      ensures Valid() && (if ok then !over && stage == AtNotification else CutShort())
      ensures store.secrets.Keys == old(store.secrets).Keys
      ensures ok ==> Holds(store.secrets, Transport(transport), TransportConsumer)
      ensures Uninterrupted(script) ==> (ok <==> Transport(transport) in old(store.secrets))
    {
      hide Valid;
      ok := Gate();
      if ok {
        ok := Protect(Transport(transport), TransportConsumer, AtNotification);
      }
    }

    /** The TransportURL's secret is protected before the configuration names it. */
    method EnsureTransport() returns (ok: bool)
      requires Valid() && !over && stage == AtTransport
      modifies this`transport, this`tracked, this`stage, this`over, this`trace, this`path, this`steps
      modifies store`transportUrl, store`secrets
      ensures Valid() && (if ok then !over && stage == AtNotification else CutShort())
      ensures store.secrets.Keys == old(store.secrets).Keys
      ensures ok ==> store.transportUrl == Url(Some(transport))
                     && Holds(store.secrets, Transport(transport), TransportConsumer)
      ensures Uninterrupted(script) ==> (ok <==> TransportThere(old(store.transportUrl), old(store.secrets)))
    {
      hide Valid;
      ok := ReadTransport();
      if ok {
        ok := ProtectTransport();
      }
    }

    method ReadNotifications() returns (ok: bool)
      requires Valid() && !over && stage == AtNotification
      modifies this`notification, this`tracked, this`stage, this`over, this`trace, this`path, this`steps
      modifies store`notificationUrl
      ensures Valid()
      ensures if ok then !over && stage == (if bus then AtProtectNotification else AtConfig) else CutShort()
      ensures ok && bus ==> notification.Some? && store.notificationUrl == Url(notification)
      ensures Uninterrupted(script) ==>
                && (ok <==> (bus ==> old(store.notificationUrl).Url? && old(store.notificationUrl).secret.Some?))
                && (ok ==> store.notificationUrl == old(store.notificationUrl))
    {
      hide Valid;
      ok := Gate();
      if ok {
        ok := CreateOrUpdateNotificationsUrl();
      }
    }

    method ProtectNotifications() returns (ok: bool)
      requires Valid() && !over && stage == AtProtectNotification && notification.Some?
      modifies this`stage, this`over, this`trace, this`path, this`steps, store`secrets
      ensures Valid() && (if ok then !over && stage == AtConfig else CutShort())
      ensures store.secrets.Keys == old(store.secrets).Keys
      ensures ok ==> Holds(store.secrets, Notification(notification.value), TransportConsumer)
      ensures Uninterrupted(script) ==> (ok <==> Notification(notification.value) in old(store.secrets))
    {
      hide Valid;
      ok := Gate();
      if ok {
        ok := Protect(Notification(notification.value), TransportConsumer, AtConfig);
      }
    }

    method EnsureNotifications() returns (ok: bool)
      requires Valid() && !over && stage == AtNotification
      modifies this`notification, this`tracked, this`stage, this`over, this`trace, this`path, this`steps
      modifies store`notificationUrl, store`secrets
      ensures Valid() && (if ok then !over && stage == AtConfig else CutShort())
      ensures store.secrets.Keys == old(store.secrets).Keys
      ensures ok && bus ==> store.notificationUrl == Url(notification) && notification.Some?
                            && Holds(store.secrets, Notification(notification.value), TransportConsumer)
      ensures Uninterrupted(script) ==>
                (ok <==> (bus ==> NotificationThere(old(store.notificationUrl), old(store.secrets))))
    {
      hide Valid;
      ok := ReadNotifications();
      if ok && bus {
        ok := ProtectNotifications();
      }
    }

    method Render(rest: nat) returns (ok: bool)
      requires Valid() && !over && stage == AtConfig
      modifies this`stage, this`over, this`trace, this`path, this`steps, store`config
      ensures Valid() && (if ok then !over && stage == AtProtectCredential else CutShort())
      ensures ok ==> store.config == Some(Config(Names(transport, notification, credential), rest))
      ensures Uninterrupted(script) ==> ok
    {
      hide Valid;
      ok := Gate();
      if ok {
        GenerateServiceSecrets(rest);
      }
    }

    method ProtectRendered() returns (ok: bool)
      requires Valid() && !over && stage == AtProtectCredential
      modifies this`stage, this`over, this`trace, this`path, this`steps, store`secrets
      ensures Valid() && (if ok then !over && stage == AtPublish(Engine) else CutShort())
      ensures ok ==> CredentialHeld(store.secrets, credential)
      ensures Uninterrupted(script) ==> (ok <==> CredentialThere(credential, old(store.secrets)))
    {
      hide Valid;
      ok := Gate();
      if ok {
        ok := ProtectCredential();
      }
    }

    /** The configuration first, the credential's finalizer second. */
    method RenderAndProtect(rest: nat) returns (ok: bool)
      requires Valid() && !over && stage == AtConfig
      modifies this`stage, this`over, this`trace, this`path, this`steps, store`config, store`secrets
      ensures Valid() && (if ok then !over && stage == AtPublish(Engine) else CutShort())
      ensures ok ==> store.config == Some(Config(Names(transport, notification, credential), rest))
      ensures ok ==> CredentialHeld(store.secrets, credential)
      ensures Uninterrupted(script) ==> (ok <==> CredentialThere(credential, old(store.secrets)))
    {
      hide Valid;
      ok := Render(rest);
      if ok {
        ok := ProtectRendered();
      }
    }

    ghost predicate PublishedAs(c: Service, other: nat)
      reads this, store
    {
      && store.children[c].spec == Some(ChildSpec(transport, credential, other))
      && store.children[c].annotation == ExpectedHash(Names(transport, notification, credential))
    }

    method Deploy(c: Service, other: nat) returns (ok: bool)
      requires Valid() && !over && stage == AtPublish(c)
      modifies this`stage, this`over, this`confirmed, this`trace, this`path, this`steps, store`children
      ensures Valid() && (if ok then !over && stage == AfterPublish(c) else CutShort())
      ensures ok ==> PublishedAs(c, other)
      ensures forall d: Service | d != c :: store.children[d] == old(store.children[d])
      ensures Uninterrupted(script) ==> ok
    {
      hide Valid;
      ok := Gate();
      if ok {
        DeploymentCreateOrUpdate(c, other);
      }
    }

    method DeployAll(other: nat) returns (ok: bool)
      requires Valid() && !over && stage == AtPublish(Engine)
      modifies this`stage, this`over, this`confirmed, this`trace, this`path, this`steps, store`children
      ensures Valid() && (if ok then !over && stage == AtFinalizeCredential else CutShort())
      ensures ok ==> PublishedAs(Engine, other) && PublishedAs(Api, other) && PublishedAs(CfnApi, other)
      ensures Uninterrupted(script) ==> ok
    {
      hide Valid;
      ok := Deploy(Engine, other);
      if ok {
        ok := DeployApis(other);
      }
    }

    method DeployApis(other: nat) returns (ok: bool)
      requires Valid() && !over && stage == AtPublish(Api)
      modifies this`stage, this`over, this`confirmed, this`trace, this`path, this`steps, store`children
      ensures Valid() && (if ok then !over && stage == AtFinalizeCredential else CutShort())
      ensures ok ==> PublishedAs(Api, other) && PublishedAs(CfnApi, other)
      ensures store.children[Engine] == old(store.children[Engine]) && (Uninterrupted(script) ==> ok)
    {
      hide Valid;
      ok := Deploy(Api, other);
      if ok {
        ok := Deploy(CfnApi, other);
      }
    }

    method FinalizeRotations() returns (ok: bool)
      requires Valid() && !over && stage == AtFinalizeCredential
      modifies this`tracked, this`ready, this`stage, this`over, this`trace, this`path, this`steps
      modifies store`secrets, store`notificationUrl
      ensures Valid() && (if ok then !over && stage == AtPruneTransports else CutShort())
      ensures Uninterrupted(script) ==> ok
    {
      hide Valid;
      ok := Gate();
      if ok {
        FinalizeCredential();
        ok := Gate();
      }
      if ok {
        FinalizeTransport();
        ok := Gate();
      }
      if ok {
        ok := FinalizeNotification();
      }
    }

    method PruneAll() returns (ok: bool)
      requires Valid() && !over && stage == AtPruneTransports
      modifies this`stage, this`over, this`trace, this`path, this`steps, store`secrets
      ensures Valid() && (if ok then !over && stage == AtPatch(true) else CutShort())
      ensures Uninterrupted(script) ==> ok
    {
      hide Valid;
      ok := PruneTransports();
      if ok {
        ok := PruneCredentials();
      }
    }

    /** Everything up to the configuration and its credential. */
    method Prepare(rest: nat) returns (ok: bool)
      requires Valid() && !over && stage == AtTransport
      modifies this`transport, this`notification, this`tracked, this`stage, this`over, this`trace, this`path, this`steps
      modifies store`transportUrl, store`notificationUrl, store`secrets, store`config
      ensures Valid() && (if ok then !over && stage == AtPublish(Engine) else CutShort())
      ensures ok ==> store.config == Some(Config(Names(transport, notification, credential), rest))
      ensures Uninterrupted(script) ==>
                (ok <==> TransportThere(old(store.transportUrl), old(store.secrets))
                         && (bus ==> NotificationThere(old(store.notificationUrl), old(store.secrets)))
                         && CredentialThere(credential, old(store.secrets)))
    {
      hide Valid;
      ok := EnsureTransport();
      if ok {
        ok := EnsureNotifications();
      }
      if ok {
        ok := RenderAndProtect(rest);
      }
    }

    /** Everything after it: the children, the rotations and the prunes. */
    method Complete(other: nat) returns (ok: bool)
      requires Valid() && !over && stage == AtPublish(Engine)
      modifies this`tracked, this`ready, this`confirmed, this`stage, this`over, this`trace, this`path, this`steps
      modifies store`children, store`secrets, store`notificationUrl
      ensures Valid() && (if ok then !over && stage == AtPatch(true) else CutShort())
      ensures ok ==> PublishedAs(Engine, other) && PublishedAs(Api, other) && PublishedAs(CfnApi, other)
      ensures Uninterrupted(script) ==> ok
    {
      hide Valid;
      ok := DeployAll(other);
      if ok {
        ok := Conclude();
      }
    }

    method Conclude() returns (ok: bool)
      requires Valid() && !over && stage == AtFinalizeCredential
      modifies this`tracked, this`ready, this`stage, this`over, this`trace, this`path, this`steps
      modifies store`secrets, store`notificationUrl
      ensures Valid() && (if ok then !over && stage == AtPatch(true) else CutShort())
      ensures Uninterrupted(script) ==> ok
    {
      hide Valid;
      ok := FinalizeRotations();
      if ok {
        ok := PruneAll();
      }
    }

    /** `reconcileNormal`: completed, returned early with the patch to come, or crashed. It completes
        if nothing interrupts it and, exactly, every name it reads and every secret it needs is there. */
    method ReconcileNormal(rest: nat, other: nat) returns (ok: bool)
      requires Valid() && !over && stage == AtTransport
      modifies this, store`transportUrl, store`notificationUrl, store`secrets, store`config, store`children
      ensures Valid() && (if ok then !over && stage == AtPatch(true) else CutShort())
      ensures ok ==> store.config == Some(Config(Names(transport, notification, credential), rest))
      ensures ok ==> PublishedAs(Engine, other) && PublishedAs(Api, other) && PublishedAs(CfnApi, other)
      ensures Uninterrupted(script) ==>
                (ok <==> TransportThere(old(store.transportUrl), old(store.secrets))
                         && (bus ==> NotificationThere(old(store.notificationUrl), old(store.secrets)))
                         && CredentialThere(credential, old(store.secrets)))
    {
      hide Valid;
      ok := Prepare(rest);
      if ok {
        ok := Complete(other);
      }
    }
  }

  /** The tracked secrets, and those that the TransportURLs have now. */
  ghost predicate NamesTransports(names: seq<SecretName>, tracked: Tracked, transportUrl: Url, notificationUrl: Url) {
    && (forall x :: Transport(x) in names <==> tracked.transport == Some(x) || transportUrl == Url(Some(x)))
    && (forall x :: Notification(x) in names <==> tracked.notification == Some(x) || notificationUrl == Url(Some(x)))
    && (forall x :: Credential(x) !in names)
  }

  lemma TransportsAreNamed(tracked: Tracked, transportUrl: Url, notificationUrl: Url)
    ensures NamesTransports(Optional(tracked.transport, x => Transport(x))
                            + Optional(tracked.notification, x => Notification(x))
                            + UrlSecret(transportUrl, x => Transport(x))
                            + UrlSecret(notificationUrl, x => Notification(x)),
                            tracked, transportUrl, notificationUrl)
  {
    hide Optional, UrlSecret;
    var t, n := (x: string) => Transport(x), (x: string) => Notification(x);
    forall name: SecretName
      ensures name in Optional(tracked.transport, t) <==> tracked.transport.Some? && name == t(tracked.transport.value)
      ensures name in Optional(tracked.notification, n)
              <==> tracked.notification.Some? && name == n(tracked.notification.value)
      ensures name in UrlSecret(transportUrl, t)
              <==> transportUrl.Url? && transportUrl.secret.Some? && name == t(transportUrl.secret.value)
      ensures name in UrlSecret(notificationUrl, n)
              <==> notificationUrl.Url? && notificationUrl.secret.Some? && name == n(notificationUrl.secret.value)
    {
      OptionalIff(tracked.transport, t, name);
      OptionalIff(tracked.notification, n, name);
      UrlSecretIff(transportUrl, t, name);
      UrlSecretIff(notificationUrl, n, name);
    }
  }

  lemma OptionalIff(o: Option<string>, kind: string -> SecretName, name: SecretName)
    ensures name in Optional(o, kind) <==> o.Some? && name == kind(o.value)
  {
  }

  lemma UrlSecretIff(u: Url, kind: string -> SecretName, name: SecretName)
    ensures name in UrlSecret(u, kind) <==> u.Url? && u.secret.Some? && name == kind(u.secret.value)
  {
  }

  /** The pass of a Heat that is being deleted. */
  class DeletePass {
    const store: Store
    const script: nat -> Verdict
    var steps: nat
    ghost var parent: ParentPass
    ghost const start: State
    ghost var trace: seq<Action>
    ghost var path: seq<State>

    ghost predicate Valid()
      reads this, store
    {
      && IsPath(path, trace) && path[0] == start && path[|trace|] == store.With(parent)
      && OnePass(trace, script) && |trace| == steps
    }

    constructor (s: Store, script: nat -> Verdict)
      requires s.heat.Some? && s.heat.value.deleting
      ensures Valid() && store == s && start == s.With(Resting) && this.script == script
      ensures parent == ReleasingCredentials(Optional(s.heat.value.tracked.credential, x => Credential(x))
                                             + Optional(s.heat.value.credential, x => Credential(x)),
                                                 s.heat.value.tracked)
      // the tracked secret, and the one in the spec
      ensures forall x :: Credential(x) in parent.todo
                          <==> s.heat.value.tracked.credential == Some(x) || s.heat.value.credential == Some(x)
    {
      store, this.script, steps := s, script, 1;
      start, trace, parent := s.With(Resting), [ParentBegin], Begin(s.With(Resting)).parent;
      path := [s.With(Resting), Begin(s.With(Resting))];
    }

    method Record(ghost a: Action)
      requires Scripted(a, script(steps)) && OnePass(trace, script) && |trace| == steps
      requires IsPath(path, trace) && path[0] == start && store.With(parent) == Step(path[|trace|], a)
      modifies this`trace, this`path, this`steps
      ensures Valid() && trace == old(trace) + [a]
    {
      hide Step;
      PathSnoc(path, trace, a);
      path := path + [Step(path[|trace|], a)];
      trace := trace + [a];
      steps := steps + 1;
    }

    /** An error ends the pass, and the next one begins again. */
    method Gate() returns (go: bool)
      requires Valid() && !parent.Working? && !parent.Resting?
      modifies this`parent, this`trace, this`path, this`steps
      ensures Valid() && (go <==> script(old(steps)) == Proceed)
      ensures if go then parent == old(parent) && trace == old(trace) else parent.Resting?
    {
      hide IsPath, OnePass;
      go := script(steps) == Proceed;
      if !go {
        parent := Resting;
        Record(ParentCrash);
      }
    }

    /** The secret in the status and the one in the spec, in case a pass crashed between. */
    method ReleaseCredentials(names: seq<SecretName>, ghost tracked: Tracked) returns (ok: bool)
      requires Valid() && parent == ReleasingCredentials(names, tracked)
      modifies this`parent, this`trace, this`path, this`steps, store`secrets
      ensures Valid() && parent == if ok then ReleasingCredentials([], tracked) else Resting
      ensures Uninterrupted(script) ==> ok
    {
      hide Valid;
      ok := true;
      var todo := names;
      while todo != [] && ok
        invariant Valid() && parent == if ok then ReleasingCredentials(todo, tracked) else Resting
        invariant Uninterrupted(script) ==> ok
        decreases |todo|, ok
      {
        ok := ReleaseCredential(todo, tracked);
        todo := todo[1..];
      }
    }

    method ReleaseCredential(todo: seq<SecretName>, ghost tracked: Tracked) returns (ok: bool)
      requires Valid() && todo != [] && parent == ReleasingCredentials(todo, tracked)
      modifies this`parent, this`trace, this`path, this`steps, store`secrets
      ensures Valid() && parent == if ok then ReleasingCredentials(todo[1..], tracked) else Resting
      ensures (Uninterrupted(script) ==> ok) && (ok ==> trace == old(trace) + [ParentStep(0)])
      ensures store.secrets == if ok then RemoveFinalizer(old(store.secrets), todo[0], CredentialConsumer)
                               else old(store.secrets)
    {
      hide IsPath, OnePass;
      ok := Gate();
      if ok {
        store.RemoveSecretConsumerFinalizer(todo[0], CredentialConsumer);
        parent := ReleasingCredentials(todo[1..], tracked);
        Record(ParentStep(0));
      }
    }

    /** The two secrets in the status, and whatever the TransportURLs name now. */
    method CollectTransports(tracked: Tracked) returns (ok: bool, names: seq<SecretName>)
      requires Valid() && parent == ReleasingCredentials([], tracked)
      modifies this`parent, this`trace, this`path, this`steps
      ensures Valid() && parent == if ok then ReleasingTransports(names) else Resting
      ensures (Uninterrupted(script) ==> ok) && (ok ==> trace == old(trace) + [ParentStep(0)])
      ensures ok ==> names == Optional(tracked.transport, x => Transport(x))
                              + Optional(tracked.notification, x => Notification(x))
                              + UrlSecret(store.transportUrl, x => Transport(x))
                              + UrlSecret(store.notificationUrl, x => Notification(x))
      ensures ok ==> NamesTransports(names, tracked, store.transportUrl, store.notificationUrl)
    {
      hide IsPath, OnePass, NamesTransports;
      ok := Gate();
      names := Optional(tracked.transport, x => Transport(x)) + Optional(tracked.notification, x => Notification(x));
      if ok {
        names := names + UrlSecret(store.transportUrl, x => Transport(x));
        names := names + UrlSecret(store.notificationUrl, x => Notification(x));
        parent := ReleasingTransports(names);
        Record(ParentStep(0));
        TransportsAreNamed(tracked, store.transportUrl, store.notificationUrl);
      }
    }

    method ReleaseTransports(names: seq<SecretName>) returns (ok: bool)
      requires Valid() && parent == ReleasingTransports(names)
      modifies this`parent, this`trace, this`path, this`steps, store`secrets
      ensures Valid() && parent == if ok then PurgingTransports else Resting
      ensures Uninterrupted(script) ==> ok
    {
      ok := true;
      var todo := names;
      while todo != [] && ok
        invariant Valid() && parent == if ok then ReleasingTransports(todo) else Resting
        invariant Uninterrupted(script) ==> ok
        decreases |todo|, ok
      {
        ok := ReleaseTransport(todo);
        todo := todo[1..];
      }
      if ok {
        parent := PurgingTransports;
        Record(ParentStep(0));
      }
    }

    method ReleaseTransport(todo: seq<SecretName>) returns (ok: bool)
      requires Valid() && todo != [] && parent == ReleasingTransports(todo)
      modifies this`parent, this`trace, this`path, this`steps, store`secrets
      ensures Valid() && parent == if ok then ReleasingTransports(todo[1..]) else Resting
      ensures (Uninterrupted(script) ==> ok) && (ok ==> trace == old(trace) + [ParentStep(0)])
      ensures store.secrets == if ok then RemoveFinalizer(old(store.secrets), todo[0], TransportConsumer)
                               else old(store.secrets)
    {
      hide IsPath, OnePass;
      ok := Gate();
      if ok {
        store.RemoveSecretConsumerFinalizer(todo[0], TransportConsumer);
        parent := ReleasingTransports(todo[1..]);
        Record(ParentStep(0));
      }
    }

    ghost predicate Purging(f: Finalizer)
      reads this
    {
      parent == if f == TransportConsumer then PurgingTransports else PurgingCredentials
    }

    method PurgeOne(n: SecretName, f: Finalizer) returns (ok: bool)
      requires Valid() && Purging(f)
      modifies this`parent, this`trace, this`path, this`steps, store`secrets
      ensures Valid() && (if ok then Purging(f) else parent.Resting?)
      ensures (Uninterrupted(script) ==> ok) && (ok ==> trace == old(trace) + [PruneOne(n)])
      ensures store.secrets == if ok then RemoveFinalizer(old(store.secrets), n, f) else old(store.secrets)
    {
      hide IsPath, OnePass;
      ok := Gate();
      if ok {
        store.RemoveSecretConsumerFinalizer(n, f);
        Record(PruneOne(n));
      }
    }

    /** The prune of a delete pass keeps nothing. */
    method Purge(f: Finalizer) returns (ok: bool)
      requires Valid() && Purging(f)
      modifies this`parent, this`trace, this`path, this`steps, store`secrets
      ensures Valid()
      ensures parent == if !ok then Resting else if f == TransportConsumer then PurgingCredentials else Departing
      ensures (ok ==> Holders(store.secrets, f) == {}) && (Uninterrupted(script) ==> ok)
    {
      ok := true;
      var stray := Holders(store.secrets, f);
      while stray != {} && ok
        invariant Valid() && (if ok then Purging(f) else parent.Resting?) && (Uninterrupted(script) ==> ok)
        invariant ok ==> stray == Holders(store.secrets, f)
        decreases stray, ok
      {
        var n :| n in stray;
        RemovalShrinksHolders(store.secrets, n, f, f);
        ok := PurgeOne(n, f);
        stray := stray - {n};
      }
      if ok {
        parent := if f == TransportConsumer then PurgingCredentials else Departing;
        Record(ParentStep(0));
      }
    }

    method ReleaseNamed(tracked: Tracked, credential: Option<string>) returns (ok: bool)
      requires Valid()
      requires parent == ReleasingCredentials(Optional(tracked.credential, x => Credential(x))
                                              + Optional(credential, x => Credential(x)), tracked)
      modifies this`parent, this`trace, this`path, this`steps, store`secrets
      ensures Valid() && parent == if ok then PurgingTransports else Resting
      ensures Uninterrupted(script) ==> ok
    {
      hide Valid;
      ok := ReleaseCredentials(Optional(tracked.credential, x => Credential(x))
                               + Optional(credential, x => Credential(x)), tracked);
      if ok {
        var names;
        ok, names := CollectTransports(tracked);
        if ok {
          ok := ReleaseTransports(names);
        }
      }
    }

    method PurgeAll() returns (ok: bool)
      requires Valid() && parent.PurgingTransports?
      modifies this`parent, this`trace, this`path, this`steps, store`secrets
      ensures Valid() && (parent == if ok then Departing else Resting) && (Uninterrupted(script) ==> ok)
    {
      hide Valid;
      ok := Purge(TransportConsumer);
      if ok {
        ok := Purge(CredentialConsumer);
      }
    }

    /** Heat's own finalizer goes last. */
    method Depart() returns (ok: bool)
      requires Valid() && parent.Departing?
      modifies this`parent, this`trace, this`path, this`steps, store`heat
      ensures Valid() && parent.Resting? && store.heat == if ok then None else old(store.heat)
      ensures Uninterrupted(script) ==> ok
    {
      ok := Gate();
      if ok {
        store.heat := None;
        parent := Resting;
        Record(ParentStep(0));
      }
    }

    /** `reconcileDelete`, and the patch that removes Heat's own finalizer. */
    method ReconcileDelete(tracked: Tracked, credential: Option<string>) returns (ok: bool)
      requires Valid()
      requires parent == ReleasingCredentials(Optional(tracked.credential, x => Credential(x))
                                              + Optional(credential, x => Credential(x)), tracked)
      modifies this`parent, this`trace, this`path, this`steps, store`secrets, store`heat
      ensures Valid() && parent.Resting? && store.heat == if ok then None else old(store.heat)
      ensures Uninterrupted(script) ==> ok
    {
      hide Valid;
      ok := ReleaseNamed(tracked, credential);
      if ok {
        ok := PurgeAll();
      }
      if ok {
        ok := Depart();
      }
    }
  }

  /** The finalizers are on the tracked secrets and on no others. */
  ghost predicate ExactlyTracked(s: State) {
    && s.heat.Some? && s.heat.value.tracked.transport.Some?
    && var t := s.heat.value.tracked;
       && Holders(s.secrets, TransportConsumer)
          == {Transport(t.transport.value)}
             + (if t.notification.Some? then {Notification(t.notification.value)} else {})
       && Holders(s.secrets, CredentialConsumer)
          == (if t.credential.Some? then {Credential(t.credential.value)} else {})
  }

  /** What a call may do, and must do if nothing interrupts it, by the state it finds. */
  ghost predicate Reconciled(s: State, s': State, actions: seq<Action>, script: nat -> Verdict, rest: nat, other: nat) {
    && s' == Run(s, actions)
    && match s.heat
       case None => actions == []
       case Some(h) =>
         && OnePass(actions, script)
         && (Uninterrupted(script) && h.deleting ==> s'.heat.None?)
         && (Uninterrupted(script) && !h.deleting && !h.finalizer ==> s' == s.(heat := Some(h.(finalizer := true))))
         && (Uninterrupted(script) && !h.deleting && h.finalizer ==> (EndsCompleted(s, actions) <==> Unhindered(s)))
         && (EndsCompleted(s, actions) ==> RendersAndPublishes(s', rest, other))
  }

  /** The configuration and every child object are what a completed pass was asked to write. */
  predicate RendersAndPublishes(s: State, rest: nat, other: nat) {
    && s.config.Some? && s.config.value.rest == rest
    && var k := s.config.value.names;
       forall c: Service ::
         && s.children[c].spec == Some(ChildSpec(k.transport, k.credential, other))
         && s.children[c].annotation == ExpectedHash(k)
  }

  /** `Reconcile`. With a Heat present the call makes exactly one pass, and the pass is over at its
      end. Uninterrupted, a deletion is carried through, a new Heat is adopted, and a live one is
      reconciled to the end if and only if every name and secret it needs is there. A pass that
      ends with every service confirmed leaves Heat Ready with the finalizers on exactly the
      tracked secrets, and a call after which the object is gone leaves none. */
  method Reconcile(store: Store, script: nat -> Verdict, rest: nat, other: nat)
    returns (rolledOut: bool, ghost trace: seq<Action>)
    requires OwnershipInv(store.With(Resting))
    modifies store
    ensures Reconciled(old(store.With(Resting)), store.With(Resting), trace, script, rest, other)
    ensures OwnershipInv(store.With(Resting))
    ensures store.heat.None? ==> Clean(store.secrets)
    ensures rolledOut <==> EndsConfirmed(old(store.With(Resting)), trace)
    ensures rolledOut ==> ExactlyTracked(store.With(Resting)) && store.heat.value.ready && old(store.heat).Some?
                          && store.heat.value.tracked.credential == old(store.heat.value.credential)
  {
    ghost var before := store.With(Resting);
    rolledOut, trace := false, [];
    if store.heat.None? {
      return;
    }
    var heat := store.heat.value;
    if heat.deleting {
      trace := ReconcileDeleting(store, script);
    } else if !heat.finalizer {
      trace := Adopt(store, script);
    } else {
      rolledOut, trace := ReconcileLive(store, script, rest, other);
    }
    OwnershipInvRun(before, trace);
  }

  /** Only a pass over a live, adopted Heat can complete as a pass of `reconcileNormal`. */
  lemma {:induction false} OtherPassesDoNotComplete(s: State, actions: seq<Action>)
    requires !s.parent.Working? && !s.parent.Resting?
    requires forall i | 0 <= i < |actions| :: !actions[i].ParentBegin?
    ensures !Run(s, actions).parent.Working?
    decreases |actions|
  {
    if actions != [] {
      var s' := Step(s, actions[0]);
      assert !actions[0].ParentBegin?;
      assert !s'.parent.Working?;
      if s'.parent.Resting? {
        RestingStays(s', actions[1..]);
      } else {
        OtherPassesDoNotComplete(s', actions[1..]);
      }
    }
  }

  lemma {:induction false} RestingStays(s: State, actions: seq<Action>)
    requires s.parent.Resting? && forall i | 0 <= i < |actions| :: !actions[i].ParentBegin?
    ensures Run(s, actions).parent.Resting?
    decreases |actions|
  {
    if actions != [] {
      assert !actions[0].ParentBegin?;
      RestingStays(Step(s, actions[0]), actions[1..]);
    }
  }

  lemma NotCompleted(s: State, actions: seq<Action>, script: nat -> Verdict)
    requires s.parent.Resting? && s.heat.Some? && (s.heat.value.deleting || !s.heat.value.finalizer)
    requires OnePass(actions, script)
    ensures !EndsCompleted(s, actions)
  {
    var init := actions[..|actions| - 1];
    if init == [] {
      assert Run(s, init) == s;
    } else {
      forall i | 0 <= i < |init[1..]| ensures !init[1..][i].ParentBegin? {
        assert Scripted(actions[i + 1], script(i + 1));
      }
      OtherPassesDoNotComplete(Begin(s), init[1..]);
      assert Run(s, init) == Run(Step(s, ParentBegin), init[1..]);
    }
  }

  method ReconcileDeleting(store: Store, script: nat -> Verdict) returns (ghost trace: seq<Action>)
    requires store.heat.Some? && store.heat.value.deleting
    modifies store
    ensures OnePass(trace, script) && store.With(Resting) == Run(old(store.With(Resting)), trace)
    ensures Uninterrupted(script) ==> store.heat.None?
    ensures !EndsCompleted(old(store.With(Resting)), trace)
  {
    ghost var before := store.With(Resting);
    var heat := store.heat.value;
    var pass := new DeletePass(store, script);
    var _ := pass.ReconcileDelete(heat.tracked, heat.credential);
    trace := pass.trace;
    PathIsRun(pass.path, trace);
    NotCompleted(before, trace, script);
  }

  method ReconcileLive(store: Store, script: nat -> Verdict, rest: nat, other: nat)
    returns (rolledOut: bool, ghost trace: seq<Action>)
    requires OwnershipInv(store.With(Resting))
    requires store.heat.Some? && store.heat.value.finalizer && !store.heat.value.deleting
    modifies store
    ensures Reconciled(old(store.With(Resting)), store.With(Resting), trace, script, rest, other)
    ensures rolledOut <==> EndsConfirmed(old(store.With(Resting)), trace)
    ensures rolledOut ==> ExactlyTracked(store.With(Resting)) && store.heat.value.ready && old(store.heat).Some?
                          && store.heat.value.tracked.credential == old(store.heat.value.credential)
  {
    ghost var before := store.With(Resting);
    var pass := new Pass(store, script);
    var ok := pass.ReconcileNormal(rest, other);
    if ok {
      EveryService(store.With(Resting), rest, other);
    }
    rolledOut := ClosePass(pass, ok, before);
    trace := pass.trace;
  }

  /** The deferred patch, unless the pass has crashed. */
  method ClosePass(pass: Pass, ok: bool, ghost before: State) returns (rolledOut: bool)
    requires pass.Valid() && pass.start == before && before.parent.Resting? && OwnershipInv(before)
    requires if ok then !pass.over && pass.stage == AtPatch(true) else pass.CutShort()
    modifies pass`over, pass`trace, pass`path, pass`steps, pass.store`heat
    ensures pass.store.With(Resting) == Run(before, pass.trace) && OnePass(pass.trace, pass.script)
    ensures (ok <==> EndsCompleted(before, pass.trace)) && (rolledOut <==> EndsConfirmed(before, pass.trace))
    ensures rolledOut ==>
              && ExactlyTracked(pass.store.With(Resting)) && pass.store.heat.value.ready
              && pass.store.heat.value.tracked.credential == pass.credential
  {
    rolledOut := ok && pass.confirmed == AllServices;
    PathIsRun(pass.path, pass.trace);
    RotationInvRun(before, pass.trace);
    if rolledOut {
      PatchOfAReadyPass(pass.View(), pass.Locals());
    }
    if !pass.over {
      pass.PatchInstance();
    }
    PathIsRun(pass.path, pass.trace);
    PathBeforeLast(pass.path, pass.trace);
  }

  lemma EveryService(s: State, rest: nat, other: nat)
    requires s.config.Some? && s.config.value.rest == rest
    requires forall c | c in {Engine, Api, CfnApi} ::
               var k := s.config.value.names;
               && s.children[c].spec == Some(ChildSpec(k.transport, k.credential, other))
               && s.children[c].annotation == ExpectedHash(k)
    ensures RendersAndPublishes(s, rest, other)
  {
    var k := s.config.value.names;
    forall c: Service
      ensures s.children[c].spec == Some(ChildSpec(k.transport, k.credential, other))
      ensures s.children[c].annotation == ExpectedHash(k)
    {
      assert c.Engine? || c.Api? || c.CfnApi?;
      assert c in {Engine, Api, CfnApi};
    }
  }

  /** Heat's own finalizer is persisted in a pass of its own, before anything else is done. */
  method Adopt(store: Store, script: nat -> Verdict) returns (ghost trace: seq<Action>)
    requires store.heat.Some? && !store.heat.value.deleting && !store.heat.value.finalizer
    modifies store`heat
    ensures OnePass(trace, script) && store.With(Resting) == Run(old(store.With(Resting)), trace)
    ensures store.heat == Some(old(store.heat.value).(finalizer := script(1) == Proceed))
    ensures !EndsCompleted(old(store.With(Resting)), trace)
  {
    ghost var before := store.With(Resting);
    trace := [ParentBegin, if script(1) == Proceed then ParentStep(0) else ParentCrash];
    if script(1) == Proceed {
      store.heat := Some(store.heat.value.(finalizer := true));
    }
    PathIsRun([before, Begin(before), Step(Begin(before), trace[1])], trace);
    NotCompleted(before, trace, script);
  }
}
