/** The rotation protocol as a state machine.

    One `Heat` controller and three child controllers work on a shared store. Every
    action below is one read or one write, so a controller can be interrupted, can
    return early or can crash between any two of them, and every other controller,
    the kubelet and the environment may act in the gaps. A controller never runs two
    passes of the same object at once, so a pass in flight is part of the state.
 */
module Cluster {
  import opened Names

  // ---------------------------------------------------------------- secrets

  datatype Finalizer = TransportConsumer | CredentialConsumer

  type SecretStore = map<SecretName, set<Finalizer>>

  predicate Holds(secrets: SecretStore, n: SecretName, f: Finalizer) {
    n in secrets && f in secrets[n]
  }

  /** `ManageSecretConsumerFinalizer` on a secret that exists. */
  function AddFinalizer(secrets: SecretStore, n: SecretName, f: Finalizer): SecretStore
    requires n in secrets
  {
    secrets[n := secrets[n] + {f}]
  }

  /** `RemoveSecretConsumerFinalizer`: a missing secret is tolerated. */
  function RemoveFinalizer(secrets: SecretStore, n: SecretName, f: Finalizer): SecretStore {
    if n in secrets then secrets[n := secrets[n] - {f}] else secrets
  }

  function Holders(secrets: SecretStore, f: Finalizer): set<SecretName> {
    set n | n in secrets && f in secrets[n]
  }

  /** `FinalizeSecretRotation`: what happens to the store and what name is tracked afterwards. */
  function FinalizeRotation(secrets: SecretStore, previous: Option<string>, current: Option<string>,
                            kind: string -> SecretName, f: Finalizer, ready: bool): (SecretStore, Option<string>)
  {
    if previous.None? then (secrets, current)
    else if previous == current then (secrets, previous)
    else if !ready then (secrets, previous)
    else (RemoveFinalizer(secrets, kind(previous.value), f), current)
  }

  // ---------------------------------------------------------------- the parent

  /** A TransportURL object and the secret name in its status. */
  datatype Url = NoUrl | Url(secret: Option<string>)

  /** The secret names Heat's status keeps between passes. */
  datatype Tracked = Tracked(transport: Option<string>, notification: Option<string>, credential: Option<string>)

  datatype Heat = Heat(
    finalizer: bool,             // Heat's own finalizer is persisted
    deleting: bool,              // a deletion timestamp is set
    credential: Option<string>,  // spec.auth.applicationCredentialSecret
    bus: bool,                   // spec.notificationsBus names a cluster
    tracked: Tracked,
    ready: bool)                 // the Ready condition

  /** `config-data`: the names it refers to and, as `rest`, everything else it renders. */
  datatype Config = Config(names: Names, rest: nat)

  datatype Service = Engine | Api | CfnApi

  const AllServices: set<Service> := {Engine, Api, CfnApi}

  /** Where a pass of a live Heat is. Each stage is the next read or write. */
  datatype Stage =
    | AtTransport
    | AtProtectTransport
    | AtNotification
    | AtProtectNotification
    | AtConfig
    | AtProtectCredential
    | AtPublish(service: Service)
    | AtFinalizeCredential
    | AtFinalizeTransport
    | AtFinalizeNotification
    | AtDeleteBus
    | AtPruneTransports
    | AtPruneCredentials
    | AtPatch(completed: bool)

  /** The local variables of a pass: the instance it read and what it learned since. */
  datatype Work = Work(
    stage: Stage,
    credential: Option<string>,
    bus: bool,
    tracked: Tracked,
    transport: string,            // "" until the TransportURL has been read
    notification: Option<string>,
    confirmed: set<Service>,
    ready: bool)

  datatype ParentPass =
    | Resting
    | Adopting                                      // will persist Heat's own finalizer
    | Working(work: Work)
    | ReleasingCredentials(todo: seq<SecretName>, tracked: Tracked)
    | ReleasingTransports(todo: seq<SecretName>)
    | PurgingTransports
    | PurgingCredentials
    | Departing                                     // will persist the removal of Heat's finalizer

  function NamesOf(w: Work): Names {
    Names(w.transport, w.notification, w.credential)
  }

  /** `allServicesReady` */
  predicate AllConfirmed(w: Work) {
    w.confirmed == AllServices
  }

  // ---------------------------------------------------------------- the children

  datatype ChildSpec = ChildSpec(transport: string, credential: Option<string>, other: nat)

  datatype ChildStatus = ChildStatus(observed: nat, applied: InputSecretHash, ready: bool)

  /** The hash of all hashes a child stamps on its Deployment; injective, so it is its inputs. */
  datatype InputHash = InputHash(parent: Option<Config>, own: Config, transport: string, extra: nat)

  /** A running pod: the hash stamped on it and the configuration it read when it started. */
  datatype Pod = Pod(hash: InputHash, config: Config)

  /** What a child pass took from its own object when it started. */
  datatype Seen = Seen(generation: nat, annotation: InputSecretHash, transport: string)

  datatype ChildPass =
    | Idle
    | Joining(generation: nat)                                  // will persist the child's finalizer
    | Observed(seen: Seen)
    | Hashed(seen: Seen, parent: Option<Config>)                // config-data read for the hash
    | Copied(seen: Seen, parent: Option<Config>, copy: Config)  // config-data read for its content
    | Rendered(seen: Seen, hash: InputHash)                     // own config secret written
    | Deployed(seen: Seen, hash: InputHash)                     // Deployment patched
    | Checked(seen: Seen, hash: InputHash, rolledOut: bool)     // Deployment and pods looked at

  datatype Child = Child(
    spec: Option<ChildSpec>,      // None until the parent has created the object
    generation: nat,
    annotation: InputSecretHash,
    finalizer: bool,
    status: ChildStatus,
    own: Option<Config>,          // its own config secret
    template: Option<InputHash>,  // CONFIG_HASH in the Deployment's pod template
    pods: set<Pod>,
    pass: ChildPass)

  type Children = m: map<Service, Child> | forall c: Service :: c in m
    witness map c: Service | true :: NewChild()

  function NewChild(): Child {
    Child(None, 0, Unset, false, ChildStatus(0, Unset, false), None, None, {}, Idle)
  }

  datatype State = State(
    secrets: SecretStore,
    heat: Option<Heat>,
    transportUrl: Url,
    notificationUrl: Url,
    config: Option<Config>,
    children: Children,
    parent: ParentPass)

  /** A Heat object has just been created; nothing has run yet. */
  predicate Initial(s: State) {
    && Holders(s.secrets, TransportConsumer) == {}
    && Holders(s.secrets, CredentialConsumer) == {}
    && s.heat.Some? && !s.heat.value.finalizer && !s.heat.value.deleting && !s.heat.value.ready
    && s.heat.value.tracked == Tracked(None, None, None)
    && s.transportUrl.NoUrl? && s.notificationUrl.NoUrl? && s.config.None?
    && (forall c: Service :: s.children[c] == NewChild())
    && s.parent.Resting?
  }

  // ---------------------------------------------------------------- actions

  datatype Action =
    // the environment
    | CreateSecret(name: SecretName)
    | DeleteSecret(name: SecretName)
    | SetTransport(secret: Option<string>)
    | SetNotification(secret: Option<string>)
    | SetCredential(credential: Option<string>)
    | SetBus(bus: bool)
    | RequestDelete
    | StartPod(service: Service, hash: InputHash)
    | StopPod(service: Service, pod: Pod)
    | RestartPod(service: Service, pod: Pod)
    // the Heat controller
    | ParentBegin
    | ParentStep(choice: nat)
    | PruneOne(name: SecretName)
    | ParentStop
    | ParentCrash
    // a child controller
    | ChildBegin(service: Service)
    | ChildStep(service: Service, choice: nat)
    | ChildStop(service: Service)
    | ChildCrash(service: Service)

  /** One action. An action that does not apply leaves the state alone. */
  function Step(s: State, a: Action): State {
    match a
    case ParentBegin => Begin(s)
    case ParentStep(choice) => Advance(s, choice)
    case PruneOne(n) => Prune(s, n)
    case ParentStop => Halt(s)
    case ParentCrash => s.(parent := Resting)
    case ChildBegin(c) => s.(children := s.children[c := BeginChild(s.children[c])])
    case ChildStep(c, choice) =>
      s.(children := s.children[c := AdvanceChild(s.children[c], s.config, s.secrets, choice)])
    case ChildStop(c) => s.(children := s.children[c := HaltChild(s.children[c])])
    case ChildCrash(c) => s.(children := s.children[c := s.children[c].(pass := Idle)])
    case StartPod(c, h) => s.(children := s.children[c := Start(s.children[c], h)])
    case StopPod(c, p) => s.(children := s.children[c := s.children[c].(pods := s.children[c].pods - {p})])
    case RestartPod(c, p) => s.(children := s.children[c := Restart(s.children[c], p)])
    case CreateSecret(n) => if n in s.secrets then s else s.(secrets := s.secrets[n := {}])
    case DeleteSecret(n) => if n in s.secrets && s.secrets[n] == {} then s.(secrets := s.secrets - {n}) else s
    case SetTransport(o) => if s.transportUrl.NoUrl? then s else s.(transportUrl := Url(o))
    case SetNotification(o) => if s.notificationUrl.NoUrl? then s else s.(notificationUrl := Url(o))
    case SetCredential(o) => if s.heat.None? then s else s.(heat := Some(s.heat.value.(credential := o)))
    case SetBus(b) => if s.heat.None? then s else s.(heat := Some(s.heat.value.(bus := b)))
    case RequestDelete =>
      if s.heat.None? then s
      else if s.heat.value.finalizer then s.(heat := Some(s.heat.value.(deleting := true)))
      else s.(heat := None)
  }

  function Run(s: State, actions: seq<Action>): State
    decreases |actions|
  {
    if actions == [] then s else Run(Step(s, actions[0]), actions[1..])
  }

  lemma {:induction false} RunConcat(s: State, a: seq<Action>, b: seq<Action>)
    ensures Run(s, a + b) == Run(Run(s, a), b)
    decreases |a|
  {
    if a == [] {
      assert a + b == b;
    } else {
      assert (a + b)[0] == a[0] && (a + b)[1..] == a[1..] + b;
      RunConcat(Step(s, a[0]), a[1..], b);
    }
  }

  // ---------------------------------------------------------------- the parent's steps

  /** The start of `Reconcile`: the object is read and the kind of pass is chosen. */
  function Begin(s: State): State {
    if !s.parent.Resting? || s.heat.None? then s
    else
      var h := s.heat.value;
      if h.deleting then
        s.(parent := ReleasingCredentials(
             Optional(h.tracked.credential, x => Credential(x)) + Optional(h.credential, x => Credential(x)),
             h.tracked))
      else if !h.finalizer then s.(parent := Adopting)
      else s.(parent := Working(Work(AtTransport, h.credential, h.bus, h.tracked, "", None, {}, false)))
  }

  /** An early return: the deferred patch is still to come, with the status as it is now. */
  function Stopped(w: Work): Work {
    w.(stage := AtPatch(false))
  }

  function Halt(s: State): State {
    match s.parent
    case Working(w) => if w.stage.AtPatch? then s else s.(parent := Working(Stopped(w)))
    case _ => s.(parent := Resting)
  }

  function Advance(s: State, choice: nat): State {
    match s.parent
    case Resting => s
    case Adopting =>
      s.(parent := Resting, heat := if s.heat.Some? then Some(s.heat.value.(finalizer := true)) else None)
    case Working(w) => AdvanceWork(s, w, choice)
    case ReleasingCredentials(todo, tracked) =>
      if todo != [] then
        s.(secrets := RemoveFinalizer(s.secrets, todo[0], CredentialConsumer),
           parent := ReleasingCredentials(todo[1..], tracked))
      else
        s.(parent := ReleasingTransports(
             Optional(tracked.transport, x => Transport(x)) + Optional(tracked.notification, x => Notification(x))
             + UrlSecret(s.transportUrl, x => Transport(x)) + UrlSecret(s.notificationUrl, x => Notification(x))))
    case ReleasingTransports(todo) =>
      if todo != [] then
        s.(secrets := RemoveFinalizer(s.secrets, todo[0], TransportConsumer), parent := ReleasingTransports(todo[1..]))
      else s.(parent := PurgingTransports)
    case PurgingTransports =>
      if Holders(s.secrets, TransportConsumer) == {} then s.(parent := PurgingCredentials) else s
    case PurgingCredentials =>
      if Holders(s.secrets, CredentialConsumer) == {} then s.(parent := Departing) else s
    case Departing => s.(parent := Resting, heat := None)
  }

  function UrlSecret(u: Url, kind: string -> SecretName): seq<SecretName> {
    if u.NoUrl? then [] else Optional(u.secret, kind)
  }

  /** The namespace-wide prune releases one stray secret at a time. */
  function Prune(s: State, n: SecretName): State {
    match s.parent
    case Working(w) =>
      if w.stage.AtPruneTransports? && n in StrayTransports(s.secrets, w) then
        s.(secrets := RemoveFinalizer(s.secrets, n, TransportConsumer))
      else if w.stage.AtPruneCredentials? && n in StrayCredentials(s.secrets, w) then
        s.(secrets := RemoveFinalizer(s.secrets, n, CredentialConsumer))
      else s
    case PurgingTransports => s.(secrets := RemoveFinalizer(s.secrets, n, TransportConsumer))
    case PurgingCredentials => s.(secrets := RemoveFinalizer(s.secrets, n, CredentialConsumer))
    case _ => s
  }

  function KeptTransports(w: Work): set<SecretName> {
    {Transport(w.transport)}
    + (if w.tracked.transport.Some? then {Transport(w.tracked.transport.value)} else {})
    + (if w.tracked.notification.Some? then {Notification(w.tracked.notification.value)} else {})
    + (if w.notification.Some? then {Notification(w.notification.value)} else {})
  }

  function KeptCredentials(w: Work): set<SecretName> {
    (if w.tracked.credential.Some? then {Credential(w.tracked.credential.value)} else {})
    + (if w.credential.Some? then {Credential(w.credential.value)} else {})
  }

  /** Nothing is pruned unless every service is confirmed. */
  function StrayTransports(secrets: SecretStore, w: Work): set<SecretName> {
    if AllConfirmed(w) then Holders(secrets, TransportConsumer) - KeptTransports(w) else {}
  }

  function StrayCredentials(secrets: SecretStore, w: Work): set<SecretName> {
    if AllConfirmed(w) then Holders(secrets, CredentialConsumer) - KeptCredentials(w) else {}
  }

  /** One stage of `reconcileNormal`. */
  function AdvanceWork(s: State, w: Work, choice: nat): State {
    match w.stage
    case AtTransport => ReadTransport(s, w)
    case AtProtectTransport => Protect(s, w, Transport(w.transport), TransportConsumer, AtNotification)
    case AtNotification => ReadNotification(s, w)
    case AtProtectNotification =>
      if w.notification.None? then s.(parent := Working(Stopped(w)))
      else Protect(s, w, Notification(w.notification.value), TransportConsumer, AtConfig)
    case AtConfig =>
      s.(config := Some(Config(NamesOf(w), choice)), parent := Working(w.(stage := AtProtectCredential)))
    case AtProtectCredential =>
      if w.credential.None? then s.(parent := Working(w.(stage := AtPublish(Engine))))
      else Protect(s, w, Credential(w.credential.value), CredentialConsumer, AtPublish(Engine))
    case AtPublish(c) => Publish(s, w, c, choice)
    case AtFinalizeCredential =>
      var (secrets, name) := FinalizeRotation(s.secrets, w.tracked.credential, w.credential,
                                              x => Credential(x), CredentialConsumer, AllConfirmed(w));
      s.(secrets := secrets,
         parent := Working(w.(tracked := w.tracked.(credential := name), ready := AllConfirmed(w),
                              stage := AtFinalizeTransport)))
    case AtFinalizeTransport =>
      var (secrets, name) := FinalizeRotation(s.secrets, w.tracked.transport, Some(w.transport),
                                              x => Transport(x), TransportConsumer, AllConfirmed(w));
      s.(secrets := secrets,
         parent := Working(w.(tracked := w.tracked.(transport := name), stage := AtFinalizeNotification)))
    case AtFinalizeNotification => FinalizeNotification(s, w)
    case AtDeleteBus =>
      s.(notificationUrl := NoUrl,
         parent := Working(w.(tracked := w.tracked.(notification := None), stage := AtPruneTransports)))
    case AtPruneTransports =>
      if StrayTransports(s.secrets, w) == {} then s.(parent := Working(w.(stage := AtPruneCredentials))) else s
    case AtPruneCredentials =>
      if StrayCredentials(s.secrets, w) == {} then s.(parent := Working(w.(stage := AtPatch(true)))) else s
    case AtPatch(_) =>
      s.(parent := Resting,
         heat := if s.heat.Some? then Some(s.heat.value.(tracked := w.tracked, ready := w.ready)) else None)
  }

  /** `CreateOrUpdate` of a TransportURL: an absent one is created, without a secret yet. */
  function Ensured(u: Url): Url {
    if u.NoUrl? then Url(None) else u
  }

  /** First-time setup: the status is set early only while it tracks nothing. */
  function TrackFirst(tracked: Option<string>, name: string): Option<string> {
    if tracked.None? then Some(name) else tracked
  }

  function WithTransport(w: Work, u: Url): Work
    requires u.Url?
  {
    if u.secret.None? then Stopped(w)
    else w.(transport := u.secret.value,
            tracked := w.tracked.(transport := TrackFirst(w.tracked.transport, u.secret.value)),
            stage := AtProtectTransport)
  }

  function ReadTransport(s: State, w: Work): State {
    var u := Ensured(s.transportUrl);
    s.(transportUrl := u, parent := Working(WithTransport(w, u)))
  }

  function WithNotification(w: Work, u: Url): Work
    requires u.Url?
  {
    if u.secret.None? then Stopped(w)
    else w.(notification := u.secret,
            tracked := w.tracked.(notification := TrackFirst(w.tracked.notification, u.secret.value)),
            stage := AtProtectNotification)
  }

  function ReadNotification(s: State, w: Work): State {
    if !w.bus then s.(parent := Working(w.(stage := AtConfig)))
    else
      var u := Ensured(s.notificationUrl);
      s.(notificationUrl := u, parent := Working(WithNotification(w, u)))
  }

  /** Adding a consumer finalizer fails on a missing secret, and the pass ends. */
  function Protect(s: State, w: Work, n: SecretName, f: Finalizer, next: Stage): State {
    if n !in s.secrets then s.(parent := Working(Stopped(w)))
    else s.(secrets := AddFinalizer(s.secrets, n, f), parent := Working(w.(stage := next)))
  }

  function AfterPublish(c: Service): Stage {
    match c
    case Engine => AtPublish(Api)
    case Api => AtPublish(CfnApi)
    case CfnApi => AtFinalizeCredential
  }

  /** `CreateOrUpdate` of a child: the generation moves only when the spec does. */
  function PublishChild(ch: Child, w: Work, other: nat): Child {
    var spec := ChildSpec(w.transport, w.credential, other);
    ch.(spec := Some(spec),
        generation := if ch.spec == Some(spec) then ch.generation else ch.generation + 1,
        annotation := ExpectedHash(NamesOf(w)))
  }

  /** Observed its latest generation, confirmed the expected hash, and is itself Ready. */
  predicate Confirms(ch: Child, h: InputSecretHash) {
    ch.generation == ch.status.observed && ch.status.applied == h && ch.status.ready
  }

  function Publish(s: State, w: Work, c: Service, other: nat): State {
    var ch := PublishChild(s.children[c], w, other);
    s.(children := s.children[c := ch],
       parent := Working(w.(
         confirmed := if Confirms(ch, ExpectedHash(NamesOf(w))) then w.confirmed + {c} else w.confirmed,
         stage := AfterPublish(c))))
  }

  function FinalizeNotification(s: State, w: Work): State {
    if w.notification.Some? then
      var (secrets, name) := FinalizeRotation(s.secrets, w.tracked.notification, w.notification,
                                              x => Notification(x), TransportConsumer, AllConfirmed(w));
      s.(secrets := secrets,
         parent := Working(w.(tracked := w.tracked.(notification := name), stage := AtPruneTransports)))
    else if w.tracked.notification.Some? && AllConfirmed(w) then
      s.(secrets := RemoveFinalizer(s.secrets, Notification(w.tracked.notification.value), TransportConsumer),
         parent := Working(w.(stage := AtDeleteBus)))
    else s.(parent := Working(w.(stage := AtPruneTransports)))
  }

  // ---------------------------------------------------------------- a child's steps

  function BeginChild(ch: Child): Child {
    if !ch.pass.Idle? || ch.spec.None? then ch
    else if !ch.finalizer then ch.(pass := Joining(ch.generation))
    else ch.(pass := Observed(Seen(ch.generation, ch.annotation, ch.spec.value.transport)))
  }

  /** An early return of a child pass: the patch records the generation and drops Ready. */
  function HaltChild(ch: Child): Child {
    match ch.pass
    case Idle => ch
    case Joining(g) => ch.(pass := Idle)
    case Checked(_, _, _) => ch
    case _ => ch.(pass := Idle, status := ch.status.(observed := ch.pass.seen.generation, ready := false))
  }

  function AdvanceChild(ch: Child, config: Option<Config>, secrets: SecretStore, choice: nat): Child {
    match ch.pass
    case Idle => ch
    case Joining(g) =>
      ch.(pass := Idle, finalizer := true, status := ch.status.(observed := g, ready := false))
    case Observed(seen) =>
      if Transport(seen.transport) !in secrets then HaltChild(ch) else ch.(pass := Hashed(seen, config))
    case Hashed(seen, parent) =>
      if config.None? then HaltChild(ch) else ch.(pass := Copied(seen, parent, config.value))
    case Copied(seen, parent, copy) =>
      ch.(own := Some(copy), pass := Rendered(seen, InputHash(parent, copy, seen.transport, choice)))
    case Rendered(seen, hash) => ch.(template := Some(hash), pass := Deployed(seen, hash))
    case Deployed(seen, hash) =>
      ch.(pass := Checked(seen, hash, choice != 0 && forall p | p in ch.pods :: p.hash == hash))
    case Checked(seen, hash, rolledOut) =>
      ch.(pass := Idle,
          status := ChildStatus(seen.generation,
                                if rolledOut then seen.annotation else ch.status.applied,
                                rolledOut && choice != 0))
  }

  /** A replica set starts a pod: it carries that set's hash and reads the secret as it is now. */
  function Start(ch: Child, h: InputHash): Child {
    if ch.own.Some? && (ch.template == Some(h) || exists p | p in ch.pods :: p.hash == h)
    then ch.(pods := ch.pods + {Pod(h, ch.own.value)})
    else ch
  }

  /** A container restart re-reads the mounted secret but keeps the pod's stamp. */
  function Restart(ch: Child, p: Pod): Child {
    if ch.own.Some? && p in ch.pods
    then ch.(pods := ch.pods - {p} + {Pod(p.hash, ch.own.value)})
    else ch
  }
}
