/** The ordered gates of `reconcileNormal` and the conditions a pass leaves behind.

    The code is a sequence of calls with early returns, each of which may set a condition on
    the way out. The specification is a table: which call settles a condition, and which
    conditions a failing call blames. The passes of the code are proved to leave exactly what
    the table says, and the gate order is proved of the table.
 */
module Stages {
  import opened Names

  datatype Outcome = Done | Waiting | Error

  datatype Status = Unknown | True | False

  datatype Condition =
    | RbacReady | InputReady | MemcachedReady | TransportUrlReady | NotificationBusReady | AccountReady | DatabaseReady
    | ServiceConfigReady | DbSyncReady | CronJobReady | StackDomainReady | EngineReady | ApiReady | CfnApiReady | Ready

  /** The calls out of a pass, in the order in which they are made. */
  datatype Call =
    | ReconcileRbac | VerifyServiceSecret | VerifyCredential
    | GetMemcached | MemcachedIsReady
    | CreateTransportUrl | TransportUrlHasSecret | ProtectTransport | VerifyTransport
    | CreateNotificationsUrl | NotificationsUrlHasSecret | ProtectNotifications | VerifyNotifications
    | EnsureAccount | CreateDatabase | WaitForDatabase
    | ReadCustomSecrets | WriteConfig | HashInputs | ProtectCredential
    | SyncDatabase
    | DropUnusedAccounts | CreatePurgeJob
    | GetServiceSecret | EnsureStackDomain
    | HashNames | DeployEngine | DeployApi | DeployCfnApi
    | FinalizeCredential

  function Position(call: Call): nat {
    match call
    case ReconcileRbac => 0 case VerifyServiceSecret => 1 case VerifyCredential => 2
    case GetMemcached => 3 case MemcachedIsReady => 4
    case CreateTransportUrl => 5 case TransportUrlHasSecret => 6 case ProtectTransport => 7 case VerifyTransport => 8
    case CreateNotificationsUrl => 9 case NotificationsUrlHasSecret => 10 case ProtectNotifications => 11
    case VerifyNotifications => 12
    case EnsureAccount => 13 case CreateDatabase => 14 case WaitForDatabase => 15
    case ReadCustomSecrets => 16 case WriteConfig => 17 case HashInputs => 18 case ProtectCredential => 19
    case SyncDatabase => 20
    case DropUnusedAccounts => 21 case CreatePurgeJob => 22
    case GetServiceSecret => 23 case EnsureStackDomain => 24
    case HashNames => 25 case DeployEngine => 26 case DeployApi => 27 case DeployCfnApi => 28
    case FinalizeCredential => 29
  }

  /** What a pass depends on: the spec's two switches, the outcome of every call, and what each
      child reports (its mirrored condition, if it has observed and confirmed what was published). */
  datatype World = World(
    credential: bool,
    bus: bool,
    outcome: Call -> Outcome,
    confirmed: Condition -> bool,
    mirror: Condition -> Status,
    accountBefore: Option<Status>)

  /** The credential calls are made only if one is set, the notification calls only with a bus. */
  predicate Made(w: World, call: Call) {
    match call
    case VerifyCredential => w.credential
    case ProtectCredential => w.credential
    case CreateNotificationsUrl => w.bus
    case NotificationsUrlHasSecret => w.bus
    case ProtectNotifications => w.bus
    case VerifyNotifications => w.bus
    case _ => true
  }

  /** A call that is made stops the pass unless it is done; the purge job alone may be waiting. */
  predicate Stops(w: World, call: Call) {
    Made(w, call) && w.outcome(call) != Done && !(call.CreatePurgeJob? && w.outcome(call) == Waiting)
  }

  /** The conditions a call that stops the pass turns False. Four calls blame nothing. */
  function Blamed(call: Call): set<Condition> {
    match call
    case ReconcileRbac => {RbacReady}
    case VerifyServiceSecret => {InputReady}
    case VerifyCredential => {InputReady}
    case GetMemcached => {MemcachedReady}
    case MemcachedIsReady => {MemcachedReady}
    case CreateTransportUrl => {TransportUrlReady}
    case TransportUrlHasSecret => {TransportUrlReady}
    case ProtectTransport => {}
    case VerifyTransport => {TransportUrlReady}
    case CreateNotificationsUrl => {NotificationBusReady}
    case NotificationsUrlHasSecret => {NotificationBusReady}
    case ProtectNotifications => {}
    case VerifyNotifications => {NotificationBusReady}
    case EnsureAccount => {AccountReady}
    case CreateDatabase => {DatabaseReady}
    case WaitForDatabase => {DatabaseReady}
    case ReadCustomSecrets => {InputReady, ServiceConfigReady}
    case WriteConfig => {ServiceConfigReady}
    case HashInputs => {ServiceConfigReady}
    case ProtectCredential => {ServiceConfigReady}
    case SyncDatabase => {DbSyncReady}
    case DropUnusedAccounts => {}
    case CreatePurgeJob => {CronJobReady}
    case GetServiceSecret => {}
    case EnsureStackDomain => {StackDomainReady}
    case HashNames => {}
    case DeployEngine => {EngineReady}
    case DeployApi => {ApiReady}
    case DeployCfnApi => {CfnApiReady}
    case FinalizeCredential => {}
  }

  /** The call after which a condition is settled. */
  function SettledBy(c: Condition): Call {
    match c
    case RbacReady => ReconcileRbac
    case InputReady => VerifyCredential
    case MemcachedReady => MemcachedIsReady
    case TransportUrlReady => VerifyTransport
    case NotificationBusReady => VerifyNotifications
    case AccountReady => EnsureAccount
    case DatabaseReady => WaitForDatabase
    case ServiceConfigReady => ProtectCredential
    case DbSyncReady => SyncDatabase
    case CronJobReady => CreatePurgeJob
    case StackDomainReady => EnsureStackDomain
    case EngineReady => DeployEngine
    case ApiReady => DeployApi
    case CfnApiReady => DeployCfnApi
    case Ready => FinalizeCredential
  }

  predicate OfService(c: Condition) {
    c.EngineReady? || c.ApiReady? || c.CfnApiReady?
  }

  /** `AllSubConditionIsTrue` at the end: only the children can still say no. */
  predicate ChildrenReady(w: World) {
    forall c | c in {EngineReady, ApiReady, CfnApiReady} :: w.confirmed(c) && w.mirror(c) == True
  }

  /** What a condition is settled to; None is a removed condition. */
  function Verdict(w: World, c: Condition): Option<Status> {
    if c.NotificationBusReady? && !w.bus then None
    else if OfService(c) then Some(if w.confirmed(c) then w.mirror(c) else Unknown)
    else if c.Ready? then Some(if ChildrenReady(w) then True else Unknown)
    else Some(True)
  }

  /** After `Conditions.Init`; the account condition is not on its list. */
  function Start(w: World, c: Condition): Option<Status> {
    if c.AccountReady? then w.accountBefore else Some(Unknown)
  }

  /** The table when every call before position n has been passed. */
  function Settled(w: World, n: nat, c: Condition): Option<Status> {
    if Position(SettledBy(c)) < n then Verdict(w, c) else Start(w, c)
  }

  /** The table when the pass has stopped at a call. */
  function StoppedAt(w: World, call: Call, c: Condition): Option<Status> {
    if c in Blamed(call) then Some(False) else Settled(w, Position(call), c)
  }

  predicate PassedUpTo(w: World, n: nat) {
    forall call: Call :: Position(call) < n ==> !Stops(w, call)
  }

  lemma PositionIsInjective(a: Call, b: Call)
    ensures Position(a) == Position(b) <==> a == b
  {
  }

  lemma SettledByIsInjective(c: Condition, d: Condition)
    ensures SettledBy(c) == SettledBy(d) <==> c == d
  {
  }

  lemma PassedOneMore(w: World, call: Call)
    requires PassedUpTo(w, Position(call)) && !Stops(w, call)
    ensures PassedUpTo(w, Position(call) + 1)
  {
    forall other: Call | Position(other) < Position(call) + 1 ensures !Stops(w, other) {
      PositionIsInjective(other, call);
    }
  }

  /** The whole pass: the call that stopped it, if any, is the first that stops. */
  predicate EndsAt(w: World, stop: Option<Call>) {
    match stop
    case None => PassedUpTo(w, 30)
    case Some(call) => Stops(w, call) && PassedUpTo(w, Position(call))
  }

  function Final(w: World, stop: Option<Call>, c: Condition): Option<Status> {
    match stop
    case None => Settled(w, 30, c)
    case Some(call) => StoppedAt(w, call, c)
  }

  // ---------------------------------------------------------------- the gates, in order

  const Gates: seq<Condition> :=
    [MemcachedReady, TransportUrlReady, NotificationBusReady, DatabaseReady, ServiceConfigReady, DbSyncReady,
     CronJobReady, StackDomainReady]

  /** True, or removed because there is no bus. */
  predicate Passed(status: Option<Status>) {
    status == Some(True) || status.None?
  }

  lemma UnpassedGateStops(w: World, stop: Option<Call>, i: nat)
    requires EndsAt(w, stop) && i < |Gates|
    ensures Passed(Final(w, stop, Gates[i])) <==> stop.None? || Position(stop.value) > Position(SettledBy(Gates[i]))
  {
  }

  lemma EarlierCallsDoNotBlame(call: Call, i: nat, j: nat)
    requires i < j < |Gates| && Position(call) <= Position(SettledBy(Gates[i]))
    ensures Gates[j] !in Blamed(call) && Position(call) <= Position(SettledBy(Gates[j]))
  {
  }

  /** Gate order: behind a gate that was not passed every later gate is Unknown. */
  lemma LaterGatesAreUnknown(w: World, stop: Option<Call>, i: nat, j: nat)
    requires EndsAt(w, stop) && i < j < |Gates|
    requires !Passed(Final(w, stop, Gates[i]))
    ensures Final(w, stop, Gates[j]) == Some(Unknown)
  {
    UnpassedGateStops(w, stop, i);
    EarlierCallsDoNotBlame(stop.value, i, j);
  }

  /** A gate is passed if and only if no call up to the one that settles it stopped the pass. */
  lemma GatePassedIff(w: World, stop: Option<Call>, i: nat)
    requires EndsAt(w, stop) && i < |Gates|
    ensures Passed(Final(w, stop, Gates[i])) <==> PassedUpTo(w, Position(SettledBy(Gates[i])) + 1)
  {
    UnpassedGateStops(w, stop, i);
  }

  /** A child is written if and only if every gate was passed and neither the hash nor a write
      up to its own failed. */
  lemma ChildWrittenIff(w: World, stop: Option<Call>, c: Condition)
    requires EndsAt(w, stop) && OfService(c)
    ensures PassedUpTo(w, Position(SettledBy(c)) + 1)
            <==> (forall i | 0 <= i < |Gates| :: Passed(Final(w, stop, Gates[i])))
                 && (stop.Some? ==> stop.value !in {HashNames, DeployEngine, DeployApi, DeployCfnApi}
                                    || Position(stop.value) > Position(SettledBy(c)))
  {
    assert 26 <= Position(SettledBy(c)) <= 28;
    if PassedUpTo(w, Position(SettledBy(c)) + 1) {
      EveryGatePassed(w, stop);
    } else {
      StopsAtOrBefore(w, stop, Position(SettledBy(c)) + 1);
      if forall i | 0 <= i < |Gates| :: Passed(Final(w, stop, Gates[i])) {
        UnpassedGateStops(w, stop, 7);
        OnlyHashAndDeploy(stop.value);
      }
    }
  }

  lemma EveryGatePassed(w: World, stop: Option<Call>)
    requires EndsAt(w, stop) && PassedUpTo(w, 26)
    ensures forall i | 0 <= i < |Gates| :: Passed(Final(w, stop, Gates[i]))
    ensures stop.Some? ==> stop.value != HashNames
  {
    forall i | 0 <= i < |Gates| ensures Passed(Final(w, stop, Gates[i])) {
      UnpassedGateStops(w, stop, i);
    }
  }

  lemma OnlyHashAndDeploy(call: Call)
    ensures 25 <= Position(call) <= 28 <==> call in {HashNames, DeployEngine, DeployApi, DeployCfnApi}
  {
  }

  lemma StopsAtOrBefore(w: World, stop: Option<Call>, n: nat)
    requires EndsAt(w, stop) && !PassedUpTo(w, n) && n <= 30
    ensures stop.Some? && Position(stop.value) < n
  {
  }

  /** A False condition names the call that failed: everything made before it went through. */
  lemma FalseNamesTheCall(w: World, stop: Option<Call>, c: Condition)
    requires EndsAt(w, stop) && Final(w, stop, c) == Some(False)
    requires !OfService(c) && !c.AccountReady?
    ensures stop.Some? && c in Blamed(stop.value) && Stops(w, stop.value) && PassedUpTo(w, Position(stop.value))
  {
  }

  /** Ready if and only if nothing stopped the pass up to the credential's rotation and all three
      children have confirmed and mirror True. */
  lemma ReadyIff(w: World, stop: Option<Call>)
    requires EndsAt(w, stop)
    ensures Final(w, stop, Ready) == Some(True) <==> stop.None? && ChildrenReady(w)
    ensures Final(w, stop, Ready) == Some(True) ==> forall c: Condition :: Passed(Final(w, stop, c))
  {
  }

  // ---------------------------------------------------------------- by what the calls came back with

  predicate InputsVerified(w: World) {
    && w.outcome(ReconcileRbac) == Done && w.outcome(VerifyServiceSecret) == Done
    && (w.credential ==> w.outcome(VerifyCredential) == Done)
  }

  predicate MemcachedUp(w: World) {
    InputsVerified(w) && w.outcome(GetMemcached) == Done && w.outcome(MemcachedIsReady) == Done
  }

  predicate TransportUp(w: World) {
    && MemcachedUp(w)
    && w.outcome(CreateTransportUrl) == Done && w.outcome(TransportUrlHasSecret) == Done
    && w.outcome(ProtectTransport) == Done && w.outcome(VerifyTransport) == Done
  }

  predicate BusUp(w: World) {
    && TransportUp(w)
    && (w.bus ==>
          && w.outcome(CreateNotificationsUrl) == Done && w.outcome(NotificationsUrlHasSecret) == Done
          && w.outcome(ProtectNotifications) == Done && w.outcome(VerifyNotifications) == Done)
  }

  predicate AccountThere(w: World) {
    BusUp(w) && w.outcome(EnsureAccount) == Done
  }

  predicate DatabaseUp(w: World) {
    AccountThere(w) && w.outcome(CreateDatabase) == Done && w.outcome(WaitForDatabase) == Done
  }

  predicate ConfigWritten(w: World) {
    && DatabaseUp(w)
    && w.outcome(ReadCustomSecrets) == Done && w.outcome(WriteConfig) == Done && w.outcome(HashInputs) == Done
    && (w.credential ==> w.outcome(ProtectCredential) == Done)
  }

  predicate DatabaseSynced(w: World) {
    ConfigWritten(w) && w.outcome(SyncDatabase) == Done
  }

  /** The purge job alone may still be running. */
  predicate DatabaseCleaned(w: World) {
    && DatabaseSynced(w)
    && w.outcome(DropUnusedAccounts) == Done
    && (w.outcome(CreatePurgeJob) == Done || w.outcome(CreatePurgeJob) == Waiting)
  }

  predicate StacksPrepared(w: World) {
    DatabaseCleaned(w) && w.outcome(GetServiceSecret) == Done && w.outcome(EnsureStackDomain) == Done
  }

  predicate NamesHashed(w: World) {
    StacksPrepared(w) && w.outcome(HashNames) == Done
  }

  predicate EngineWritten(w: World) {
    NamesHashed(w) && w.outcome(DeployEngine) == Done
  }

  predicate ApiWritten(w: World) {
    EngineWritten(w) && w.outcome(DeployApi) == Done
  }

  predicate CfnApiWritten(w: World) {
    ApiWritten(w) && w.outcome(DeployCfnApi) == Done
  }

  predicate Rotated(w: World) {
    CfnApiWritten(w) && w.outcome(FinalizeCredential) == Done
  }

  /** A gate that was not come to is Unknown, and otherwise True or False. */
  function Gate(reached: bool, passed: bool): Option<Status> {
    Some(if !reached then Unknown else if passed then True else False)
  }

  /** A child's own condition, once the child has been written and has confirmed. */
  function Mirrored(w: World, c: Condition, reached: bool, written: bool): Option<Status> {
    if written then Some(if w.confirmed(c) then w.mirror(c) else Unknown) else Gate(reached, false)
  }

  /** What a condition says at the end of a pass, in terms of outcomes alone. */
  function Told(w: World, c: Condition): Option<Status> {
    match c
    case RbacReady => Gate(true, w.outcome(ReconcileRbac) == Done)
    case InputReady =>
      // a custom secret that cannot be read takes it back
      Gate(w.outcome(ReconcileRbac) == Done,
           InputsVerified(w) && (DatabaseUp(w) ==> w.outcome(ReadCustomSecrets) == Done))
    case MemcachedReady => Gate(InputsVerified(w), MemcachedUp(w))
    case TransportUrlReady =>
      // a finalizer that cannot be added is not blamed on it
      if MemcachedUp(w) && w.outcome(CreateTransportUrl) == Done && w.outcome(TransportUrlHasSecret) == Done
         && w.outcome(ProtectTransport) != Done then Some(Unknown)
      else Gate(MemcachedUp(w), TransportUp(w))
    case NotificationBusReady =>
      if TransportUp(w) && !w.bus then None
      else if TransportUp(w) && w.outcome(CreateNotificationsUrl) == Done
              && w.outcome(NotificationsUrlHasSecret) == Done && w.outcome(ProtectNotifications) != Done
      then Some(Unknown)
      else Gate(TransportUp(w), BusUp(w))
    case AccountReady => if BusUp(w) then Gate(true, AccountThere(w)) else w.accountBefore
    case DatabaseReady => Gate(AccountThere(w), DatabaseUp(w))
    case ServiceConfigReady => Gate(DatabaseUp(w), ConfigWritten(w))
    case DbSyncReady => Gate(ConfigWritten(w), w.outcome(SyncDatabase) == Done)
    case CronJobReady => Gate(DatabaseSynced(w) && w.outcome(DropUnusedAccounts) == Done, DatabaseCleaned(w))
    case StackDomainReady => Gate(DatabaseCleaned(w) && w.outcome(GetServiceSecret) == Done, StacksPrepared(w))
    case EngineReady => Mirrored(w, c, NamesHashed(w), EngineWritten(w))
    case ApiReady => Mirrored(w, c, EngineWritten(w), ApiWritten(w))
    case CfnApiReady => Mirrored(w, c, ApiWritten(w), CfnApiWritten(w))
    case Ready =>
      Some(if Rotated(w) && w.confirmed(EngineReady) && w.confirmed(ApiReady) && w.confirmed(CfnApiReady)
              && w.mirror(EngineReady) == True && w.mirror(ApiReady) == True && w.mirror(CfnApiReady) == True
           then True else Unknown)
  }

  /** The children that have been written, in terms of outcomes alone. */
  function Wrote(w: World): set<Condition> {
    (if EngineWritten(w) then {EngineReady} else {}) + (if ApiWritten(w) then {ApiReady} else {})
    + (if CfnApiWritten(w) then {CfnApiReady} else {})
  }

  lemma OneCall(w: World, call: Call)
    ensures PassedUpTo(w, Position(call) + 1) <==> PassedUpTo(w, Position(call)) && !Stops(w, call)
  {
    if PassedUpTo(w, Position(call)) && !Stops(w, call) {
      PassedOneMore(w, call);
    }
  }

  /** How far a pass gets, as outcomes. */
  lemma GatesAreOutcomes(w: World)
    ensures PassedUpTo(w, 0)
    ensures PassedUpTo(w, 3) <==> InputsVerified(w)
    ensures PassedUpTo(w, 5) <==> MemcachedUp(w)
    ensures PassedUpTo(w, 9) <==> TransportUp(w)
    ensures PassedUpTo(w, 13) <==> BusUp(w)
    ensures PassedUpTo(w, 14) <==> AccountThere(w)
    ensures PassedUpTo(w, 16) <==> DatabaseUp(w)
  {
    hide PassedUpTo;
    assert PassedUpTo(w, 0) by {
      NothingYet(w);
    }
    OneCall(w, ReconcileRbac);
    OneCall(w, VerifyServiceSecret);
    OneCall(w, VerifyCredential);
    OneCall(w, GetMemcached);
    OneCall(w, MemcachedIsReady);
    OneCall(w, CreateTransportUrl);
    OneCall(w, TransportUrlHasSecret);
    OneCall(w, ProtectTransport);
    OneCall(w, VerifyTransport);
    OneCall(w, CreateNotificationsUrl);
    OneCall(w, NotificationsUrlHasSecret);
    OneCall(w, ProtectNotifications);
    OneCall(w, VerifyNotifications);
    OneCall(w, EnsureAccount);
    OneCall(w, CreateDatabase);
    OneCall(w, WaitForDatabase);
  }

  lemma NothingYet(w: World)
    ensures PassedUpTo(w, 0)
  {
  }

  lemma TasksAreOutcomes(w: World)
    ensures PassedUpTo(w, 20) <==> ConfigWritten(w)
    ensures PassedUpTo(w, 21) <==> DatabaseSynced(w)
    ensures PassedUpTo(w, 23) <==> DatabaseCleaned(w)
    ensures PassedUpTo(w, 25) <==> StacksPrepared(w)
  {
    hide PassedUpTo, DatabaseUp;
    GatesAreOutcomes(w);
    OneCall(w, ReadCustomSecrets);
    OneCall(w, WriteConfig);
    OneCall(w, HashInputs);
    OneCall(w, ProtectCredential);
    OneCall(w, SyncDatabase);
    OneCall(w, DropUnusedAccounts);
    OneCall(w, CreatePurgeJob);
    OneCall(w, GetServiceSecret);
    OneCall(w, EnsureStackDomain);
  }

  lemma WritesAreOutcomes(w: World)
    ensures PassedUpTo(w, 26) <==> NamesHashed(w)
    ensures PassedUpTo(w, 27) <==> EngineWritten(w)
    ensures PassedUpTo(w, 28) <==> ApiWritten(w)
    ensures PassedUpTo(w, 29) <==> CfnApiWritten(w)
    ensures PassedUpTo(w, 30) <==> Rotated(w)
  {
    hide PassedUpTo, StacksPrepared;
    TasksAreOutcomes(w);
    OneCall(w, HashNames);
    OneCall(w, DeployEngine);
    OneCall(w, DeployApi);
    OneCall(w, DeployCfnApi);
    OneCall(w, FinalizeCredential);
  }

  /** Where the pass stopped is how far it got. */
  lemma StopIsReach(w: World, stop: Option<Call>, call: Call)
    requires EndsAt(w, stop)
    ensures PassedUpTo(w, Position(call)) <==> stop.None? || Position(call) <= Position(stop.value)
    ensures PassedUpTo(w, Position(call) + 1) <==> stop.None? || Position(call) < Position(stop.value)
    ensures PassedUpTo(w, Position(call) + 1) <==> PassedUpTo(w, Position(call)) && !Stops(w, call)
    ensures PassedUpTo(w, Position(call)) ==> (stop == Some(call) <==> Stops(w, call))
    ensures stop == Some(call) ==> PassedUpTo(w, Position(call)) && Stops(w, call)
  {
    OneCall(w, call);
    if PassedUpTo(w, Position(call)) && stop.Some? {
      PositionIsInjective(call, stop.value);
    }
  }

  /** Which calls turn a condition False. */
  lemma Blamers(call: Call)
    ensures RbacReady in Blamed(call) <==> call == ReconcileRbac
    ensures InputReady in Blamed(call) <==> call in {VerifyServiceSecret, VerifyCredential, ReadCustomSecrets}
    ensures MemcachedReady in Blamed(call) <==> call in {GetMemcached, MemcachedIsReady}
    ensures TransportUrlReady in Blamed(call)
            <==> call in {CreateTransportUrl, TransportUrlHasSecret, VerifyTransport}
    ensures NotificationBusReady in Blamed(call)
            <==> call in {CreateNotificationsUrl, NotificationsUrlHasSecret, VerifyNotifications}
    ensures AccountReady in Blamed(call) <==> call == EnsureAccount
    ensures DatabaseReady in Blamed(call) <==> call in {CreateDatabase, WaitForDatabase}
    ensures ServiceConfigReady in Blamed(call)
            <==> call in {ReadCustomSecrets, WriteConfig, HashInputs, ProtectCredential}
    ensures DbSyncReady in Blamed(call) <==> call == SyncDatabase
    ensures CronJobReady in Blamed(call) <==> call == CreatePurgeJob
    ensures StackDomainReady in Blamed(call) <==> call == EnsureStackDomain
    ensures EngineReady in Blamed(call) <==> call == DeployEngine
    ensures ApiReady in Blamed(call) <==> call == DeployApi
    ensures CfnApiReady in Blamed(call) <==> call == DeployCfnApi
    ensures Ready !in Blamed(call)
  {
  }

  /** The value of a condition, by whether the pass came past the call that settles it. */
  lemma FinalIs(w: World, stop: Option<Call>, c: Condition)
    requires EndsAt(w, stop)
    ensures Final(w, stop, c)
            == if stop.Some? && c in Blamed(stop.value) then Some(False)
               else if PassedUpTo(w, Position(SettledBy(c)) + 1) then Verdict(w, c)
               else Start(w, c)
  {
    StopIsReach(w, stop, SettledBy(c));
    hide Blamed, Position, PassedUpTo;
  }

  lemma GatePositions()
    ensures Position(ReconcileRbac) == 0 && Position(VerifyServiceSecret) == 1 && Position(VerifyCredential) == 2
    ensures Position(GetMemcached) == 3 && Position(MemcachedIsReady) == 4
    ensures Position(CreateTransportUrl) == 5 && Position(TransportUrlHasSecret) == 6
    ensures Position(ProtectTransport) == 7 && Position(VerifyTransport) == 8
    ensures Position(CreateNotificationsUrl) == 9 && Position(NotificationsUrlHasSecret) == 10
    ensures Position(ProtectNotifications) == 11 && Position(VerifyNotifications) == 12
    ensures Position(EnsureAccount) == 13 && Position(CreateDatabase) == 14 && Position(WaitForDatabase) == 15
  {
  }

  lemma TaskPositions()
    ensures Position(ReadCustomSecrets) == 16 && Position(WriteConfig) == 17 && Position(HashInputs) == 18
    ensures Position(ProtectCredential) == 19 && Position(SyncDatabase) == 20
    ensures Position(DropUnusedAccounts) == 21 && Position(CreatePurgeJob) == 22
  {
  }

  lemma WritePositions()
    ensures Position(GetServiceSecret) == 23 && Position(EnsureStackDomain) == 24 && Position(HashNames) == 25
    ensures Position(DeployEngine) == 26 && Position(DeployApi) == 27 && Position(DeployCfnApi) == 28
    ensures Position(FinalizeCredential) == 29
  {
  }

  lemma ThirtyCalls(call: Call)
    ensures Position(call) < 30
  {
  }

  lemma ToldOfInputs(w: World, stop: Option<Call>)
    requires EndsAt(w, stop)
    ensures Final(w, stop, RbacReady) == Told(w, RbacReady)
    ensures Final(w, stop, InputReady) == Told(w, InputReady)
  {
    hide Position, Blamed, Final, PassedUpTo, EndsAt, InputsVerified, DatabaseUp;
    GatesAreOutcomes(w);
    FinalIs(w, stop, RbacReady);
    FinalIs(w, stop, InputReady);
    StopIsReach(w, stop, ReconcileRbac);
    StopIsReach(w, stop, VerifyServiceSecret);
    StopIsReach(w, stop, VerifyCredential);
    StopIsReach(w, stop, ReadCustomSecrets);
    if stop.Some? {
      Blamers(stop.value);
    }
    GatePositions();
    TaskPositions();
  }

  lemma ToldOfMemcached(w: World, stop: Option<Call>)
    requires EndsAt(w, stop)
    ensures Final(w, stop, MemcachedReady) == Told(w, MemcachedReady)
  {
    hide Position, Blamed, Final, PassedUpTo, EndsAt, InputsVerified, MemcachedUp;
    GatesAreOutcomes(w);
    FinalIs(w, stop, MemcachedReady);
    StopIsReach(w, stop, GetMemcached);
    StopIsReach(w, stop, MemcachedIsReady);
    if stop.Some? {
      Blamers(stop.value);
    }
    GatePositions();
  }

  lemma ToldOfTransport(w: World, stop: Option<Call>)
    requires EndsAt(w, stop)
    ensures Final(w, stop, TransportUrlReady) == Told(w, TransportUrlReady)
  {
    hide Position, Blamed, Final, PassedUpTo, EndsAt, MemcachedUp, TransportUp;
    GatesAreOutcomes(w);
    FinalIs(w, stop, TransportUrlReady);
    StopIsReach(w, stop, CreateTransportUrl);
    StopIsReach(w, stop, TransportUrlHasSecret);
    StopIsReach(w, stop, ProtectTransport);
    StopIsReach(w, stop, VerifyTransport);
    if stop.Some? {
      Blamers(stop.value);
    }
    GatePositions();
  }

  lemma ToldOfBus(w: World, stop: Option<Call>)
    requires EndsAt(w, stop)
    ensures Final(w, stop, NotificationBusReady) == Told(w, NotificationBusReady)
  {
    hide Position, Blamed, Final, PassedUpTo, EndsAt, TransportUp, BusUp;
    GatesAreOutcomes(w);
    FinalIs(w, stop, NotificationBusReady);
    StopIsReach(w, stop, CreateNotificationsUrl);
    StopIsReach(w, stop, NotificationsUrlHasSecret);
    StopIsReach(w, stop, ProtectNotifications);
    StopIsReach(w, stop, VerifyNotifications);
    if stop.Some? {
      Blamers(stop.value);
    }
    GatePositions();
  }

  lemma ToldOfDatabase(w: World, stop: Option<Call>)
    requires EndsAt(w, stop)
    ensures Final(w, stop, AccountReady) == Told(w, AccountReady)
    ensures Final(w, stop, DatabaseReady) == Told(w, DatabaseReady)
  {
    hide Position, Blamed, Final, PassedUpTo, EndsAt, BusUp, AccountThere, DatabaseUp;
    GatesAreOutcomes(w);
    FinalIs(w, stop, AccountReady);
    FinalIs(w, stop, DatabaseReady);
    StopIsReach(w, stop, EnsureAccount);
    StopIsReach(w, stop, CreateDatabase);
    StopIsReach(w, stop, WaitForDatabase);
    if stop.Some? {
      Blamers(stop.value);
    }
    GatePositions();
  }

  lemma ToldOfConfig(w: World, stop: Option<Call>)
    requires EndsAt(w, stop)
    ensures Final(w, stop, ServiceConfigReady) == Told(w, ServiceConfigReady)
  {
    hide Position, Blamed, Final, PassedUpTo, EndsAt, DatabaseUp, ConfigWritten;
    TasksAreOutcomes(w);
    GatesAreOutcomes(w);
    FinalIs(w, stop, ServiceConfigReady);
    StopIsReach(w, stop, ReadCustomSecrets);
    StopIsReach(w, stop, WriteConfig);
    StopIsReach(w, stop, HashInputs);
    StopIsReach(w, stop, ProtectCredential);
    if stop.Some? {
      Blamers(stop.value);
    }
    TaskPositions();
  }

  lemma ToldOfSync(w: World, stop: Option<Call>)
    requires EndsAt(w, stop)
    ensures Final(w, stop, DbSyncReady) == Told(w, DbSyncReady)
  {
    hide Position, Blamed, Final, PassedUpTo, EndsAt, ConfigWritten, DatabaseSynced;
    TasksAreOutcomes(w);
    FinalIs(w, stop, DbSyncReady);
    StopIsReach(w, stop, SyncDatabase);
    if stop.Some? {
      Blamers(stop.value);
    }
    TaskPositions();
  }

  lemma ToldOfPurge(w: World, stop: Option<Call>)
    requires EndsAt(w, stop)
    ensures Final(w, stop, CronJobReady) == Told(w, CronJobReady)
  {
    hide Position, Blamed, Final, PassedUpTo, EndsAt, DatabaseSynced, DatabaseCleaned;
    TasksAreOutcomes(w);
    FinalIs(w, stop, CronJobReady);
    StopIsReach(w, stop, DropUnusedAccounts);
    StopIsReach(w, stop, CreatePurgeJob);
    if stop.Some? {
      Blamers(stop.value);
    }
    TaskPositions();
  }

  lemma ToldOfStacks(w: World, stop: Option<Call>)
    requires EndsAt(w, stop)
    ensures Final(w, stop, StackDomainReady) == Told(w, StackDomainReady)
  {
    hide Position, Blamed, Final, PassedUpTo, EndsAt, DatabaseCleaned, StacksPrepared;
    TasksAreOutcomes(w);
    FinalIs(w, stop, StackDomainReady);
    StopIsReach(w, stop, GetServiceSecret);
    StopIsReach(w, stop, EnsureStackDomain);
    if stop.Some? {
      Blamers(stop.value);
    }
    WritePositions();
  }

  lemma ToldOfChildren(w: World, stop: Option<Call>)
    requires EndsAt(w, stop)
    ensures Final(w, stop, EngineReady) == Told(w, EngineReady)
    ensures Final(w, stop, ApiReady) == Told(w, ApiReady)
    ensures Final(w, stop, CfnApiReady) == Told(w, CfnApiReady)
  {
    hide Position, Blamed, Final, PassedUpTo, EndsAt, NamesHashed, EngineWritten, ApiWritten, CfnApiWritten;
    WritesAreOutcomes(w);
    FinalIs(w, stop, EngineReady);
    FinalIs(w, stop, ApiReady);
    FinalIs(w, stop, CfnApiReady);
    StopIsReach(w, stop, DeployEngine);
    StopIsReach(w, stop, DeployApi);
    StopIsReach(w, stop, DeployCfnApi);
    if stop.Some? {
      Blamers(stop.value);
    }
    WritePositions();
  }

  lemma ChildrenReadyIff(w: World)
    ensures ChildrenReady(w)
            <==> w.confirmed(EngineReady) && w.confirmed(ApiReady) && w.confirmed(CfnApiReady)
                 && w.mirror(EngineReady) == True && w.mirror(ApiReady) == True && w.mirror(CfnApiReady) == True
  {
  }

  lemma ToldOfReady(w: World, stop: Option<Call>)
    requires EndsAt(w, stop)
    ensures Final(w, stop, Ready) == Told(w, Ready) && (stop.None? <==> Rotated(w))
  {
    hide Position, Blamed, Final, PassedUpTo, EndsAt, Rotated, ChildrenReady;
    WritesAreOutcomes(w);
    FinalIs(w, stop, Ready);
    ChildrenReadyIff(w);
    StopIsReach(w, stop, FinalizeCredential);
    if stop.Some? {
      Blamers(stop.value);
      ThirtyCalls(stop.value);
    }
    WritePositions();
  }

  /** The table says exactly what the outcomes say. */
  lemma TableIsOutcomes(w: World, stop: Option<Call>)
    requires EndsAt(w, stop)
    ensures forall c: Condition :: Final(w, stop, c) == Told(w, c)
    ensures forall c: Condition :: c in Wrote(w) <==> OfService(c) && PassedUpTo(w, Position(SettledBy(c)) + 1)
    ensures stop.None? <==> Rotated(w)
  {
    hide Position, PassedUpTo, EndsAt, Final, Told, NamesHashed, EngineWritten, ApiWritten, CfnApiWritten, Rotated;
    WritesAreOutcomes(w);
    ToldOfReady(w, stop);
    WritePositions();
    forall c: Condition ensures Final(w, stop, c) == Told(w, c) {
      match c
      case RbacReady => ToldOfInputs(w, stop);
      case InputReady => ToldOfInputs(w, stop);
      case MemcachedReady => ToldOfMemcached(w, stop);
      case TransportUrlReady => ToldOfTransport(w, stop);
      case NotificationBusReady => ToldOfBus(w, stop);
      case AccountReady => ToldOfDatabase(w, stop);
      case DatabaseReady => ToldOfDatabase(w, stop);
      case ServiceConfigReady => ToldOfConfig(w, stop);
      case DbSyncReady => ToldOfSync(w, stop);
      case CronJobReady => ToldOfPurge(w, stop);
      case StackDomainReady => ToldOfStacks(w, stop);
      case Ready =>
      case _ => ToldOfChildren(w, stop);
    }
  }

  /** A child is written only when every call before it was done, but for the calls that the spec
      does not ask for, and for the purge job, which may still be running. */
  lemma WrittenMeansDone(w: World, c: Condition, call: Call)
    requires c in Wrote(w)
    requires call !in {DeployEngine, DeployApi, DeployCfnApi, FinalizeCredential}
    requires call in {VerifyCredential, ProtectCredential} ==> w.credential
    requires call in {CreateNotificationsUrl, NotificationsUrlHasSecret, ProtectNotifications, VerifyNotifications} ==>
               w.bus
    ensures w.outcome(call) == Done || (call == CreatePurgeJob && w.outcome(call) == Waiting)
    ensures c == ApiReady || c == CfnApiReady ==> w.outcome(DeployEngine) == Done
    ensures c == CfnApiReady ==> w.outcome(DeployApi) == Done
  {
  }

  // ---------------------------------------------------------------- the pass as it is coded

  function Lookup(m: map<Condition, Status>, c: Condition): Option<Status> {
    if c in m then Some(m[c]) else None
  }

  /** The condition list of the instance in memory, and what the pass wrote to the cluster. */
  class HeatPass {
    const w: World
    var conditions: map<Condition, Status>
    var written: set<Condition>    // the children, by their condition

    /** Every call before position n has been passed. */
    ghost predicate Reached(n: nat)
      reads this
    {
      && PassedUpTo(w, n)
      && (forall c: Condition :: Lookup(conditions, c) == Settled(w, n, c))
      && (forall c: Condition :: c in written <==> OfService(c) && Position(SettledBy(c)) < n)
    }

    /** The pass has stopped at a call between positions m and n. */
    ghost predicate Stopped(call: Call, m: nat, n: nat)
      reads this
    {
      && m <= Position(call) < n && Stops(w, call) && PassedUpTo(w, Position(call))
      && (forall c: Condition :: Lookup(conditions, c) == StoppedAt(w, call, c))
      && (forall c: Condition :: c in written <==> OfService(c) && Position(SettledBy(c)) < Position(call))
    }

    /** A stretch of calls from position m to position n has been gone through, or has stopped. */
    ghost predicate Section(stop: Option<Call>, m: nat, n: nat)
      reads this
    {
      match stop
      case None => Reached(n)
      case Some(call) => Stopped(call, m, n)
    }

    /** `Conditions.Init` */
    constructor (w: World)
      ensures Reached(0) && this.w == w
    {
      this.w := w;
      var listed := map[
        RbacReady := Unknown, InputReady := Unknown, MemcachedReady := Unknown, TransportUrlReady := Unknown,
        NotificationBusReady := Unknown, DatabaseReady := Unknown, ServiceConfigReady := Unknown,
        DbSyncReady := Unknown,
        CronJobReady := Unknown, StackDomainReady := Unknown, EngineReady := Unknown, ApiReady := Unknown,
        CfnApiReady := Unknown, Ready := Unknown];
      conditions := if w.accountBefore.Some? then listed[AccountReady := w.accountBefore.value] else listed;
      written := {};
    }

    /** The call before position n was not the last one its condition waits for. */
    lemma Through(call: Call)
      requires Reached(Position(call)) && !Stops(w, call)
      requires forall c: Condition :: SettledBy(c) != call
      ensures Reached(Position(call) + 1)
    {
      PassedOneMore(w, call);
      forall c: Condition ensures Position(SettledBy(c)) != Position(call) {
        PositionIsInjective(SettledBy(c), call);
      }
    }

    /** The call settles its condition, which is set, or removed. */
    method Settle(c: Condition, s: Option<Status>)
      requires !OfService(c) && Reached(Position(SettledBy(c))) && !Stops(w, SettledBy(c)) && s == Verdict(w, c)
      modifies this`conditions
      ensures Reached(Position(SettledBy(c)) + 1)
    {
      ghost var n, was := Position(SettledBy(c)), conditions;
      PassedOneMore(w, SettledBy(c));
      conditions := if s.Some? then conditions[c := s.value] else conditions - {c};
      forall c': Condition
        ensures Lookup(conditions, c') == Settled(w, n + 1, c') && (c' != c ==> Position(SettledBy(c')) != n)
      {
        PositionIsInjective(SettledBy(c), SettledBy(c'));
        SettledByIsInjective(c, c');
        assert Lookup(was, c') == Settled(w, n, c');
        assert c' != c ==> Lookup(conditions, c') == Lookup(was, c');
      }
    }

    /** An early return that turns one condition False, or none. */
    method Blame(call: Call, c: Option<Condition>)
      requires Reached(Position(call)) && Stops(w, call)
      requires Blamed(call) == (if c.Some? then {c.value} else {})
      modifies this`conditions
      ensures Stopped(call, Position(call), Position(call) + 1)
    {
      if c.Some? {
        conditions := conditions[c.value := False];
      }
    }

    method VerifyInputs() returns (stop: Option<Call>)
      requires Reached(0)
      modifies this
      ensures Section(stop, 0, 3)
      ensures stop.None? <==> w.outcome(ReconcileRbac) == Done && w.outcome(VerifyServiceSecret) == Done
                              && (w.credential ==> w.outcome(VerifyCredential) == Done)
    {
      if w.outcome(ReconcileRbac) != Done {
        Blame(ReconcileRbac, Some(RbacReady));
        return Some(ReconcileRbac);
      }
      Settle(RbacReady, Some(True));
      if w.outcome(VerifyServiceSecret) != Done {
        Blame(VerifyServiceSecret, Some(InputReady));
        return Some(VerifyServiceSecret);
      }
      Through(VerifyServiceSecret);
      if w.credential {
        if w.outcome(VerifyCredential) != Done {
          Blame(VerifyCredential, Some(InputReady));
          return Some(VerifyCredential);
        }
      }
      Settle(InputReady, Some(True));
      return None;
    }

    method CheckMemcached() returns (stop: Option<Call>)
      requires Reached(3)
      modifies this
      ensures Section(stop, 3, 5)
      ensures stop.None? <==> w.outcome(GetMemcached) == Done && w.outcome(MemcachedIsReady) == Done
    {
      if w.outcome(GetMemcached) != Done {
        Blame(GetMemcached, Some(MemcachedReady));
        return Some(GetMemcached);
      }
      Through(GetMemcached);
      if w.outcome(MemcachedIsReady) != Done {
        Blame(MemcachedIsReady, Some(MemcachedReady));
        return Some(MemcachedIsReady);
      }
      Settle(MemcachedReady, Some(True));
      return None;
    }

    method EnsureTransportUrl() returns (stop: Option<Call>)
      requires Reached(5)
      modifies this
      ensures Section(stop, 5, 9)
      ensures stop.None? <==> w.outcome(CreateTransportUrl) == Done && w.outcome(TransportUrlHasSecret) == Done
                              && w.outcome(ProtectTransport) == Done && w.outcome(VerifyTransport) == Done
    {
      if w.outcome(CreateTransportUrl) != Done {
        Blame(CreateTransportUrl, Some(TransportUrlReady));
        return Some(CreateTransportUrl);
      }
      Through(CreateTransportUrl);
      if w.outcome(TransportUrlHasSecret) != Done {
        Blame(TransportUrlHasSecret, Some(TransportUrlReady));
        return Some(TransportUrlHasSecret);
      }
      Through(TransportUrlHasSecret);
      if w.outcome(ProtectTransport) != Done {
        Blame(ProtectTransport, None);
        return Some(ProtectTransport);
      }
      Through(ProtectTransport);
      if w.outcome(VerifyTransport) != Done {
        Blame(VerifyTransport, Some(TransportUrlReady));
        return Some(VerifyTransport);
      }
      Settle(TransportUrlReady, Some(True));
      return None;
    }

    method EnsureNotifications() returns (stop: Option<Call>)
      requires Reached(9)
      modifies this
      ensures Section(stop, 9, 13)
      ensures stop.None? <==> (w.bus ==>
                                 && w.outcome(CreateNotificationsUrl) == Done
                                 && w.outcome(NotificationsUrlHasSecret) == Done
                                 && w.outcome(ProtectNotifications) == Done && w.outcome(VerifyNotifications) == Done)
    {
      if !w.bus {
        Through(CreateNotificationsUrl);
        Through(NotificationsUrlHasSecret);
        Through(ProtectNotifications);
        Settle(NotificationBusReady, None);
        return None;
      }
      if w.outcome(CreateNotificationsUrl) != Done {
        Blame(CreateNotificationsUrl, Some(NotificationBusReady));
        return Some(CreateNotificationsUrl);
      }
      Through(CreateNotificationsUrl);
      if w.outcome(NotificationsUrlHasSecret) != Done {
        Blame(NotificationsUrlHasSecret, Some(NotificationBusReady));
        return Some(NotificationsUrlHasSecret);
      }
      Through(NotificationsUrlHasSecret);
      if w.outcome(ProtectNotifications) != Done {
        Blame(ProtectNotifications, None);
        return Some(ProtectNotifications);
      }
      Through(ProtectNotifications);
      if w.outcome(VerifyNotifications) != Done {
        Blame(VerifyNotifications, Some(NotificationBusReady));
        return Some(VerifyNotifications);
      }
      Settle(NotificationBusReady, Some(True));
      return None;
    }

    method EnsureDatabase() returns (stop: Option<Call>)
      requires Reached(13)
      modifies this
      ensures Section(stop, 13, 16)
      ensures stop.None? <==> w.outcome(EnsureAccount) == Done && w.outcome(CreateDatabase) == Done
                              && w.outcome(WaitForDatabase) == Done
    {
      if w.outcome(EnsureAccount) != Done {
        Blame(EnsureAccount, Some(AccountReady));
        return Some(EnsureAccount);
      }
      Settle(AccountReady, Some(True));
      if w.outcome(CreateDatabase) != Done {
        Blame(CreateDatabase, Some(DatabaseReady));
        return Some(CreateDatabase);
      }
      Through(CreateDatabase);
      if w.outcome(WaitForDatabase) != Done {
        Blame(WaitForDatabase, Some(DatabaseReady));
        return Some(WaitForDatabase);
      }
      Settle(DatabaseReady, Some(True));
      return None;
    }

    /** A missing custom secret takes back InputReady as well. */
    method TakeBackInput()
      requires Reached(16) && Stops(w, ReadCustomSecrets)
      modifies this`conditions
      ensures Stopped(ReadCustomSecrets, 16, 17)
    {
      conditions := conditions[InputReady := False][ServiceConfigReady := False];
    }

    method GenerateConfig() returns (stop: Option<Call>)
      requires Reached(16)
      modifies this
      ensures Section(stop, 16, 20)
      ensures stop.None? <==> w.outcome(ReadCustomSecrets) == Done && w.outcome(WriteConfig) == Done
                              && w.outcome(HashInputs) == Done
                              && (w.credential ==> w.outcome(ProtectCredential) == Done)
    {
      hide Reached, PassedUpTo;
      if w.outcome(ReadCustomSecrets) != Done {
        TakeBackInput();
        return Some(ReadCustomSecrets);
      }
      Through(ReadCustomSecrets);
      if w.outcome(WriteConfig) != Done {
        Blame(WriteConfig, Some(ServiceConfigReady));
        return Some(WriteConfig);
      }
      Through(WriteConfig);
      if w.outcome(HashInputs) != Done {
        Blame(HashInputs, Some(ServiceConfigReady));
        return Some(HashInputs);
      }
      Through(HashInputs);
      if w.credential {
        if w.outcome(ProtectCredential) != Done {
          Blame(ProtectCredential, Some(ServiceConfigReady));
          return Some(ProtectCredential);
        }
      }
      Settle(ServiceConfigReady, Some(True));
      return None;
    }

    /** `reconcileInit` */
    method ReconcileInit() returns (stop: Option<Call>)
      requires Reached(20)
      modifies this
      ensures Section(stop, 20, 21)
      ensures stop.None? <==> w.outcome(SyncDatabase) == Done
      ensures Lookup(conditions, DbSyncReady) == Some(if w.outcome(SyncDatabase) == Done then True else False)
    {
      if w.outcome(SyncDatabase) != Done {
        Blame(SyncDatabase, Some(DbSyncReady));
        return Some(SyncDatabase);
      }
      Settle(DbSyncReady, Some(True));
      return None;
    }

    method CleanDatabase() returns (stop: Option<Call>)
      requires Reached(21)
      modifies this
      ensures Section(stop, 21, 23)
      ensures stop.None? <==> w.outcome(DropUnusedAccounts) == Done
                              && (w.outcome(CreatePurgeJob) == Done || w.outcome(CreatePurgeJob) == Waiting)
    {
      if w.outcome(DropUnusedAccounts) != Done {
        Blame(DropUnusedAccounts, None);
        return Some(DropUnusedAccounts);
      }
      Through(DropUnusedAccounts);
      // only an error counts: whether the job is done yet is not looked at
      if w.outcome(CreatePurgeJob) == Error {
        Blame(CreatePurgeJob, Some(CronJobReady));
        return Some(CreatePurgeJob);
      }
      Settle(CronJobReady, Some(True));
      return None;
    }

    method PrepareStacks() returns (stop: Option<Call>)
      requires Reached(23)
      modifies this
      ensures Section(stop, 23, 26)
      ensures stop.None? <==> w.outcome(GetServiceSecret) == Done && w.outcome(EnsureStackDomain) == Done
                              && w.outcome(HashNames) == Done
    {
      if w.outcome(GetServiceSecret) != Done {
        Blame(GetServiceSecret, None);
        return Some(GetServiceSecret);
      }
      Through(GetServiceSecret);
      if w.outcome(EnsureStackDomain) != Done {
        Blame(EnsureStackDomain, Some(StackDomainReady));
        return Some(EnsureStackDomain);
      }
      Settle(StackDomainReady, Some(True));
      if w.outcome(HashNames) != Done {
        Blame(HashNames, None);
        return Some(HashNames);
      }
      Through(HashNames);
      return None;
    }

    /** The child is written, and its condition mirrored once it has confirmed. */
    method Deploy(call: Call, c: Condition) returns (stop: Option<Call>)
      requires OfService(c) && call == SettledBy(c) && Reached(Position(call))
      modifies this
      ensures Section(stop, Position(call), Position(call) + 1)
    {
      if w.outcome(call) != Done {
        Blame(call, Some(c));
        return Some(call);
      }
      ghost var n, was := Position(call), conditions;
      PassedOneMore(w, call);
      written := written + {c};
      conditions := conditions[c := if w.confirmed(c) then w.mirror(c) else Unknown];
      forall c': Condition
        ensures Lookup(conditions, c') == Settled(w, n + 1, c') && (c' != c ==> Position(SettledBy(c')) != n)
      {
        PositionIsInjective(SettledBy(c), SettledBy(c'));
        SettledByIsInjective(c, c');
        assert Lookup(was, c') == Settled(w, n, c');
        assert c' != c ==> Lookup(conditions, c') == Lookup(was, c');
      }
      return None;
    }

    /** Ready once every other condition is True. */
    method Finish() returns (stop: Option<Call>)
      requires Reached(29)
      modifies this
      ensures Section(stop, 29, 30)
    {
      if w.outcome(FinalizeCredential) != Done {
        Blame(FinalizeCredential, None);
        return Some(FinalizeCredential);
      }
      var allTrue := forall c | c in conditions && c != Ready :: conditions[c] == True;
      OnlyChildrenCanSayNo(allTrue);
      Settle(Ready, Some(if allTrue then True else Unknown));
      return None;
    }

    lemma OnlyChildrenCanSayNo(allTrue: bool)
      requires Reached(29)
      requires allTrue == forall c | c in conditions && c != Ready :: conditions[c] == True
      ensures allTrue == ChildrenReady(w)
    {
      hide PassedUpTo;
      forall c: Condition | c in conditions && c != Ready ensures !OfService(c) ==> conditions[c] == True {
        assert Lookup(conditions, c) == Settled(w, 29, c);
      }
      forall c | c in {EngineReady, ApiReady, CfnApiReady}
        ensures c in conditions && conditions[c] == (if w.confirmed(c) then w.mirror(c) else Unknown)
      {
        assert Lookup(conditions, c) == Settled(w, 29, c);
      }
    }

    method PassGates() returns (stop: Option<Call>)
      requires Reached(0)
      modifies this
      ensures Section(stop, 0, 16)
    {
      stop := VerifyInputs();
      if stop.None? {
        stop := CheckMemcached();
      }
      if stop.None? {
        stop := EnsureTransportUrl();
      }
      if stop.None? {
        stop := EnsureNotifications();
      }
      if stop.None? {
        stop := EnsureDatabase();
      }
    }

    method PassTasks() returns (stop: Option<Call>)
      requires Reached(16)
      modifies this
      ensures Section(stop, 16, 26)
    {
      stop := GenerateConfig();
      if stop.None? {
        stop := ReconcileInit();
      }
      if stop.None? {
        stop := CleanDatabase();
      }
      if stop.None? {
        stop := PrepareStacks();
      }
    }

    method DeployAll() returns (stop: Option<Call>)
      requires Reached(26)
      modifies this
      ensures Section(stop, 26, 29)
    {
      stop := Deploy(DeployEngine, EngineReady);
      if stop.None? {
        stop := Deploy(DeployApi, ApiReady);
      }
      if stop.None? {
        stop := Deploy(DeployCfnApi, CfnApiReady);
      }
    }

    lemma WrittenIs(stop: Option<Call>)
      requires Section(stop, 0, 30)
      ensures EndsAt(w, stop)
      ensures forall c: Condition :: Lookup(conditions, c) == Final(w, stop, c)
      ensures forall c: Condition :: c in written <==> OfService(c) && PassedUpTo(w, Position(SettledBy(c)) + 1)
    {
    }

    /** `reconcileNormal`, as far as conditions go: it leaves exactly what the table says. */
    method ReconcileNormal() returns (stop: Option<Call>)
      requires Reached(0)
      modifies this
      ensures EndsAt(w, stop)
      ensures forall c: Condition :: Lookup(conditions, c) == Final(w, stop, c)
      ensures forall c: Condition :: c in written <==> OfService(c) && PassedUpTo(w, Position(SettledBy(c)) + 1)
      // and in terms of outcomes alone
      ensures forall c: Condition :: Lookup(conditions, c) == Told(w, c)
      ensures written == Wrote(w) && (stop.None? <==> Rotated(w))
    {
      stop := PassGates();
      if stop.None? {
        stop := PassTasks();
      }
      if stop.None? {
        stop := DeployAll();
      }
      if stop.None? {
        stop := Finish();
      }
      WrittenIs(stop);
      TableIsOutcomes(w, stop);
      hide EndsAt, Final, Told, Wrote, Rotated, Section;
    }
  }
}
