/** `CannotMisreport` is exact: it fails only for a child that really can be led to confirm a
    tuple it does not run.

    The continuations considered are those in which the configuration keeps referring to K:
    any child step, crash or early return, any pod churn, any re-rendering of the rest of the
    configuration, and the parent publishing K.
 */
module Exactness {
  import opened Names
  import opened Cluster
  import opened Confirmation

  datatype Event = Happens(action: Action, rest: nat) | Publishes(other: nat)

  function Publisher(k: Names): Work {
    Work(AtPublish(Engine), k.credential, k.notification.Some?, Tracked(None, None, None), k.transport, k.notification,
         {}, false)
  }

  function After(ch: Child, k: Names, secrets: SecretStore, e: Event): Child {
    match e
    case Happens(a, rest) => if IsChildAction(a) then StepChild(ch, a, Some(Config(k, rest)), secrets) else ch
    case Publishes(other) => PublishChild(ch, Publisher(k), other)
  }

  function Continue(ch: Child, k: Names, secrets: SecretStore, events: seq<Event>): Child
    decreases |events|
  {
    if events == [] then ch else Continue(After(ch, k, secrets, events[0]), k, secrets, events[1..])
  }

  /** The child's status says that K is applied, and it is not. */
  predicate Misreports(ch: Child, k: Names) {
    ch.status.applied == ExpectedHash(k) && !Runs(ch, k)
  }

  lemma {:induction false} ContinueConcat(ch: Child, k: Names, secrets: SecretStore, a: seq<Event>, b: seq<Event>)
    ensures Continue(ch, k, secrets, a + b) == Continue(Continue(ch, k, secrets, a), k, secrets, b)
    decreases |a|
  {
    if a == [] {
      assert a + b == b;
    } else {
      assert (a + b)[0] == a[0] && (a + b)[1..] == a[1..] + b;
      ContinueConcat(After(ch, k, secrets, a[0]), k, secrets, a[1..], b);
    }
  }

  // ---------------------------------------------------------------- enough

  lemma {:induction false} NeverMisreports(ch: Child, k: Names, secrets: SecretStore, events: seq<Event>)
    requires ChildInv(ch) && CannotMisreport(ch, k)
    ensures !Misreports(Continue(ch, k, secrets, events), k)
    decreases |events|
  {
    if events != [] {
      var e := events[0];
      if e.Publishes? {
        PublishKeepsSoundness(ch, Publisher(k), e.other, k);
      } else if IsChildAction(e.action) {
        SoundnessStep(ch, e.action, Config(k, e.rest), secrets);
        ChildInvStep(ch, e.action, Some(Config(k, e.rest)), secrets);
      }
      NeverMisreports(After(ch, k, secrets, events[0]), k, secrets, events[1..]);
    }
  }

  // ---------------------------------------------------------------- needed

  const Moves: Event := Happens(ChildStep(Engine, 1), 0)

  function StepWith(choice: nat, rest: nat): Event {
    Happens(ChildStep(Engine, choice), rest)
  }

  /** The kubelet stops every pod but those with one stamp. */
  lemma {:induction false} StopOthers(ch: Child, k: Names, secrets: SecretStore, h: InputHash, others: set<Pod>)
    returns (events: seq<Event>)
    requires others == set p | p in ch.pods && p.hash != h
    ensures Continue(ch, k, secrets, events) == ch.(pods := ch.pods - others)
    decreases others
  {
    if others == {} {
      events := [];
      assert ch.pods - others == ch.pods;
    } else {
      var p :| p in others;
      var first := Happens(StopPod(Engine, p), 0);
      var ch' := After(ch, k, secrets, first);
      var rest := StopOthers(ch', k, secrets, h, others - {p});
      events := [first] + rest;
      assert ch.pods - {p} - (others - {p}) == ch.pods - others;
    }
  }

  /** The pass that was in flight has completed, and has confirmed K. */
  predicate Confirmed(ch: Child, end: Child, k: Names)
    requires InFlight(ch.pass)
  {
    && end.pass.Idle? && end.status == ChildStatus(ch.pass.seen.generation, ExpectedHash(k), true)
    && end.generation == ch.generation && end.spec == ch.spec
  }

  /** A pass that will confirm K completes, over the pods with its stamp whatever they run. */
  lemma {:induction false} CompleteOver(ch: Child, k: Names, secrets: SecretStore) returns (events: seq<Event>)
    requires ChildInv(ch) && CarriesHash(ch.pass) && WillConfirm(ch.pass, k)
    ensures var end := Continue(ch, k, secrets, events);
            && Confirmed(ch, end, k) && end.own == ch.own
            && end.pods == set p | p in ch.pods && p.hash == ch.pass.hash
    decreases if ch.pass.Rendered? then 2 else if ch.pass.Deployed? then 1 else 0
  {
    if ch.pass.Deployed? {
      var others := set p | p in ch.pods && p.hash != ch.pass.hash;
      var stops := StopOthers(ch, k, secrets, ch.pass.hash, others);
      var ch1 := ch.(pods := ch.pods - others);
      var rest := CompleteOver(After(ch1, k, secrets, Moves), k, secrets);
      assert Continue(ch1, k, secrets, [Moves] + rest) == Continue(After(ch1, k, secrets, Moves), k, secrets, rest);
      events := stops + ([Moves] + rest);
      ContinueConcat(ch, k, secrets, stops, [Moves] + rest);
    } else if ch.pass.Rendered? {
      var rest := CompleteOver(After(ch, k, secrets, Moves), k, secrets);
      events := [Moves] + rest;
    } else {
      events := [Moves];
      assert Continue(ch, k, secrets, events) == After(ch, k, secrets, Moves);
    }
  }

  /** So does one that has its copy, and writes it. */
  lemma CompleteCopy(ch: Child, k: Names, secrets: SecretStore, extra: nat) returns (events: seq<Event>)
    requires ChildInv(ch) && ch.pass.Copied? && WillConfirm(ch.pass, k)
    ensures var end := Continue(ch, k, secrets, events);
            && Confirmed(ch, end, k) && end.own == Some(ch.pass.copy)
            && forall p | p in ch.pods :: p in end.pods <==>
                 p.hash == InputHash(ch.pass.parent, ch.pass.copy, ch.pass.seen.transport, extra)
  {
    var e := StepWith(extra, 0);
    var ch' := After(ch, k, secrets, e);
    ChildInvStep(ch, e.action, Some(Config(k, 0)), secrets);
    var rest := CompleteOver(ch', k, secrets);
    events := [e] + rest;
  }

  /** A pass that can still arrive at the stamp of a pod completes over that pod. */
  lemma ArriveAt(ch: Child, k: Names, secrets: SecretStore, p: Pod) returns (events: seq<Event>)
    requires ChildInv(ch) && WillConfirm(ch.pass, k) && LeadsTo(ch.pass, p.hash)
    requires p in ch.pods && p.hash.transport == k.transport && (ch.pass.Hashed? ==> p.hash.own.names == k)
    ensures var end := Continue(ch, k, secrets, events); Confirmed(ch, end, k) && p in end.pods
    decreases if ch.pass.Hashed? then 1 else 0
  {
    if ch.pass.Hashed? {
      var e := StepWith(0, p.hash.own.rest);
      var rest := ArriveAt(After(ch, k, secrets, e), k, secrets, p);
      events := [e] + rest;
    } else if ch.pass.Copied? {
      assert ExpectedHash(k).names[0] == Transport(k.transport);
      events := CompleteCopy(ch, k, secrets, p.hash.extra);
    } else {
      events := CompleteOver(ch, k, secrets);
    }
  }

  /** The spec was published for K. */
  predicate SpecOf(ch: Child, k: Names) {
    ch.spec.Some? && ch.spec.value.transport == k.transport && ch.spec.value.credential == k.credential
  }

  /** A crash, a publication and, where the child has no finalizer yet, a first pass for it. */
  lemma Restarted(ch: Child, k: Names, secrets: SecretStore) returns (events: seq<Event>)
    requires ChildInv(ch)
    ensures var end := Continue(ch, k, secrets, events);
            && ChildInv(end) && end.pods == ch.pods && SpecOf(end, k)
            && end.pass == Observed(Seen(end.generation, ExpectedHash(k), k.transport))
  {
    var ch1 := PublishChild(ch.(pass := Idle), Publisher(k), 0);
    assert ChildInv(ch1);
    var begin := Happens(ChildBegin(Engine), 0);
    if ch.finalizer {
      events := [Happens(ChildCrash(Engine), 0), Publishes(0), begin];
      assert Continue(ch1, k, secrets, [begin]) == BeginChild(ch1);
      ContinueConcat(ch, k, secrets, [Happens(ChildCrash(Engine), 0), Publishes(0)], [begin]);
      assert events == [Happens(ChildCrash(Engine), 0), Publishes(0)] + [begin];
    } else {
      var ch2 := After(BeginChild(ch1), k, secrets, Moves);
      events := [Happens(ChildCrash(Engine), 0), Publishes(0)] + [begin, Moves] + [begin];
      assert [begin, Moves][1..] == [Moves];
      assert Continue(BeginChild(ch1), k, secrets, [Moves]) == ch2;
      assert Continue(ch2, k, secrets, [begin]) == BeginChild(ch2);
      ContinueConcat(ch, k, secrets, [Happens(ChildCrash(Engine), 0), Publishes(0)], [begin, Moves]);
      ContinueConcat(ch, k, secrets, [Happens(ChildCrash(Engine), 0), Publishes(0)] + [begin, Moves], [begin]);
    }
    assert [Happens(ChildCrash(Engine), 0), Publishes(0)][1..] == [Publishes(0)];
    assert Continue(ch.(pass := Idle), k, secrets, [Publishes(0)]) == ch1;
  }

  /** A stamp that a new pass can carry: K, read twice. */
  predicate StampOf(h: InputHash, k: Names) {
    h.own.names == k && h.transport == k.transport && h.parent.Some? && h.parent.value.names == k
  }

  /** A new pass completes over a pod with such a stamp, and its confirmation is up to date. */
  lemma ConfirmAnew(ch: Child, k: Names, secrets: SecretStore, p: Pod) returns (events: seq<Event>)
    requires ChildInv(ch) && Transport(k.transport) in secrets && p in ch.pods && StampOf(p.hash, k)
    ensures var end := Continue(ch, k, secrets, events);
            && SpecOf(end, k) && end.status == ChildStatus(end.generation, ExpectedHash(k), true)
            && p in end.pods && end.pass.Idle?
  {
    var restart := Restarted(ch, k, secrets);
    var ch1 := Continue(ch, k, secrets, restart);
    var e := StepWith(0, p.hash.parent.value.rest);
    var rest := ArriveAt(After(ch1, k, secrets, e), k, secrets, p);
    events := restart + ([e] + rest);
    ContinueConcat(ch, k, secrets, restart, [e] + rest);
  }

  /** A pod whose stamp a pass confirming K can carry, and which does not run K, is misreported. */
  lemma WrongPodIsMisreported(ch: Child, k: Names, secrets: SecretStore, p: Pod) returns (events: seq<Event>)
    requires ChildInv(ch) && Transport(k.transport) in secrets
    requires p in ch.pods && Confirmable(ch.pass, k, p.hash) && p.config.names != k
    ensures Misreports(Continue(ch, k, secrets, events), k)
  {
    if WillConfirm(ch.pass, k) && LeadsTo(ch.pass, p.hash) {
      events := ArriveAt(ch, k, secrets, p);
    } else {
      events := ConfirmAnew(ch, k, secrets, p);
    }
  }

  /** A stamp on the Deployment or on a pod. */
  predicate IsStamp(ch: Child, h: InputHash) {
    ch.template == Some(h) || exists p | p in ch.pods :: p.hash == h
  }

  /** A stamp on the Deployment is enough: a new pod under it reads what the child has now. */
  lemma WrongStampIsMisreported(ch: Child, k: Names, secrets: SecretStore, h: InputHash) returns (events: seq<Event>)
    requires ChildInv(ch) && Transport(k.transport) in secrets
    requires Confirmable(ch.pass, k, h) && IsStamp(ch, h) && ch.own.Some? && ch.own.value.names != k
    ensures Misreports(Continue(ch, k, secrets, events), k)
  {
    var start := Happens(StartPod(Engine, h), 0);
    ChildInvStep(ch, start.action, Some(Config(k, 0)), secrets);
    var rest := WrongPodIsMisreported(After(ch, k, secrets, start), k, secrets, Pod(h, ch.own.value));
    events := [start] + rest;
  }

  /** A pass that will confirm K and carries something else does so. */
  lemma WrongPassIsMisreported(ch: Child, k: Names, secrets: SecretStore) returns (events: seq<Event>)
    requires ChildInv(ch) && WillConfirm(ch.pass, k)
    requires (ch.pass.Copied? && ch.pass.copy.names != k) || (CarriesHash(ch.pass) && ch.pass.hash.own.names != k)
    ensures Misreports(Continue(ch, k, secrets, events), k)
  {
    if ch.pass.Copied? {
      events := CompleteCopy(ch, k, secrets, 0);
    } else {
      events := CompleteOver(ch, k, secrets);
    }
  }

  /** A stale copy in flight is written under a stamp that a pass confirming K can carry. */
  lemma WrongCopyIsMisreported(ch: Child, k: Names, secrets: SecretStore, h: InputHash) returns (events: seq<Event>)
    requires ChildInv(ch) && Transport(k.transport) in secrets
    requires Confirmable(ch.pass, k, h) && IsStamp(ch, h) && ch.pass.Copied? && ch.pass.copy.names != k
    ensures Misreports(Continue(ch, k, secrets, events), k)
  {
    var ch' := After(ch, k, secrets, Moves);
    ChildInvStep(ch, Moves.action, Some(Config(k, 0)), secrets);
    var rest := WrongStampIsMisreported(ch', k, secrets, h);
    events := [Moves] + rest;
  }

  lemma SomeContinuationMisreports(ch: Child, k: Names, secrets: SecretStore) returns (events: seq<Event>)
    requires ChildInv(ch) && Transport(k.transport) in secrets && !CannotMisreport(ch, k)
    ensures Misreports(Continue(ch, k, secrets, events), k)
  {
    if Misreports(ch, k) {
      events := [];
    } else if WillConfirm(ch.pass, k) && ((ch.pass.Copied? && ch.pass.copy.names != k)
                                          || (CarriesHash(ch.pass) && ch.pass.hash.own.names != k)) {
      events := WrongPassIsMisreported(ch, k, secrets);
    } else if p :| p in ch.pods && Confirmable(ch.pass, k, p.hash) && p.config.names != k {
      events := WrongPodIsMisreported(ch, k, secrets, p);
    } else {
      var h :| IsStamp(ch, h) && Confirmable(ch.pass, k, h);
      if ch.own.Some? && ch.own.value.names != k {
        events := WrongStampIsMisreported(ch, k, secrets, h);
      } else {
        events := WrongCopyIsMisreported(ch, k, secrets, h);
      }
    }
  }

  /** The hypothesis of the protection theorem is exact, child by child: K may be written without
      ever being misreported if and only if the child cannot misreport it at that moment. */
  lemma CannotMisreportIsExact(ch: Child, k: Names, secrets: SecretStore)
    requires ChildInv(ch) && Transport(k.transport) in secrets
    ensures (forall events :: !Misreports(Continue(ch, k, secrets, events), k)) <==> CannotMisreport(ch, k)
  {
    if CannotMisreport(ch, k) {
      forall events ensures !Misreports(Continue(ch, k, secrets, events), k) {
        NeverMisreports(ch, k, secrets, events);
      }
    } else {
      var bad := SomeContinuationMisreports(ch, k, secrets);
      assert exists events :: Misreports(Continue(ch, k, secrets, events), k) by {
        assert Misreports(Continue(ch, k, secrets, bad), k);
      }
    }
  }
}
