/** When a child can be counted as confirmed while it needs a secret of another tuple.

    This is what costs a finalizer, and it asks for more than a false confirmation: the parent also
    compares the observed generation and the child's readiness, and what the child runs must need
    a transport or notification secret that K does not have. `CannotBeMiscounted` is a condition on
    the child as it is when K is written, and it is exact.
 */
module Counting {
  import opened Names
  import opened Cluster
  import opened Confirmation
  import opened Protection
  import opened Exactness

  /** Published for K, and everything the parent compares agrees. */
  predicate Counts(ch: Child, k: Names) {
    SpecOf(ch, k) && ch.status == ChildStatus(ch.generation, ExpectedHash(k), true)
  }

  predicate Miscounted(ch: Child, k: Names) {
    Counts(ch, k) && !Within(ch, k)
  }

  /** The pass in flight will confirm K, for the generation that publishing K leaves. */
  predicate PassWillCount(ch: Child, k: Names) {
    WillConfirm(ch.pass, k) && SpecOf(ch, k) && ch.pass.seen.generation == ch.generation
  }

  /** A confirmation that counts can be given under the stamp h. */
  predicate Countable(ch: Child, k: Names, h: InputHash) {
    StampOf(h, k)
    || (PassWillCount(ch, k) && LeadsTo(ch.pass, h) && h.transport == k.transport
        && (ch.pass.Hashed? ==> h.own.names == k))
  }

  predicate CannotBeMiscounted(ch: Child, k: Names) {
    // a confirmation of K that counts already needs K's secrets only
    && (Counts(ch, k) ==> Within(ch, k))
    // a pass whose confirmation will count carries nothing else
    && (PassWillCount(ch, k) ==>
          && (ch.pass.Copied? ==> NamesWithin(ch.pass.copy.names, k))
          && (CarriesHash(ch.pass) ==> NamesWithin(ch.pass.hash.own.names, k)))
    // while a stamp that could count is there, nothing else is started, written or running under it
    && ((ch.template.Some? && Countable(ch, k, ch.template.value))
        || (exists p | p in ch.pods :: Countable(ch, k, p.hash)) ==>
          && (ch.own.Some? ==> NamesWithin(ch.own.value.names, k))
          && (ch.pass.Copied? ==> NamesWithin(ch.pass.copy.names, k))
          && forall p | p in ch.pods && Countable(ch, k, p.hash) :: NamesWithin(p.config.names, k))
  }

  // ---------------------------------------------------------------- what the parent counts

  /** What a publication of K counts is exactly what counts already, for the right spec. */
  lemma CountedByPublishing(ch: Child, w: Work, other: nat)
    requires ChildInv(ch) && Confirms(PublishChild(ch, w, other), ExpectedHash(NamesOf(w)))
    ensures Counts(ch, NamesOf(w))
  {
  }

  lemma PublishingCounts(ch: Child, k: Names)
    requires Counts(ch, k)
    ensures Confirms(PublishChild(ch, Publisher(k), ch.spec.value.other), ExpectedHash(k))
  {
  }

  /** What cannot be misreported cannot be miscounted. */
  lemma SafeIsSafeToCount(ch: Child, k: Names)
    requires CannotMisreport(ch, k)
    ensures CannotBeMiscounted(ch, k)
  {
  }

  // ---------------------------------------------------------------- enough

  lemma CountingPass(ch: Child, choice: nat, config: Config, secrets: SecretStore)
    requires ChildInv(ch) && CannotBeMiscounted(ch, config.names)
    ensures CannotBeMiscounted(AdvanceChild(ch, Some(config), secrets, choice), config.names)
  {
    if ch.pass.Checked? {
      CountingCheck(ch, choice, config, secrets);
    } else if ch.pass.Copied? || ch.pass.Rendered? || ch.pass.Deployed? {
      CountingWrite(ch, choice, config, secrets);
    } else {
      CountingRead(ch, choice, config, secrets);
    }
  }

  lemma CountingRead(ch: Child, choice: nat, config: Config, secrets: SecretStore)
    requires ChildInv(ch) && CannotBeMiscounted(ch, config.names)
    requires ch.pass.Idle? || ch.pass.Joining? || ch.pass.Observed? || ch.pass.Hashed?
    ensures CannotBeMiscounted(AdvanceChild(ch, Some(config), secrets, choice), config.names)
  {
  }

  lemma CountingWrite(ch: Child, choice: nat, config: Config, secrets: SecretStore)
    requires ChildInv(ch) && CannotBeMiscounted(ch, config.names)
    requires ch.pass.Copied? || ch.pass.Rendered? || ch.pass.Deployed?
    ensures CannotBeMiscounted(AdvanceChild(ch, Some(config), secrets, choice), config.names)
  {
  }

  lemma CountingCheck(ch: Child, choice: nat, config: Config, secrets: SecretStore)
    requires ChildInv(ch) && CannotBeMiscounted(ch, config.names) && ch.pass.Checked?
    ensures CannotBeMiscounted(AdvanceChild(ch, Some(config), secrets, choice), config.names)
  {
  }

  lemma CountingPods(ch: Child, a: Action, config: Config, secrets: SecretStore)
    requires (a.StartPod? || a.StopPod? || a.RestartPod?) && CannotBeMiscounted(ch, config.names)
    ensures CannotBeMiscounted(StepChild(ch, a, Some(config), secrets), config.names)
  {
  }

  lemma CountingStep(ch: Child, a: Action, config: Config, secrets: SecretStore)
    requires IsChildAction(a) && ChildInv(ch) && CannotBeMiscounted(ch, config.names)
    ensures CannotBeMiscounted(StepChild(ch, a, Some(config), secrets), config.names)
  {
    if a.ChildStep? {
      CountingPass(ch, a.choice, config, secrets);
    } else if a.StartPod? || a.StopPod? || a.RestartPod? {
      CountingPods(ch, a, config, secrets);
    }
  }

  /** Publishing K makes nothing count that did not. */
  lemma CountingPublish(ch: Child, w: Work, other: nat)
    requires ChildInv(ch) && CannotBeMiscounted(ch, NamesOf(w))
    ensures CannotBeMiscounted(PublishChild(ch, w, other), NamesOf(w))
  {
  }

  lemma {:induction false} NeverMiscounted(ch: Child, k: Names, secrets: SecretStore, events: seq<Event>)
    requires ChildInv(ch) && CannotBeMiscounted(ch, k)
    ensures !Miscounted(Continue(ch, k, secrets, events), k)
    decreases |events|
  {
    if events != [] {
      var e := events[0];
      if e.Publishes? {
        CountingPublish(ch, Publisher(k), e.other);
        PublishKeepsSoundness(ch, Publisher(k), e.other, k);
      } else if IsChildAction(e.action) {
        CountingStep(ch, e.action, Config(k, e.rest), secrets);
        ChildInvStep(ch, e.action, Some(Config(k, e.rest)), secrets);
      }
      NeverMiscounted(After(ch, k, secrets, e), k, secrets, events[1..]);
    }
  }

  // ---------------------------------------------------------------- needed

  lemma WrongPodIsMiscounted(ch: Child, k: Names, secrets: SecretStore, p: Pod) returns (events: seq<Event>)
    requires ChildInv(ch) && Transport(k.transport) in secrets
    requires p in ch.pods && Countable(ch, k, p.hash) && !NamesWithin(p.config.names, k)
    ensures Miscounted(Continue(ch, k, secrets, events), k)
  {
    if StampOf(p.hash, k) {
      events := ConfirmAnew(ch, k, secrets, p);
    } else {
      events := ArriveAt(ch, k, secrets, p);
    }
  }

  lemma WrongPassIsMiscounted(ch: Child, k: Names, secrets: SecretStore) returns (events: seq<Event>)
    requires ChildInv(ch) && PassWillCount(ch, k)
    requires (ch.pass.Copied? && !NamesWithin(ch.pass.copy.names, k))
             || (CarriesHash(ch.pass) && !NamesWithin(ch.pass.hash.own.names, k))
    ensures Miscounted(Continue(ch, k, secrets, events), k)
  {
    if ch.pass.Copied? {
      events := CompleteCopy(ch, k, secrets, 0);
    } else {
      events := CompleteOver(ch, k, secrets);
    }
  }

  lemma WrongStampIsMiscounted(ch: Child, k: Names, secrets: SecretStore, h: InputHash) returns (events: seq<Event>)
    requires ChildInv(ch) && Transport(k.transport) in secrets
    requires Countable(ch, k, h) && IsStamp(ch, h) && ch.own.Some? && !NamesWithin(ch.own.value.names, k)
    ensures Miscounted(Continue(ch, k, secrets, events), k)
  {
    var start := Happens(StartPod(Engine, h), 0);
    ChildInvStep(ch, start.action, Some(Config(k, 0)), secrets);
    var rest := WrongPodIsMiscounted(After(ch, k, secrets, start), k, secrets, Pod(h, ch.own.value));
    events := [start] + rest;
  }

  lemma WrongCopyIsMiscounted(ch: Child, k: Names, secrets: SecretStore, h: InputHash) returns (events: seq<Event>)
    requires ChildInv(ch) && Transport(k.transport) in secrets
    requires StampOf(h, k) && IsStamp(ch, h) && ch.pass.Copied? && !NamesWithin(ch.pass.copy.names, k)
    ensures Miscounted(Continue(ch, k, secrets, events), k)
  {
    var ch' := After(ch, k, secrets, Moves);
    ChildInvStep(ch, Moves.action, Some(Config(k, 0)), secrets);
    var rest := WrongStampIsMiscounted(ch', k, secrets, h);
    events := [Moves] + rest;
  }

  lemma SomeContinuationMiscounts(ch: Child, k: Names, secrets: SecretStore) returns (events: seq<Event>)
    requires ChildInv(ch) && Transport(k.transport) in secrets && !CannotBeMiscounted(ch, k)
    ensures Miscounted(Continue(ch, k, secrets, events), k)
  {
    if Miscounted(ch, k) {
      events := [];
    } else if PassWillCount(ch, k) && ((ch.pass.Copied? && !NamesWithin(ch.pass.copy.names, k))
                                   || (CarriesHash(ch.pass) && !NamesWithin(ch.pass.hash.own.names, k))) {
      events := WrongPassIsMiscounted(ch, k, secrets);
    } else if p :| p in ch.pods && Countable(ch, k, p.hash) && !NamesWithin(p.config.names, k) {
      events := WrongPodIsMiscounted(ch, k, secrets, p);
    } else {
      var h :| IsStamp(ch, h) && Countable(ch, k, h);
      if ch.own.Some? && !NamesWithin(ch.own.value.names, k) {
        events := WrongStampIsMiscounted(ch, k, secrets, h);
      } else {
        assert Countable(ch, k, h) && !PassWillCount(ch, k);
        assert StampOf(h, k);
        events := WrongCopyIsMiscounted(ch, k, secrets, h);
      }
    }
  }

  /** Exact, child by child: K may be written without the child ever being miscounted if and only
      if it cannot be miscounted at that moment. */
  lemma CannotBeMiscountedIsExact(ch: Child, k: Names, secrets: SecretStore)
    requires ChildInv(ch) && Transport(k.transport) in secrets
    ensures (forall events :: !Miscounted(Continue(ch, k, secrets, events), k)) <==> CannotBeMiscounted(ch, k)
  {
    if CannotBeMiscounted(ch, k) {
      forall events ensures !Miscounted(Continue(ch, k, secrets, events), k) {
        NeverMiscounted(ch, k, secrets, events);
      }
    } else {
      var bad := SomeContinuationMiscounts(ch, k, secrets);
      assert exists events :: Miscounted(Continue(ch, k, secrets, events), k) by {
        assert Miscounted(Continue(ch, k, secrets, bad), k);
      }
    }
  }

  /** It is strictly weaker than being unable to misreport: a child that has falsely confirmed K
      under an older spec is not counted before it has deployed K. */
  lemma MisreportNeedNotCount()
    ensures var k, b := Names("a", None, None), Names("b", None, None);
            var ch := Child(Some(ChildSpec("b", None, 0)), 2, ExpectedHash(b), true,
                            ChildStatus(1, ExpectedHash(k), true), Some(Config(b, 0)), None, {}, Idle);
            ChildInv(ch) && Misreports(ch, k) && !CannotMisreport(ch, k) && CannotBeMiscounted(ch, k)
  {
  }
}
