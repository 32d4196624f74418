/** Exactly when a configuration write can cost a finalizer.

    Over the continuations in which the tuple stays, protection holds if and only if no child is
    counted as confirmed while it still needs a transport or notification secret of another tuple,
    and that is decided by the children as they are when the tuple is written. One wrong count is
    enough: the other two children are led to confirm by fair rounds, and the pass that finds all
    three confirmed prunes the finalizer of a secret that is still in use.
 */
module Exposure {
  import opened Names
  import opened Cluster
  import opened Confirmation
  import opened Protection
  import opened Cleanup
  import opened Rotation
  import opened Schedule
  import opened Convergence
  import opened Progress
  import opened History
  import opened Counting
  import opened Tightness

  // ---------------------------------------------------------------- runs that leave a child alone

  lemma {:induction false} LeftAlone(s: State, actions: seq<Action>, t: Target, c: Service, services: set<Service>)
    requires Settled(s, t) && CalmRun(s, actions, t) && Reached(s, t, c, 1)
    requires ActsOn(actions, services) && c !in services
    ensures Settled(Run(s, actions), t) && Reached(Run(s, actions), t, c, 1)
    ensures Run(s, actions).children[c] == s.children[c]
    decreases |actions|
  {
    if actions != [] {
      var a := actions[0];
      assert IsChildAction(a) ==> a.service in services;
      SettledStep(s, a, t);
      ReachedStep(s, a, t, c, 1);
      LeftAlone(Step(s, a), actions[1..], t, c, services);
    }
  }

  lemma {:induction false} InvariantsRun(s: State, actions: seq<Action>, t: Target)
    requires Settled(s, t) && CalmRun(s, actions, t) && RotationInv(s) && OwnershipInv(s)
    ensures Settled(Run(s, actions), t) && RotationInv(Run(s, actions)) && OwnershipInv(Run(s, actions))
  {
    SettledRun(s, actions, t);
    RotationInvRun(s, actions);
  }

  /** A settled run renders one tuple only. */
  lemma {:induction false} CalmKeepsTuple(s: State, actions: seq<Action>, t: Target)
    requires Settled(s, t) && CalmRun(s, actions, t)
    ensures KeepsTuple(s, actions, t.names)
    decreases |actions|
  {
    if actions != [] {
      SettledStep(s, actions[0], t);
      CalmKeepsTuple(Step(s, actions[0]), actions[1..], t);
    }
  }

  // ---------------------------------------------------------------- the other children

  /** One pass and one rollout of a service lift it by a rung, and touch no other child. */
  lemma LiftOne(s: State, t: Target, d: Service, k: nat) returns (actions: seq<Action>)
    requires Settled(s, t) && AllReached(s, t, 1) && 1 <= k <= 4 && Reached(s, t, d, k)
    ensures CalmRun(s, actions, t) && ActsOn(actions, {d})
    ensures Settled(Run(s, actions), t) && AllReached(Run(s, actions), t, 1) && Reached(Run(s, actions), t, d, k + 1)
  {
    actions := ServiceRound(s, Unwatched, t, d);
    ClimbingRun(s, actions, Unwatched, t, d, k);
  }

  lemma {:induction false} LiftToTop(s: State, t: Target, d: Service, k: nat) returns (actions: seq<Action>)
    requires Settled(s, t) && AllReached(s, t, 1) && 1 <= k <= 5 && Reached(s, t, d, k)
    ensures CalmRun(s, actions, t) && ActsOn(actions, {d})
    ensures Settled(Run(s, actions), t) && AllReached(Run(s, actions), t, 1) && Reached(Run(s, actions), t, d, 5)
    decreases 5 - k
  {
    if k == 5 {
      actions := [];
    } else {
      var first := LiftOne(s, t, d, k);
      var rest := LiftToTop(Run(s, first), t, d, k + 1);
      Concat(s, first, rest, Unwatched, t);
      actions := first + rest;
    }
  }

  /** Published, and counted as confirmed by the next pass. */
  predicate WillCount(s: State, t: Target, c: Service) {
    Reached(s, t, c, 1) && Confirms(s.children[c], ExpectedHash(t.names))
  }

  lemma TopWillCount(s: State, t: Target, d: Service)
    requires Reached(s, t, d, 5)
    ensures WillCount(s, t, d)
  {
  }

  /** Every child but c is led to confirm; c is left as it is. */
  lemma {:induction false} LeadOthers(s: State, t: Target, c: Service, others: set<Service>)
    returns (actions: seq<Action>)
    requires Settled(s, t) && AllReached(s, t, 1) && c !in others && RotationInv(s) && OwnershipInv(s)
    requires forall d: Service | d !in others :: WillCount(s, t, d)
    ensures CalmRun(s, actions, t) && Run(s, actions).children[c] == s.children[c]
    ensures var end := Run(s, actions);
            && Settled(end, t) && RotationInv(end) && OwnershipInv(end)
            && forall d: Service :: WillCount(end, t, d)
    decreases others
  {
    if others == {} {
      actions := [];
    } else {
      var d :| d in others;
      assert Reached(s, t, d, 1);
      var first := LiftToTop(s, t, d, 1);
      var mid := Run(s, first);
      InvariantsRun(s, first, t);
      forall e: Service | e != d ensures mid.children[e] == s.children[e] {
        assert Reached(s, t, e, 1);
        LeftAlone(s, first, t, e, {d});
      }
      forall e: Service | e !in others - {d} ensures WillCount(mid, t, e) {
        assert Reached(mid, t, e, 1);
        if e == d {
          TopWillCount(mid, t, d);
        }
      }
      var rest := LeadOthers(mid, t, c, others - {d});
      Concat(s, first, rest, Unwatched, t);
      actions := first + rest;
    }
  }

  // ---------------------------------------------------------------- the pass that prunes

  predicate AllWillCount(s: State, t: Target) {
    forall c: Service :: WillCount(s, t, c)
  }

  lemma CountStep(s: State, a: Action, t: Target)
    requires Settled(s, t) && AllWillCount(s, t) && Calm(s, a, t) && !IsChildAction(a)
    ensures Settled(Step(s, a), t) && AllWillCount(Step(s, a), t) && Step(s, a).children == s.children
  {
    SettledStep(s, a, t);
    var s' := Step(s, a);
    forall c: Service ensures WillCount(s', t, c) && s'.children[c] == s.children[c] {
      assert WillCount(s, t, c);
      ReachedStep(s, a, t, c, 1);
    }
  }

  lemma CountedPublish(s: State, w: Work, t: Target, c: Service)
    requires NamesOf(w) == t.names && AllWillCount(s, t) && ConfirmedSoFar(w) && w.stage == AtPublish(c)
    ensures ConfirmedSoFar(Publish(s, w, c, t.other).parent.work)
  {
    assert WillCount(s, t, c);
    PublishRung(s.children[c], w, t, 1);
  }

  lemma CountedSoFar(s: State, w: Work, choice: nat, t: Target)
    requires Settled(s, t) && s.parent == Working(w) && AllWillCount(s, t) && ConfirmedSoFar(w)
    requires Calm(s, ParentStep(choice), t)
    ensures var s' := AdvanceWork(s, w, choice); s'.parent.Working? ==> ConfirmedSoFar(s'.parent.work)
  {
    if w.stage.AtPublish? {
      CountedPublish(s, w, t, w.stage.service);
    } else if Rank(w.stage) >= 10 {
      LateStages(s, w, choice);
    } else {
      EarlyStages(s, w, choice);
    }
  }

  /** With every child counted the pass ends with the finalizers on exactly the current secrets. */
  lemma {:induction false} PruningPass(s: State, t: Target) returns (actions: seq<Action>)
    requires Settled(s, t) && AllWillCount(s, t) && RotationInv(s) && OwnershipInv(s)
    requires s.parent.Working? && ConfirmedSoFar(s.parent.work)
    ensures CalmRun(s, actions, t)
    ensures var end := Run(s, actions);
            && Quiet(end, t) && end.children == s.children
            && Holders(end.secrets, TransportConsumer) == CurrentSecrets(t, TransportConsumer)
    decreases StagesLeft(s), StraysLeft(s)
  {
    hide RotationInv, OwnershipInv, WillCount;
    var w := s.parent.work;
    if w.stage == AtPatch(true) {
      EverythingConfirmed(w);
      PatchOfAReadyPass(s, w);
      actions := [];
    } else {
      var a := NextAction(s, t);
      PassProgresses(s, t);
      CountStep(s, a, t);
      RotationInvStep(s, a);
      OwnershipInvStep(s, a);
      StillCounting(s, a, t);
      var rest := PruningPass(Step(s, a), t);
      actions := [a] + rest;
    }
  }

  lemma StillCounting(s: State, a: Action, t: Target)
    requires Settled(s, t) && AllWillCount(s, t) && s.parent.Working? && ConfirmedSoFar(s.parent.work)
    requires s.parent.work.stage != AtPatch(true) && a == NextAction(s, t)
    ensures Step(s, a).parent.Working? && ConfirmedSoFar(Step(s, a).parent.work)
  {
    if a.ParentStep? {
      CountedSoFar(s, s.parent.work, a.choice, t);
      StaysFresh(s, a, Unwatched.(parentFresh := true), t);
    }
  }

  // ---------------------------------------------------------------- the cost

  /** Nobody has asked for the deletion of Heat. */
  predicate Unmarked(s: State) {
    s.heat.Some? && !s.heat.value.deleting
  }

  /** A run that renders K only, and ends with something in use unprotected before anybody has
      asked for deletion. */
  predicate Exposes(s: State, actions: seq<Action>, k: Names) {
    KeepsTuple(s, actions, k) && Unmarked(Run(s, actions)) && !Protected(Run(s, actions))
  }

  lemma OutsideIsUnheld(s: State, t: Target, c: Service)
    requires Holders(s.secrets, TransportConsumer) == CurrentSecrets(t, TransportConsumer)
    requires !Within(s.children[c], t.names)
    ensures !Protected(s)
  {
    forall k: Names | TransportsHeld(s.secrets, k) ensures NamesWithin(k, t.names) {
      assert Transport(k.transport) in Holders(s.secrets, TransportConsumer);
      if k.notification.Some? {
        assert Notification(k.notification.value) in Holders(s.secrets, TransportConsumer);
      }
    }
    assert !ChildProtected(s.secrets, s.children[c]);
  }

  /** One child counts already; the parent publishes and the other two are led to confirm. */
  lemma LeadToCount(s: State, t: Target, c: Service) returns (actions: seq<Action>)
    requires Settled(s, t) && RotationInv(s) && OwnershipInv(s) && WillCount(s, t, c)
    ensures CalmRun(s, actions, t) && Run(s, actions).children[c] == s.children[c]
    ensures var end := Run(s, actions); Settled(end, t) && RotationInv(end) && OwnershipInv(end) && AllWillCount(end, t)
  {
    var publish := ParentRound(s, t);
    LeftAlone(s, publish, t, c, {});
    InvariantsRun(s, publish, t);
    var mid := Run(s, publish);
    forall d: Service | d !in AllServices - {c} ensures WillCount(mid, t, d) {
      assert d.Engine? || d.Api? || d.CfnApi?;
    }
    var lead := LeadOthers(mid, t, c, AllServices - {c});
    Concat(s, publish, lead, Unwatched, t);
    actions := publish + lead;
  }

  /** A fresh pass over children that all count. */
  lemma FreshPruningPass(s: State, t: Target) returns (actions: seq<Action>)
    requires Settled(s, t) && AllWillCount(s, t) && RotationInv(s) && OwnershipInv(s)
    ensures CalmRun(s, actions, t)
    ensures var end := Run(s, actions);
            && Quiet(end, t) && end.children == s.children
            && Holders(end.secrets, TransportConsumer) == CurrentSecrets(t, TransportConsumer)
  {
    var begin := [ParentCrash, ParentBegin];
    TwoActions(s, ParentCrash, ParentBegin, Unwatched, t);
    CountStep(s, ParentCrash, t);
    CountStep(Step(s, ParentCrash), ParentBegin, t);
    InvariantsRun(s, begin, t);
    var prune := PruningPass(Run(s, begin), t);
    Concat(s, begin, prune, Unwatched, t);
    actions := begin + prune;
  }

  /** A child that is counted while it needs a secret of another tuple costs that secret its
      finalizer: fair rounds lead the other two to confirm, and the next pass prunes it. */
  lemma WrongCountCostsAFinalizer(s: State, t: Target, c: Service) returns (actions: seq<Action>)
    requires Settled(s, t) && RotationInv(s) && OwnershipInv(s)
    requires WillCount(s, t, c) && !Within(s.children[c], t.names)
    ensures CalmRun(s, actions, t) && Exposes(s, actions, t.names)
  {
    var lead := LeadToCount(s, t, c);
    var prune := FreshPruningPass(Run(s, lead), t);
    Concat(s, lead, prune, Unwatched, t);
    actions := lead + prune;
    CalmKeepsTuple(s, actions, t);
    OutsideIsUnheld(Run(s, actions), t, c);
  }

  // ---------------------------------------------------------------- exactly when protection holds

  /** As long as nobody asks for deletion, no confirmation counted is wrong. */
  predicate HonestUntilDeletion(s: State, actions: seq<Action>)
    decreases |actions|
  {
    actions != [] ==>
      (Unmarked(s) ==> HonestAction(s, actions[0])) && HonestUntilDeletion(Step(s, actions[0]), actions[1..])
  }

  lemma MarkStays(s: State, a: Action)
    requires !Unmarked(s)
    ensures !Unmarked(Step(s, a))
  {
    if a.ParentStep? && s.parent.Working? {
      PassKeepsMark(s, s.parent.work, a.choice);
    }
  }

  lemma PassKeepsMark(s: State, w: Work, choice: nat)
    requires s.parent == Working(w)
    ensures Unmarked(AdvanceWork(s, w, choice)) ==> Unmarked(s)
  {
    if Rank(w.stage) >= 10 || Rank(w.stage) == 0 {
      LatePassKeepsMark(s, w, choice);
    }
  }

  lemma LatePassKeepsMark(s: State, w: Work, choice: nat)
    requires s.parent == Working(w) && (Rank(w.stage) >= 10 || Rank(w.stage) == 0)
    ensures Unmarked(AdvanceWork(s, w, choice)) ==> Unmarked(s)
  {
  }

  lemma {:induction false} MarkStaysRun(s: State, actions: seq<Action>)
    requires !Unmarked(s)
    ensures !Unmarked(Run(s, actions)) && HonestUntilDeletion(s, actions)
    decreases |actions|
  {
    if actions != [] {
      MarkStays(s, actions[0]);
      MarkStaysRun(Step(s, actions[0]), actions[1..]);
    }
  }

  lemma {:induction false} HonestRunProtects(s: State, actions: seq<Action>)
    requires SafetyInv(s) && OwnershipInv(s) && HonestUntilDeletion(s, actions) && Unmarked(Run(s, actions))
    ensures Protected(Run(s, actions))
    decreases |actions|
  {
    if actions != [] {
      if !Unmarked(s) {
        MarkStaysRun(s, actions);
      } else {
        SafetyInvStep(s, actions[0]);
        OwnershipInvStep(s, actions[0]);
        HonestRunProtects(Step(s, actions[0]), actions[1..]);
      }
    }
  }

  /** What a pass that publishes has read and protected. */
  lemma PublishingPass(s: State, w: Work, c: Service)
    requires SafetyInv(s) && RotationInv(s) && s.parent == Working(w) && w.stage == AtPublish(c)
    ensures s.config.Some? && s.config.value.names == NamesOf(w)
    ensures s.transportUrl.Url? && (w.notification.Some? ==> s.notificationUrl.Url?)
    ensures CurrentSecrets(Target(NamesOf(w), 0, 0, 0), TransportConsumer) <= s.secrets.Keys
  {
  }

  /** Asking for the same names again is all that it takes. */
  lemma PublishedWrongCosts(s: State, t: Target, c: Service) returns (actions: seq<Action>)
    requires RotationInv(s) && OwnershipInv(s) && s.heat.Some? && s.heat.value.finalizer && !s.heat.value.deleting
    requires s.transportUrl.Url? && (t.names.notification.Some? ==> s.notificationUrl.Url?)
    requires CurrentSecrets(t, TransportConsumer) <= s.secrets.Keys
    requires WillCount(s, t, c) && !Within(s.children[c], t.names)
    ensures Exposes(s, actions, t.names)
  {
    var ask := AskAgain(s, t.names);
    RotationInvRun(s, ask);
    var cost := WrongCountCostsAFinalizer(Run(s, ask), t, c);
    Pieces(s, ask, cost, t.names);
    actions := ask + cost;
  }

  lemma WrongPublishCosts(s: State, c: Service, other: nat, k: Names) returns (actions: seq<Action>)
    requires SafetyInv(s) && OwnershipInv(s) && RotationInv(s) && Unmarked(s)
    requires s.config.Some? && s.config.value.names == k
    requires s.parent.Working? && s.parent.work.stage == AtPublish(c) && !HonestPublish(s, s.parent.work, c, other)
    ensures Exposes(s, actions, k)
  {
    var w := s.parent.work;
    PublishingPass(s, w, c);
    var s1 := Publish(s, w, c, other);
    var t := Target(k, s.config.value.rest, other, 0);
    assert Step(s, ParentStep(other)) == s1;
    RotationInvStep(s, ParentStep(other));
    OwnershipInvStep(s, ParentStep(other));
    var cost := PublishedWrongCosts(s1, t, c);
    OneAction(s, ParentStep(other), k);
    Pieces(s, [ParentStep(other)], cost, k);
    actions := [ParentStep(other)] + cost;
  }

  // ---------------------------------------------------------------- by what the continuations count

  lemma ConfigStays(s: State, a: Action, k: Names)
    requires s.config.Some? && s.config.value.names == k
    requires WritesConfig(s, a) ==> NamesOf(s.parent.work) == k
    ensures Step(s, a).config.Some? && Step(s, a).config.value.names == k
  {
    if IsChildAction(a) {
      ChildActionIsLocal(s, a);
    } else if a.ParentStep? && s.parent.Working? {
      StepIsWork(s, a.choice);
      if !s.parent.work.stage.AtConfig? && !s.parent.work.stage.AtPublish? {
        OtherStagesKeepNames(s, s.parent.work, a.choice);
      }
    } else {
      OtherActionsKeepNames(s, a);
    }
  }

  lemma {:induction false} DishonestRunCosts(s: State, actions: seq<Action>, k: Names) returns (bad: seq<Action>)
    requires SafetyInv(s) && OwnershipInv(s) && RotationInv(s) && s.config.Some? && s.config.value.names == k
    requires KeepsTuple(s, actions, k) && !HonestUntilDeletion(s, actions)
    ensures Exposes(s, bad, k)
    decreases |actions|
  {
    var a := actions[0];
    if !Unmarked(s) {
      MarkStaysRun(s, actions);
      assert false;
    } else if !HonestAction(s, a) {
      bad := WrongPublishCosts(s, s.parent.work.stage.service, a.choice, k);
    } else {
      SafetyInvStep(s, a);
      OwnershipInvStep(s, a);
      RotationInvStep(s, a);
      ConfigStays(s, a, k);
      var rest := DishonestRunCosts(Step(s, a), actions[1..], k);
      OneAction(s, a, k);
      Pieces(s, [a], rest, k);
      bad := [a] + rest;
    }
  }

  /** While K is rendered: no continuation that keeps K exposes a secret in use if and only if none
      counts a child as confirmed while it needs a secret of another tuple. */
  lemma ProtectionIff(s: State, k: Names)
    requires SafetyInv(s) && OwnershipInv(s) && RotationInv(s) && s.config.Some? && s.config.value.names == k
    ensures (forall actions :: !Exposes(s, actions, k))
            <==> (forall actions | KeepsTuple(s, actions, k) :: HonestUntilDeletion(s, actions))
  {
    if actions :| KeepsTuple(s, actions, k) && !HonestUntilDeletion(s, actions) {
      var bad := DishonestRunCosts(s, actions, k);
      assert Exposes(s, bad, k);
    } else {
      forall actions ensures !Exposes(s, actions, k) {
        if KeepsTuple(s, actions, k) && Unmarked(Run(s, actions)) {
          HonestRunProtects(s, actions);
        }
      }
    }
  }

  // ---------------------------------------------------------------- by the children at the write

  /** No child can be miscounted, as the children are now. */
  predicate SafeToCount(s: State, k: Names) {
    forall c: Service :: CannotBeMiscounted(s.children[c], k)
  }

  lemma CountingWork(s: State, w: Work, choice: nat, k: Names)
    requires SafetyInv(s) && s.parent == Working(w) && SafeToCount(s, k) && s.config.Some? && s.config.value.names == k
    ensures SafeToCount(AdvanceWork(s, w, choice), k) && HonestAction(s, ParentStep(choice))
  {
    if w.stage.AtPublish? {
      var ch := s.children[w.stage.service];
      CountingPublish(ch, w, choice);
      if Confirms(PublishChild(ch, w, choice), ExpectedHash(k)) {
        CountedByPublishing(ch, w, choice);
      }
    } else if !w.stage.AtConfig? {
      OtherStagesKeepNames(s, w, choice);
    }
  }

  lemma CountingAction(s: State, a: Action, k: Names)
    requires SafetyInv(s) && SafeToCount(s, k) && s.config.Some? && s.config.value.names == k
    ensures SafeToCount(Step(s, a), k) && HonestAction(s, a)
  {
    if IsChildAction(a) {
      ChildActionIsLocal(s, a);
      CountingStep(s.children[a.service], a, s.config.value, s.secrets);
    } else if a.ParentStep? && s.parent.Working? {
      CountingWork(s, s.parent.work, a.choice, k);
      StepIsWork(s, a.choice);
    } else {
      OtherActionsKeepNames(s, a);
    }
  }

  lemma {:induction false} SafeCountIsHonest(s: State, actions: seq<Action>, k: Names)
    requires SafetyInv(s) && OwnershipInv(s) && SafeToCount(s, k) && s.config.Some? && s.config.value.names == k
    requires KeepsTuple(s, actions, k)
    ensures HonestUntilDeletion(s, actions)
    decreases |actions|
  {
    if actions != [] {
      CountingAction(s, actions[0], k);
      ConfigStays(s, actions[0], k);
      SafetyInvStep(s, actions[0]);
      OwnershipInvStep(s, actions[0]);
      SafeCountIsHonest(Step(s, actions[0]), actions[1..], k);
    }
  }

  /** A child that is miscounted already, whatever its annotation is. */
  lemma MiscountedCosts(s: State, k: Names, c: Service) returns (actions: seq<Action>)
    requires Poised(s, Target(k, 0, 0, 0)) && RotationInv(s) && OwnershipInv(s) && Miscounted(s.children[c], k)
    ensures Exposes(s, actions, k)
  {
    var t := Target(k, 0, s.children[c].spec.value.other, 0);
    var publish := PublishAgain(s, t, c);
    PublishingCounts(s.children[c], k);
    RotationInvRun(s, publish);
    var cost := WrongCountCostsAFinalizer(Run(s, publish), t, c);
    Pieces(s, publish, cost, k);
    actions := publish + cost;
  }

  lemma UnsafeCountCosts(s: State, k: Names, c: Service) returns (actions: seq<Action>)
    requires RotationInv(s) && OwnershipInv(s) && s.heat.Some? && s.heat.value.finalizer && !s.heat.value.deleting
    requires s.transportUrl.Url? && (k.notification.Some? ==> s.notificationUrl.Url?)
    requires CurrentSecrets(Target(k, 0, 0, 0), TransportConsumer) <= s.secrets.Keys
    requires ChildInv(s.children[c]) && !CannotBeMiscounted(s.children[c], k)
    ensures Exposes(s, actions, k)
  {
    var ask := AskAgain(s, k);
    var mid := Run(s, ask);
    assert Transport(k.transport) in mid.secrets;
    var events := SomeContinuationMiscounts(mid.children[c], k, mid.secrets);
    var bring := BringAll(mid, k, c, events);
    Pieces(s, ask, bring, k);
    RotationInvRun(s, ask + bring);
    var cost := MiscountedCosts(Run(s, ask + bring), k, c);
    Pieces(s, ask + bring, cost, k);
    actions := ask + bring + cost;
  }

  /** A pass of an undeleted Heat that is about to write K has read and protected its transports. */
  lemma RenderingPass(s: State, w: Work, rest: nat)
    requires SafetyInv(s) && OwnershipInv(s) && RotationInv(s) && Unmarked(s)
    requires s.parent == Working(w) && w.stage.AtConfig?
    ensures var k, after := NamesOf(w), AdvanceWork(s, w, rest);
            && SafetyInv(after) && OwnershipInv(after) && RotationInv(after)
            && after.config == Some(Config(k, rest)) && after.children == s.children
            && after.heat == s.heat && s.heat.value.finalizer
            && after.transportUrl.Url? && (k.notification.Some? ==> after.notificationUrl.Url?)
            && CurrentSecrets(Target(k, 0, 0, 0), TransportConsumer) <= after.secrets.Keys
  {
    StepIsWork(s, rest);
    SafetyInvStep(s, ParentStep(rest));
    OwnershipInvStep(s, ParentStep(rest));
    RotationInvStep(s, ParentStep(rest));
  }

  /** When a write can cost a finalizer, exactly: no continuation that keeps the written tuple, with
      whatever the controllers, the kubelet and the environment do, leaves something in use
      unprotected if and only if no child can be miscounted, as the children are at the write. */
  lemma WriteCostsNothingIff(s: State, w: Work, rest: nat)
    requires SafetyInv(s) && OwnershipInv(s) && RotationInv(s) && Unmarked(s)
    requires s.parent == Working(w) && w.stage.AtConfig?
    ensures (forall actions :: !Exposes(AdvanceWork(s, w, rest), actions, NamesOf(w))) <==> SafeToCount(s, NamesOf(w))
  {
    var k, after := NamesOf(w), AdvanceWork(s, w, rest);
    RenderingPass(s, w, rest);
    if SafeToCount(s, k) {
      forall actions ensures !Exposes(after, actions, k) {
        if KeepsTuple(after, actions, k) && Unmarked(Run(after, actions)) {
          SafeCountIsHonest(after, actions, k);
          HonestRunProtects(after, actions);
        }
      }
    } else {
      var c: Service :| !CannotBeMiscounted(s.children[c], k);
      var bad := UnsafeCountCosts(after, k, c);
      assert Exposes(after, bad, k);
    }
  }

  /** A write that can mislead no child costs nothing. */
  lemma SafeWriteIsSafeToCount(s: State, k: Names)
    requires SafeToWrite(s, k) && ChildrenInv(s.children, s.config)
    ensures SafeToCount(s, k)
  {
    forall c: Service ensures CannotBeMiscounted(s.children[c], k) {
      SafeIsSafeToCount(s.children[c], k);
    }
  }

  // ---------------------------------------------------------------- over runs

  predicate SafeWrite(s: State, a: Action) {
    WritesConfig(s, a) ==> SafeToCount(s, NamesOf(s.parent.work))
  }

  /** At every configuration write of the run no child can be miscounted. */
  predicate SafeWrites(s: State, actions: seq<Action>)
    decreases |actions|
  {
    actions != [] ==> SafeWrite(s, actions[0]) && SafeWrites(Step(s, actions[0]), actions[1..])
  }

  /** No child can be miscounted for what is rendered. */
  predicate Countless(s: State) {
    s.config.Some? ==> SafeToCount(s, s.config.value.names)
  }

  lemma UnrenderedPass(s: State, w: Work)
    requires SafetyInv(s) && s.parent == Working(w) && s.config.None?
    ensures !w.stage.AtPublish?
  {
  }

  lemma CountlessStep(s: State, a: Action)
    requires SafetyInv(s) && Countless(s) && SafeWrite(s, a)
    ensures Countless(Step(s, a)) && HonestAction(s, a)
  {
    if WritesConfig(s, a) {
      StepIsWork(s, a.choice);
    } else if s.config.Some? {
      CountingAction(s, a, s.config.value.names);
      ConfigStays(s, a, s.config.value.names);
    } else if IsChildAction(a) {
      ChildActionIsLocal(s, a);
    } else if a.ParentStep? && s.parent.Working? {
      UnrenderedPass(s, s.parent.work);
      StepIsWork(s, a.choice);
      OtherStagesKeepNames(s, s.parent.work, a.choice);
    } else {
      OtherActionsKeepNames(s, a);
    }
  }

  lemma {:induction false} SafeWritesAreHonest(s: State, actions: seq<Action>)
    requires SafetyInv(s) && OwnershipInv(s) && Countless(s) && SafeWrites(s, actions)
    ensures Honest(s, actions)
    decreases |actions|
  {
    if actions != [] {
      CountlessStep(s, actions[0]);
      SafetyInvStep(s, actions[0]);
      OwnershipInvStep(s, actions[0]);
      SafeWritesAreHonest(Step(s, actions[0]), actions[1..]);
    }
  }

  /** Protection under the weakest condition on each write: while Heat is live, whatever is
      rendered, published or running refers only to transport and notification secrets that carry
      the consumer finalizer, and no child spec names an unprotected credential secret. */
  lemma SafeWritesProtect(s: State, actions: seq<Action>)
    requires Initial(s) && SafeWrites(s, actions)
    ensures Live(Run(s, actions)) ==> Protected(Run(s, actions))
  {
    SafetyInvInitial(s);
    SafeWritesAreHonest(s, actions);
    SafetyInvRun(s, actions);
  }
}
