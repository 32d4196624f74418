/** Two ways a rotation schedule meets the hypothesis of the protection theorem.

    A tuple that was never rendered before is safe to write, and a child that has settled
    on one tuple has forgotten every other, so after a finished rotation even an earlier
    tuple may come back.
 */
module History {
  import opened Names
  import opened Cluster
  import opened Confirmation
  import opened Protection

  ghost predicate HashSeen(h: InputSecretHash, seen: set<Names>) {
    forall k :: h == ExpectedHash(k) ==> k in seen
  }

  /** Every tuple the child has a trace of was rendered at some time. */
  ghost predicate ChildSeen(ch: Child, seen: set<Names>) {
    && HashSeen(ch.annotation, seen)
    && HashSeen(ch.status.applied, seen)
    && (InFlight(ch.pass) ==> HashSeen(ch.pass.seen.annotation, seen))
    && (ch.pass.Copied? ==> ch.pass.copy.names in seen)
    && (CarriesHash(ch.pass) ==> ch.pass.hash.own.names in seen)
    && (ch.template.Some? ==> ch.template.value.own.names in seen)
    && forall p | p in ch.pods :: p.hash.own.names in seen
  }

  ghost predicate HistoryInv(s: State, seen: set<Names>) {
    && (s.config.Some? ==> s.config.value.names in seen)
    && (s.parent.Working? && Rank(s.parent.work.stage) >= 6 ==> NamesOf(s.parent.work) in seen)
    && forall c: Service :: ChildSeen(s.children[c], seen)
  }

  predicate WritesConfig(s: State, a: Action) {
    a.ParentStep? && s.parent.Working? && s.parent.work.stage.AtConfig?
  }

  function SeenAfter(s: State, a: Action, seen: set<Names>): set<Names> {
    if WritesConfig(s, a) then seen + {NamesOf(s.parent.work)} else seen
  }

  /** The rendered tuple never goes back to a value it has left. */
  predicate NeverReturns(s: State, seen: set<Names>, actions: seq<Action>)
    decreases |actions|
  {
    actions != [] ==>
      && (WritesConfig(s, actions[0]) ==>
            || (s.config.Some? && s.config.value.names == NamesOf(s.parent.work))
            || NamesOf(s.parent.work) !in seen)
      && NeverReturns(Step(s, actions[0]), SeenAfter(s, actions[0], seen), actions[1..])
  }

  lemma ChildSeenAdvance(ch: Child, config: Option<Config>, secrets: SecretStore, choice: nat, seen: set<Names>)
    requires ChildSeen(ch, seen) && (config.Some? ==> config.value.names in seen)
    ensures ChildSeen(AdvanceChild(ch, config, secrets, choice), seen)
  {
    var ch' := AdvanceChild(ch, config, secrets, choice);
    assert ch'.pods == ch.pods && ch'.annotation == ch.annotation;
  }

  lemma ChildSeenStep(ch: Child, a: Action, config: Option<Config>, secrets: SecretStore, seen: set<Names>)
    requires IsChildAction(a) && ChildSeen(ch, seen) && (config.Some? ==> config.value.names in seen)
    ensures ChildSeen(StepChild(ch, a, config, secrets), seen)
  {
    if a.ChildStep? {
      ChildSeenAdvance(ch, config, secrets, a.choice, seen);
    }
  }

  lemma PublishSeen(ch: Child, w: Work, other: nat, seen: set<Names>)
    requires ChildSeen(ch, seen) && NamesOf(w) in seen
    ensures ChildSeen(PublishChild(ch, w, other), seen)
  {
    forall k | ExpectedHash(NamesOf(w)) == ExpectedHash(k) ensures k in seen {
      ExpectedHashIsInjective(NamesOf(w), k);
    }
  }

  /** Outside the configuration write and the publishing, a pass leaves configuration and
      children alone, and its names are fixed from the configuration write on. */
  lemma OtherStagesKeepNames(s: State, w: Work, choice: nat)
    requires s.parent == Working(w) && !w.stage.AtConfig? && !w.stage.AtPublish?
    ensures var s' := AdvanceWork(s, w, choice);
            && s'.children == s.children && s'.config == s.config
            && (s'.parent.Working? && Rank(s'.parent.work.stage) >= 6 ==>
                  Rank(w.stage) >= 6 && NamesOf(s'.parent.work) == NamesOf(w))
  {
    if Rank(w.stage) >= 10 {
      LastStagesKeepNames(s, w, choice);
    }
  }

  lemma LastStagesKeepNames(s: State, w: Work, choice: nat)
    requires s.parent == Working(w) && Rank(w.stage) >= 10
    ensures var s' := AdvanceWork(s, w, choice);
            && s'.children == s.children && s'.config == s.config
            && (s'.parent.Working? ==> NamesOf(s'.parent.work) == NamesOf(w))
  {
  }

  lemma HistoryInvFrame(s: State, s': State, seen: set<Names>)
    requires HistoryInv(s, seen) && s'.children == s.children && s'.config == s.config
    requires s'.parent.Working? && Rank(s'.parent.work.stage) >= 6 ==>
               s.parent.Working? && Rank(s.parent.work.stage) >= 6 && NamesOf(s'.parent.work) == NamesOf(s.parent.work)
    ensures HistoryInv(s', seen)
  {
    forall c: Service ensures ChildSeen(s'.children[c], seen) {
      assert ChildSeen(s.children[c], seen);
    }
  }

  lemma HistoryInvOneChild(s: State, c: Service, ch: Child, seen: set<Names>)
    requires HistoryInv(s, seen) && ChildSeen(ch, seen)
    ensures HistoryInv(s.(children := s.children[c := ch]), seen)
  {
  }

  lemma HistoryInvPublish(s: State, w: Work, other: nat, seen: set<Names>)
    requires HistoryInv(s, seen) && s.parent == Working(w) && w.stage.AtPublish?
    ensures HistoryInv(Publish(s, w, w.stage.service, other), seen)
  {
    var c := w.stage.service;
    PublishSeen(s.children[c], w, other, seen);
    HistoryInvOneChild(s, c, PublishChild(s.children[c], w, other), seen);
  }

  lemma HistoryInvConfig(s: State, w: Work, choice: nat, seen: set<Names>)
    requires HistoryInv(s, seen) && s.parent == Working(w) && w.stage.AtConfig?
    ensures HistoryInv(AdvanceWork(s, w, choice), seen + {NamesOf(w)})
  {
    forall c: Service ensures ChildSeen(s.children[c], seen + {NamesOf(w)}) {
      assert ChildSeen(s.children[c], seen);
    }
  }

  lemma HistoryInvWork(s: State, w: Work, choice: nat, seen: set<Names>)
    requires HistoryInv(s, seen) && s.parent == Working(w)
    ensures HistoryInv(AdvanceWork(s, w, choice), SeenAfter(s, ParentStep(choice), seen))
  {
    if w.stage.AtConfig? {
      HistoryInvConfig(s, w, choice, seen);
    } else if w.stage.AtPublish? {
      HistoryInvPublish(s, w, choice, seen);
    } else {
      OtherStagesKeepNames(s, w, choice);
      HistoryInvFrame(s, AdvanceWork(s, w, choice), seen);
    }
  }

  lemma OtherActionsKeepNames(s: State, a: Action)
    requires !IsChildAction(a) && !(a.ParentStep? && s.parent.Working?)
    ensures var s' := Step(s, a);
            && s'.children == s.children && s'.config == s.config
            && (s'.parent.Working? && Rank(s'.parent.work.stage) >= 6 ==> s'.parent == s.parent)
  {
  }

  lemma HistoryInvChildAction(s: State, a: Action, seen: set<Names>)
    requires HistoryInv(s, seen) && IsChildAction(a)
    ensures HistoryInv(Step(s, a), seen)
  {
    var ch := StepChild(s.children[a.service], a, s.config, s.secrets);
    assert ChildSeen(ch, seen) by {
      ChildSeenStep(s.children[a.service], a, s.config, s.secrets, seen);
    }
    ChildActionIsLocal(s, a);
    HistoryInvOneChild(s, a.service, ch, seen);
  }

  lemma HistoryInvStep(s: State, a: Action, seen: set<Names>)
    requires HistoryInv(s, seen)
    ensures HistoryInv(Step(s, a), SeenAfter(s, a, seen))
  {
    hide HistoryInv;
    if IsChildAction(a) {
      HistoryInvChildAction(s, a, seen);
    } else if a.ParentStep? && s.parent.Working? {
      HistoryInvWork(s, s.parent.work, a.choice, seen);
    } else {
      OtherActionsKeepNames(s, a);
      HistoryInvFrame(s, Step(s, a), seen);
    }
  }

  /** A child remembers only tuples that were rendered. */
  lemma UnseenIsUnremembered(ch: Child, seen: set<Names>, k: Names)
    requires ChildSeen(ch, seen) && k !in seen
    ensures !Remembers(ch, k)
  {
  }

  lemma {:induction false} NeverReturningFrom(s: State, seen: set<Names>, actions: seq<Action>)
    requires HistoryInv(s, seen) && NeverReturns(s, seen, actions)
    ensures Careful(s, actions)
    decreases |actions|
  {
    if actions != [] {
      var a := actions[0];
      if WritesConfig(s, a) && NamesOf(s.parent.work) !in seen {
        forall c: Service ensures CannotMisreport(s.children[c], NamesOf(s.parent.work)) {
          UnseenIsUnremembered(s.children[c], seen, NamesOf(s.parent.work));
          UnrememberedIsSafe(s.children[c], NamesOf(s.parent.work));
        }
      }
      HistoryInvStep(s, a, seen);
      NeverReturningFrom(Step(s, a), SeenAfter(s, a, seen), actions[1..]);
    }
  }

  /** A run whose rendered tuples never return to an earlier value is careful. */
  lemma NeverReturningIsCareful(s: State, actions: seq<Action>)
    requires Initial(s) && NeverReturns(s, {}, actions)
    ensures Careful(s, actions)
  {
    forall c: Service ensures ChildSeen(s.children[c], {}) {
      assert s.children[c] == NewChild();
    }
    NeverReturningFrom(s, {}, actions);
  }

  /** The child is idle, has confirmed K, and neither its Deployment nor a pod is stamped otherwise. */
  predicate SettledOn(ch: Child, k: Names) {
    && ch.pass.Idle?
    && ch.status.applied == ExpectedHash(k)
    && (ch.template.Some? ==> ch.template.value.own.names == k)
    && (forall p | p in ch.pods :: p.hash.own.names == k)
    && Runs(ch, k)
  }

  /** Once every child has settled, any tuple at all may be written next, an earlier one included. */
  lemma AnyTupleIsSafeAfterSettling(s: State, k: Names, next: Names)
    requires forall c: Service :: SettledOn(s.children[c], k)
    ensures SafeToWrite(s, next)
  {
    forall c: Service ensures CannotMisreport(s.children[c], next) {
      assert SettledOn(s.children[c], k);
      ExpectedHashIsInjective(k, next);
    }
  }
}
