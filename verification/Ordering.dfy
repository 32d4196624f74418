/** Confirmation soundness for hashes that are no longer current.

    Tuples are numbered in the order in which they were first rendered. A child that confirms
    the hash of one tuple may already run a later one, but never an earlier one.
 */
module Ordering {
  import opened Names
  import opened Cluster
  import opened Confirmation
  import opened Protection
  import opened History

  /** The position of a tuple among the versions rendered so far. */
  function Pos(vs: seq<Names>, k: Names): nat {
    if vs == [] then 0 else if vs[|vs| - 1] == k then |vs| - 1 else Pos(vs[..|vs| - 1], k)
  }

  function Set(vs: seq<Names>): set<Names> {
    set k | k in vs
  }

  lemma PosSnoc(vs: seq<Names>, n: Names, k: Names)
    requires k in vs && n !in vs
    ensures Pos(vs + [n], k) == Pos(vs, k)
  {
    assert (vs + [n])[..|vs|] == vs;
  }

  lemma {:induction false} PosBelow(vs: seq<Names>, k: Names)
    requires k in vs
    ensures Pos(vs, k) < |vs| && vs[Pos(vs, k)] == k
  {
    if vs[|vs| - 1] != k {
      PosBelow(vs[..|vs| - 1], k);
    }
  }

  predicate NotOlder(vs: seq<Names>, than: Names, k: Names) {
    k in vs && Pos(vs, than) <= Pos(vs, k)
  }

  /** Everything the child serves from now on is at least as new as K. */
  predicate ServesSince(ch: Child, vs: seq<Names>, k: Names) {
    && ch.own.Some? && NotOlder(vs, k, ch.own.value.names)
    && forall p | p in ch.pods :: NotOlder(vs, k, p.config.names)
  }

  ghost predicate ConfirmsInOrder(ch: Child, vs: seq<Names>) {
    forall k :: ch.status.applied == ExpectedHash(k) ==> k in vs && ServesSince(ch, vs, k)
  }

  /** What a pass in flight has read after its annotation is at least as new as the annotation. */
  ghost predicate ReadsInOrder(ch: Child, vs: seq<Names>) {
    InFlight(ch.pass) ==>
      forall k :: ch.pass.seen.annotation == ExpectedHash(k) ==>
        && k in vs
        && (ch.pass.Copied? ==> NotOlder(vs, k, ch.pass.copy.names))
        && (CarriesHash(ch.pass) ==> NotOlder(vs, k, ch.pass.hash.own.names))
  }

  /** The child's own configuration only moves forward, and a stamp is never newer than what runs under it. */
  predicate MovesForward(ch: Child, vs: seq<Names>) {
    && (ch.own.Some? ==> ch.own.value.names in vs)
    && (ch.template.Some? ==> ch.own.Some? && ch.template.value.own.names in vs
                              && NotOlder(vs, ch.template.value.own.names, ch.own.value.names))
    && (forall p | p in ch.pods ::
          && ch.own.Some? && p.hash.own.names in vs && NotOlder(vs, p.hash.own.names, p.config.names)
          && NotOlder(vs, p.config.names, ch.own.value.names))
    && (ch.pass.Copied? ==> ch.pass.copy.names in vs
                            && (ch.own.Some? ==> NotOlder(vs, ch.own.value.names, ch.pass.copy.names)))
  }

  ghost predicate Ordered(ch: Child, vs: seq<Names>) {
    && ChildInv(ch) && MovesForward(ch, vs) && ReadsInOrder(ch, vs) && ConfirmsInOrder(ch, vs)
    && forall k :: ch.annotation == ExpectedHash(k) ==> k in vs
  }

  /** The configuration is always the newest version. */
  predicate Newest(config: Option<Config>, vs: seq<Names>) {
    config.Some? ==> vs != [] && vs[|vs| - 1] == config.value.names
  }

  lemma NewestIsNotOlder(vs: seq<Names>, k: Names)
    requires k in vs
    ensures NotOlder(vs, k, vs[|vs| - 1])
  {
    PosBelow(vs, k);
  }

  lemma OrderedChildAction(ch: Child, a: Action, config: Option<Config>, secrets: SecretStore, vs: seq<Names>)
    requires IsChildAction(a) && Ordered(ch, vs) && Newest(config, vs)
    ensures Ordered(StepChild(ch, a, config, secrets), vs)
  {
    ChildInvStep(ch, a, config, secrets);
    forall k | k in vs ensures NotOlder(vs, k, vs[|vs| - 1]) {
      NewestIsNotOlder(vs, k);
    }
    if a.ChildStep? {
      OrderedAdvance(ch, a.choice, config, secrets, vs);
    }
  }

  lemma ReadingStep(ch: Child, choice: nat, config: Option<Config>, secrets: SecretStore, vs: seq<Names>)
    requires Ordered(ch, vs) && Newest(config, vs) && (ch.pass.Observed? || ch.pass.Hashed?)
    requires forall k | k in vs :: NotOlder(vs, k, vs[|vs| - 1])
    ensures var ch' := AdvanceChild(ch, config, secrets, choice);
            MovesForward(ch', vs) && ReadsInOrder(ch', vs) && ConfirmsInOrder(ch', vs)
  {
    if ch.pass.Hashed? {
      CopyingStep(ch, choice, config, secrets, vs);
    }
  }

  lemma CopyingStep(ch: Child, choice: nat, config: Option<Config>, secrets: SecretStore, vs: seq<Names>)
    requires Ordered(ch, vs) && Newest(config, vs) && ch.pass.Hashed?
    requires forall k | k in vs :: NotOlder(vs, k, vs[|vs| - 1])
    ensures var ch' := AdvanceChild(ch, config, secrets, choice);
            MovesForward(ch', vs) && ReadsInOrder(ch', vs) && ConfirmsInOrder(ch', vs)
  {
  }

  lemma WritingStep(ch: Child, choice: nat, config: Option<Config>, secrets: SecretStore, vs: seq<Names>)
    requires Ordered(ch, vs) && Newest(config, vs) && (ch.pass.Copied? || ch.pass.Rendered? || ch.pass.Deployed?)
    ensures var ch' := AdvanceChild(ch, config, secrets, choice);
            MovesForward(ch', vs) && ReadsInOrder(ch', vs) && ConfirmsInOrder(ch', vs)
  {
  }

  lemma ConfirmingStep(ch: Child, choice: nat, config: Option<Config>, secrets: SecretStore, vs: seq<Names>)
    requires Ordered(ch, vs) && Newest(config, vs) && ch.pass.Checked?
    ensures var ch' := AdvanceChild(ch, config, secrets, choice);
            MovesForward(ch', vs) && ReadsInOrder(ch', vs) && ConfirmsInOrder(ch', vs)
  {
    var ch' := AdvanceChild(ch, config, secrets, choice);
    forall k | ch'.status.applied == ExpectedHash(k) ensures k in vs && ServesSince(ch', vs, k) {
      if ch.pass.rolledOut {
        assert NotOlder(vs, k, ch.pass.hash.own.names);
      }
    }
  }

  lemma OrderedAdvance(ch: Child, choice: nat, config: Option<Config>, secrets: SecretStore, vs: seq<Names>)
    requires Ordered(ch, vs) && Newest(config, vs) && forall k | k in vs :: NotOlder(vs, k, vs[|vs| - 1])
    requires ChildInv(AdvanceChild(ch, config, secrets, choice))
    ensures Ordered(AdvanceChild(ch, config, secrets, choice), vs)
  {
    match ch.pass
    case Idle =>
    case Joining(_) =>
    case Observed(_) => ReadingStep(ch, choice, config, secrets, vs);
    case Hashed(_, _) => ReadingStep(ch, choice, config, secrets, vs);
    case Checked(_, _, _) => ConfirmingStep(ch, choice, config, secrets, vs);
    case _ => WritingStep(ch, choice, config, secrets, vs);
  }

  /** A new version leaves the order of the known ones alone. */
  lemma OrderedSnoc(ch: Child, vs: seq<Names>, n: Names)
    requires Ordered(ch, vs) && n !in vs
    ensures Ordered(ch, vs + [n])
  {
    forall k | k in vs ensures Pos(vs + [n], k) == Pos(vs, k) {
      PosSnoc(vs, n, k);
    }
  }

  lemma OrderedPublish(ch: Child, w: Work, other: nat, vs: seq<Names>)
    requires Ordered(ch, vs) && NamesOf(w) in vs
    ensures Ordered(PublishChild(ch, w, other), vs)
  {
    forall k | ExpectedHash(NamesOf(w)) == ExpectedHash(k) ensures k in vs {
      ExpectedHashIsInjective(NamesOf(w), k);
    }
    PublishKeepsSoundness(ch, w, other, NamesOf(w));
  }

  // ---------------------------------------------------------------- over runs

  function VersionsAfter(s: State, a: Action, vs: seq<Names>): seq<Names> {
    if WritesConfig(s, a) && NamesOf(s.parent.work) !in vs then vs + [NamesOf(s.parent.work)] else vs
  }

  function Versions(s: State, actions: seq<Action>, vs: seq<Names>): seq<Names>
    decreases |actions|
  {
    if actions == [] then vs else Versions(Step(s, actions[0]), actions[1..], VersionsAfter(s, actions[0], vs))
  }

  ghost predicate OrderInv(s: State, vs: seq<Names>) {
    && Newest(s.config, vs)
    && (s.parent.Working? && Rank(s.parent.work.stage) >= 6 ==> NamesOf(s.parent.work) in vs)
    && forall c: Service :: Ordered(s.children[c], vs)
  }

  lemma OrderInvConfig(s: State, w: Work, choice: nat, vs: seq<Names>)
    requires OrderInv(s, vs) && s.parent == Working(w) && w.stage.AtConfig?
    requires (s.config.Some? && s.config.value.names == NamesOf(w)) || NamesOf(w) !in vs
    ensures OrderInv(AdvanceWork(s, w, choice), VersionsAfter(s, ParentStep(choice), vs))
  {
    if NamesOf(w) !in vs {
      forall c: Service ensures Ordered(s.children[c], vs + [NamesOf(w)]) {
        OrderedSnoc(s.children[c], vs, NamesOf(w));
      }
    }
  }

  lemma OrderInvStep(s: State, a: Action, vs: seq<Names>)
    requires OrderInv(s, vs)
    requires WritesConfig(s, a) ==>
               (s.config.Some? && s.config.value.names == NamesOf(s.parent.work)) || NamesOf(s.parent.work) !in vs
    ensures OrderInv(Step(s, a), VersionsAfter(s, a, vs))
  {
    if IsChildAction(a) {
      OrderedChildAction(s.children[a.service], a, s.config, s.secrets, vs);
      OrderInvChild(s, a, vs);
    } else if a.ParentStep? && s.parent.Working? {
      OrderInvWork(s, s.parent.work, a.choice, vs);
      StepIsWork(s, a.choice);
    } else {
      OtherActionsKeepNames(s, a);
      OrderInvFrame(s, Step(s, a), vs);
    }
  }

  lemma OrderInvWork(s: State, w: Work, choice: nat, vs: seq<Names>)
    requires OrderInv(s, vs) && s.parent == Working(w)
    requires w.stage.AtConfig? ==> (s.config.Some? && s.config.value.names == NamesOf(w)) || NamesOf(w) !in vs
    ensures OrderInv(AdvanceWork(s, w, choice), VersionsAfter(s, ParentStep(choice), vs))
  {
    if w.stage.AtConfig? {
      OrderInvConfig(s, w, choice, vs);
    } else if w.stage.AtPublish? {
      OrderedPublish(s.children[w.stage.service], w, choice, vs);
      OrderInvPublish(s, w, choice, vs);
    } else {
      OtherStagesKeepNames(s, w, choice);
      OrderInvFrame(s, AdvanceWork(s, w, choice), vs);
    }
  }

  lemma OrderInvChild(s: State, a: Action, vs: seq<Names>)
    requires OrderInv(s, vs) && IsChildAction(a)
    requires Ordered(StepChild(s.children[a.service], a, s.config, s.secrets), vs)
    ensures OrderInv(Step(s, a), vs)
  {
    hide Ordered;
    ChildActionIsLocal(s, a);
  }

  lemma OrderInvPublish(s: State, w: Work, other: nat, vs: seq<Names>)
    requires OrderInv(s, vs) && s.parent == Working(w) && w.stage.AtPublish?
    requires Ordered(PublishChild(s.children[w.stage.service], w, other), vs)
    ensures OrderInv(Publish(s, w, w.stage.service, other), vs)
  {
  }

  lemma OrderInvFrame(s: State, s': State, vs: seq<Names>)
    requires OrderInv(s, vs) && s'.children == s.children && s'.config == s.config
    requires s'.parent.Working? && Rank(s'.parent.work.stage) >= 6 ==>
               s.parent.Working? && Rank(s.parent.work.stage) >= 6 && NamesOf(s'.parent.work) == NamesOf(s.parent.work)
    ensures OrderInv(s', vs)
  {
    forall c: Service ensures Ordered(s'.children[c], vs) {
      assert Ordered(s.children[c], vs);
    }
  }

  lemma {:induction false} OrderInvRun(s: State, actions: seq<Action>, vs: seq<Names>)
    requires OrderInv(s, vs) && NeverReturns(s, Set(vs), actions)
    ensures OrderInv(Run(s, actions), Versions(s, actions, vs))
    decreases |actions|
  {
    hide OrderInv;
    if actions != [] {
      OrderInvStep(s, actions[0], vs);
      assert Set(VersionsAfter(s, actions[0], vs)) == SeenAfter(s, actions[0], Set(vs));
      OrderInvRun(Step(s, actions[0]), actions[1..], VersionsAfter(s, actions[0], vs));
    }
  }

  /** If a child's applied hash is the hash of K, current or not, then K was rendered, and every
      pod of the child runs K or a tuple rendered after it. */
  lemma NoPodIsOlderThanConfirmed(s: State, actions: seq<Action>, c: Service, p: Pod, k: Names)
    requires Initial(s) && NeverReturns(s, {}, actions)
    requires var end := Run(s, actions); end.children[c].status.applied == ExpectedHash(k) && p in end.children[c].pods
    ensures var vs := Versions(s, actions, []);
            k in vs && p.config.names in vs && Pos(vs, k) <= Pos(vs, p.config.names)
  {
    forall c: Service ensures Ordered(s.children[c], []) {
      assert s.children[c] == NewChild();
    }
    assert Set([]) == {};
    OrderInvRun(s, actions, []);
    assert Ordered(Run(s, actions).children[c], Versions(s, actions, []));
  }
}
