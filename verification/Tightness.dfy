/** The hypothesis on rotation is exact for the whole system.

    At the moment a configuration is written, no continuation of all four controllers, the
    kubelet and the environment in which the tuple stays makes a child misreport it, if and only
    if the write was safe.
 */
module Tightness {
  import opened Names
  import opened Cluster
  import opened Confirmation
  import opened Protection
  import opened History
  import opened Exactness
  import opened Schedule
  import opened Convergence

  /** Whatever is rendered in the run refers to K. */
  predicate KeepsTuple(s: State, actions: seq<Action>, k: Names)
    decreases |actions|
  {
    actions != [] ==>
      (WritesConfig(s, actions[0]) ==> NamesOf(s.parent.work) == k) && KeepsTuple(Step(s, actions[0]), actions[1..], k)
  }

  lemma {:induction false} KeepsConcat(s: State, a: seq<Action>, b: seq<Action>, k: Names)
    ensures KeepsTuple(s, a + b, k) <==> KeepsTuple(s, a, k) && KeepsTuple(Run(s, a), b, k)
    decreases |a|
  {
    if a == [] {
      assert a + b == b;
    } else {
      assert (a + b)[0] == a[0] && (a + b)[1..] == a[1..] + b;
      KeepsConcat(Step(s, a[0]), a[1..], b, k);
    }
  }

  /** Both halves of a run in two pieces. */
  lemma Pieces(s: State, a: seq<Action>, b: seq<Action>, k: Names)
    requires KeepsTuple(s, a, k) && KeepsTuple(Run(s, a), b, k)
    ensures KeepsTuple(s, a + b, k) && Run(s, a + b) == Run(Run(s, a), b)
  {
    KeepsConcat(s, a, b, k);
    RunConcat(s, a, b);
  }

  lemma OneAction(s: State, a: Action, k: Names)
    requires WritesConfig(s, a) ==> NamesOf(s.parent.work) == k
    ensures KeepsTuple(s, [a], k) && Run(s, [a]) == Step(s, a)
  {
    assert [a][1..] == [];
    assert KeepsTuple(Step(s, a), [], k);
  }

  // ---------------------------------------------------------------- enough

  predicate Sound(s: State, k: Names) {
    && s.config.Some? && s.config.value.names == k
    && forall c: Service :: ChildInv(s.children[c]) && CannotMisreport(s.children[c], k)
  }

  lemma SoundStep(s: State, a: Action, k: Names)
    requires Sound(s, k) && (WritesConfig(s, a) ==> NamesOf(s.parent.work) == k)
    ensures Sound(Step(s, a), k)
  {
    if IsChildAction(a) {
      ChildActionIsLocal(s, a);
      SoundnessStep(s.children[a.service], a, s.config.value, s.secrets);
      ChildInvStep(s.children[a.service], a, s.config, s.secrets);
    } else if a.ParentStep? && s.parent.Working? {
      SoundWork(s, s.parent.work, a.choice, k);
      StepIsWork(s, a.choice);
    } else {
      OtherActionsKeepNames(s, a);
    }
  }

  lemma SoundWork(s: State, w: Work, choice: nat, k: Names)
    requires Sound(s, k) && s.parent == Working(w) && (w.stage.AtConfig? ==> NamesOf(w) == k)
    ensures Sound(AdvanceWork(s, w, choice), k)
  {
    if w.stage.AtPublish? {
      PublishKeepsSoundness(s.children[w.stage.service], w, choice, k);
    } else if !w.stage.AtConfig? {
      OtherStagesKeepNames(s, w, choice);
    }
  }

  lemma {:induction false} SoundRun(s: State, actions: seq<Action>, k: Names)
    requires Sound(s, k) && KeepsTuple(s, actions, k)
    ensures Sound(Run(s, actions), k)
    decreases |actions|
  {
    if actions != [] {
      SoundStep(s, actions[0], k);
      SoundRun(Step(s, actions[0]), actions[1..], k);
    }
  }

  // ---------------------------------------------------------------- needed: the parent's part

  /** Between passes, with everything in place for a pass that renders the target. */
  predicate Poised(s: State, t: Target) {
    Quiet(s, t) && s.parent.Resting?
  }

  lemma EarlyKeepsStore(s: State, w: Work, choice: nat)
    requires s.parent == Working(w) && 1 <= Rank(w.stage) <= 6
    ensures AdvanceWork(s, w, choice).children == s.children
    ensures AdvanceWork(s, w, choice).secrets.Keys == s.secrets.Keys
  {
  }

  function PassStepOf(w: Work, t: Target): Action {
    ParentStep(if w.stage.AtConfig? then t.rest else t.other)
  }

  /** From the beginning of a pass to just after its configuration write. */
  lemma {:induction false} ToRendered(s: State, t: Target) returns (actions: seq<Action>)
    requires Settled(s, t) && s.parent.Working? && Rank(s.parent.work.stage) <= 6
    ensures KeepsTuple(s, actions, t.names)
    ensures var end := Run(s, actions);
            && Settled(end, t) && end.parent.Working? && Rank(end.parent.work.stage) == 6
            && end.children == s.children && end.secrets.Keys == s.secrets.Keys
    decreases 6 - Rank(s.parent.work.stage)
  {
    var w := s.parent.work;
    if Rank(w.stage) == 6 {
      actions := [];
    } else {
      var a := PassStepOf(w, t);
      SettledStep(s, a, t);
      EarlyKeepsStore(s, w, a.choice);
      EarlyStages(s, w, a.choice);
      StageMovesOn(s, w, a.choice);
      var rest := ToRendered(Step(s, a), t);
      OneAction(s, a, t.names);
      Pieces(s, [a], rest, t.names);
      actions := [a] + rest;
    }
  }

  lemma StageMovesOn(s: State, w: Work, choice: nat)
    requires s.parent == Working(w) && 1 <= Rank(w.stage) <= 5
    ensures var s' := AdvanceWork(s, w, choice);
            s'.parent.Working? && (Rank(w.stage) < Rank(s'.parent.work.stage) <= 6 || Rank(s'.parent.work.stage) == 0)
  {
    if Rank(w.stage) >= 4 {
      LaterStageMovesOn(s, w, choice);
    }
  }

  lemma LaterStageMovesOn(s: State, w: Work, choice: nat)
    requires s.parent == Working(w) && 4 <= Rank(w.stage) <= 5
    ensures var s' := AdvanceWork(s, w, choice);
            s'.parent.Working? && (Rank(w.stage) < Rank(s'.parent.work.stage) <= 6 || Rank(s'.parent.work.stage) == 0)
  {
    hide ReadTransport, ReadNotification, Publish, FinalizeRotation, FinalizeNotification;
  }

  lemma BeginsSettled(s: State, t: Target)
    requires Poised(s, t)
    ensures Settled(Begin(s), t) && Begin(s).parent.Working? && Rank(Begin(s).parent.work.stage) == 1
    ensures Begin(s).children == s.children && Begin(s).secrets == s.secrets
  {
    SettledStep(s, ParentBegin, t);
  }

  /** A pass up to its configuration write: the children do not notice. */
  lemma BeginToRendered(s: State, t: Target) returns (actions: seq<Action>)
    requires Poised(s, t)
    ensures KeepsTuple(s, actions, t.names)
    ensures var end := Run(s, actions);
            && Settled(end, t) && end.parent.Working? && Rank(end.parent.work.stage) == 6
            && end.children == s.children && end.secrets.Keys == s.secrets.Keys
  {
    BeginsSettled(s, t);
    OneAction(s, ParentBegin, t.names);
    var steps := ToRendered(Begin(s), t);
    Pieces(s, [ParentBegin], steps, t.names);
    actions := [ParentBegin] + steps;
  }

  /** A run of a pass is cut short by a crash. */
  lemma ThenCrash(s: State, steps: seq<Action>, t: Target) returns (actions: seq<Action>)
    requires KeepsTuple(s, steps, t.names) && Settled(Run(s, steps), t)
    ensures KeepsTuple(s, actions, t.names) && Run(s, actions) == Run(s, steps).(parent := Resting)
    ensures Poised(Run(s, actions), t)
  {
    var mid := Run(s, steps);
    OneAction(mid, ParentCrash, t.names);
    Pieces(s, steps, [ParentCrash], t.names);
    actions := steps + [ParentCrash];
  }

  /** A pass that renders the target and crashes. */
  lemma RenderAgain(s: State, t: Target) returns (actions: seq<Action>)
    requires Poised(s, t)
    ensures KeepsTuple(s, actions, t.names)
    ensures var end := Run(s, actions);
            Poised(end, t) && end.config == Some(Rendering(t)) && end.children == s.children
                && end.secrets.Keys == s.secrets.Keys
  {
    var steps := BeginToRendered(s, t);
    actions := ThenCrash(s, steps, t);
  }

  lemma PublishDependsOnNames(ch: Child, w: Work, w': Work, other: nat)
    requires NamesOf(w) == NamesOf(w')
    ensures PublishChild(ch, w, other) == PublishChild(ch, w', other)
  {
  }

  lemma PublishingStep(s: State, w: Work, t: Target, c: Service)
    requires Quiet(s, t) && s.parent == Working(w) && WorkAt(s, w, t) && 6 <= Rank(w.stage) <= PublishRank(c)
    ensures var s' := AdvanceWork(s, w, t.other);
            && s'.parent.Working? && Rank(s'.parent.work.stage) == Rank(w.stage) + 1
            && s'.secrets.Keys == s.secrets.Keys
            && s'.children[c] == if Rank(w.stage) == PublishRank(c) then PublishChild(s.children[c], w, t.other)
                                 else s.children[c]
  {
    hide PublishChild, OnRung;
    if w.stage.AtProtectCredential? && w.credential.Some? {
      assert Credential(w.credential.value) in CurrentSecrets(t, CredentialConsumer);
    }
  }

  lemma {:induction false} ToPublished(s: State, t: Target, c: Service) returns (actions: seq<Action>)
    requires Settled(s, t) && s.parent.Working? && 6 <= Rank(s.parent.work.stage) <= PublishRank(c)
    ensures KeepsTuple(s, actions, t.names)
    ensures var end := Run(s, actions);
            && Settled(end, t) && end.secrets.Keys == s.secrets.Keys && end.config == Some(Rendering(t))
            && end.children[c] == PublishChild(s.children[c], Publisher(t.names), t.other)
    decreases PublishRank(c) - Rank(s.parent.work.stage)
  {
    var w := s.parent.work;
    var a := ParentStep(t.other);
    SettledStep(s, a, t);
    PublishingStep(s, w, t, c);
    OneAction(s, a, t.names);
    if Rank(w.stage) == PublishRank(c) {
      PublishDependsOnNames(s.children[c], w, Publisher(t.names), t.other);
      actions := [a];
    } else {
      var rest := ToPublished(Step(s, a), t, c);
      Pieces(s, [a], rest, t.names);
      actions := [a] + rest;
    }
  }

  /** A pass that publishes the child and crashes. */
  lemma PublishAgain(s: State, t: Target, c: Service) returns (actions: seq<Action>)
    requires Poised(s, t)
    ensures KeepsTuple(s, actions, t.names)
    ensures var end := Run(s, actions);
            && Poised(end, t) && end.secrets.Keys == s.secrets.Keys && end.config == Some(Rendering(t))
            && end.children[c] == PublishChild(s.children[c], Publisher(t.names), t.other)
  {
    var steps := BeginToRendered(s, t);
    var more := ToPublished(Run(s, steps), t, c);
    Pieces(s, steps, more, t.names);
    actions := ThenCrash(s, steps + more, t);
  }

  // ---------------------------------------------------------------- needed: any continuation of one child

  function Retarget(a: Action, c: Service): Action
    requires IsChildAction(a)
  {
    match a
    case ChildBegin(_) => ChildBegin(c)
    case ChildStep(_, choice) => ChildStep(c, choice)
    case ChildStop(_) => ChildStop(c)
    case ChildCrash(_) => ChildCrash(c)
    case StartPod(_, h) => StartPod(c, h)
    case StopPod(_, p) => StopPod(c, p)
    case RestartPod(_, p) => RestartPod(c, p)
  }

  lemma RetargetIsTheSame(ch: Child, a: Action, c: Service, config: Option<Config>, secrets: SecretStore,
                          secrets': SecretStore)
    requires IsChildAction(a) && secrets.Keys == secrets'.Keys
    ensures IsChildAction(Retarget(a, c)) && Retarget(a, c).service == c
    ensures StepChild(ch, Retarget(a, c), config, secrets') == StepChild(ch, a, config, secrets)
  {
  }

  lemma {:induction false} OnlyNamesOfSecretsMatter(ch: Child, k: Names, secrets: SecretStore, secrets': SecretStore,
                                                    events: seq<Event>)
    requires secrets.Keys == secrets'.Keys
    ensures Continue(ch, k, secrets, events) == Continue(ch, k, secrets', events)
    decreases |events|
  {
    if events != [] {
      var e := events[0];
      if e.Happens? && IsChildAction(e.action) {
        RetargetIsTheSame(ch, e.action, Engine, Some(Config(k, e.rest)), secrets, secrets');
        RetargetIsTheSame(ch, e.action, Engine, Some(Config(k, e.rest)), secrets', secrets');
      }
      OnlyNamesOfSecretsMatter(After(ch, k, secrets, e), k, secrets, secrets', events[1..]);
    }
  }

  /** One event of a child's continuation, brought about by the whole system. */
  lemma Bring(s: State, k: Names, c: Service, e: Event) returns (actions: seq<Action>)
    requires Poised(s, Target(k, 0, 0, 0))
    ensures KeepsTuple(s, actions, k)
    ensures var end := Run(s, actions);
            && Poised(end, Target(k, 0, 0, 0)) && end.secrets.Keys == s.secrets.Keys
            && end.children[c] == After(s.children[c], k, s.secrets, e)
  {
    if e.Publishes? {
      actions := PublishAgain(s, Target(k, 0, e.other, 0), c);
    } else if IsChildAction(e.action) {
      var render := RenderAgain(s, Target(k, e.rest, 0, 0));
      var mid, a := Run(s, render), Retarget(e.action, c);
      RetargetIsTheSame(s.children[c], e.action, c, mid.config, s.secrets, mid.secrets);
      ChildActionIsLocal(mid, a);
      OneAction(mid, a, k);
      Pieces(s, render, [a], k);
      actions := render + [a];
    } else {
      actions := [];
    }
  }

  lemma {:induction false} BringAll(s: State, k: Names, c: Service, events: seq<Event>) returns (actions: seq<Action>)
    requires Poised(s, Target(k, 0, 0, 0))
    ensures KeepsTuple(s, actions, k) && Poised(Run(s, actions), Target(k, 0, 0, 0))
    ensures Run(s, actions).secrets.Keys == s.secrets.Keys
    ensures Run(s, actions).children[c] == Continue(s.children[c], k, s.secrets, events)
    decreases |events|
  {
    if events == [] {
      actions := [];
    } else {
      var first := Bring(s, k, c, events[0]);
      var mid := Run(s, first);
      var rest := BringAll(mid, k, c, events[1..]);
      OnlyNamesOfSecretsMatter(mid.children[c], k, s.secrets, mid.secrets, events[1..]);
      Pieces(s, first, rest, k);
      actions := first + rest;
    }
  }

  // ---------------------------------------------------------------- the two halves together

  /** A pass of a live Heat is about to write the configuration, over the secrets it has protected. */
  predicate AboutToWrite(s: State, w: Work) {
    && s.parent == Working(w) && w.stage.AtConfig?
    && s.heat.Some? && s.heat.value.finalizer && !s.heat.value.deleting
    && s.transportUrl.Url? && (w.notification.Some? ==> s.notificationUrl.Url?)
    && Transport(w.transport) in s.secrets
    && (w.notification.Some? ==> Notification(w.notification.value) in s.secrets)
  }

  /** The pass crashes, and the environment asks for the same tuple once more, with the credential
      secret that goes with it. */
  lemma AskAgain(s: State, k: Names) returns (actions: seq<Action>)
    requires s.heat.Some? && s.heat.value.finalizer && !s.heat.value.deleting
    requires s.transportUrl.Url? && (k.notification.Some? ==> s.notificationUrl.Url?)
    requires CurrentSecrets(Target(k, 0, 0, 0), TransportConsumer) <= s.secrets.Keys
    ensures KeepsTuple(s, actions, k)
    ensures var end := Run(s, actions);
            && Poised(end, Target(k, 0, 0, 0)) && end.children == s.children && end.config == s.config
            && s.secrets.Keys <= end.secrets.Keys
  {
    var transport := AskTransport(s, k);
    var s1 := Run(s, transport);
    var credential := AskCredential(s1, k);
    Pieces(s, transport, credential, k);
    var bus := AskBus(Run(s1, credential), k);
    Pieces(s, transport + credential, bus, k);
    actions := transport + credential + bus;
  }

  lemma AskTransport(s: State, k: Names) returns (actions: seq<Action>)
    requires s.transportUrl.Url?
    ensures KeepsTuple(s, actions, k)
    ensures Run(s, actions) == s.(parent := Resting, transportUrl := Url(Some(k.transport)))
  {
    actions := Append(s, [], ParentCrash, k);
    actions := Append(s, actions, SetTransport(Some(k.transport)), k);
  }

  lemma AskCredential(s: State, k: Names) returns (actions: seq<Action>)
    requires s.heat.Some?
    ensures KeepsTuple(s, actions, k)
    ensures var end := Run(s, actions);
            && end == s.(secrets := end.secrets, heat := Some(s.heat.value.(credential := k.credential)))
            && s.secrets.Keys <= end.secrets.Keys
            && (k.credential.Some? ==> Credential(k.credential.value) in end.secrets)
  {
    actions := [];
    if k.credential.Some? {
      actions := Append(s, actions, CreateSecret(Credential(k.credential.value)), k);
    }
    actions := Append(s, actions, SetCredential(k.credential), k);
  }

  lemma AskBus(s: State, k: Names) returns (actions: seq<Action>)
    requires s.heat.Some? && (k.notification.Some? ==> s.notificationUrl.Url?)
    ensures KeepsTuple(s, actions, k)
    ensures Run(s, actions)
            == s.(heat := Some(s.heat.value.(bus := k.notification.Some?)),
                  notificationUrl := if k.notification.Some? then Url(k.notification) else s.notificationUrl)
  {
    actions := Append(s, [], SetBus(k.notification.Some?), k);
    if k.notification.Some? {
      actions := Append(s, actions, SetNotification(k.notification), k);
    }
  }

  /** One more action of the environment, or a crash. */
  lemma Append(s: State, actions: seq<Action>, a: Action, k: Names) returns (longer: seq<Action>)
    requires KeepsTuple(s, actions, k) && !a.ParentStep?
    ensures KeepsTuple(s, longer, k) && Run(s, longer) == Step(Run(s, actions), a)
  {
    OneAction(Run(s, actions), a, k);
    Pieces(s, actions, [a], k);
    longer := actions + [a];
  }

  /** A run that keeps the tuple ends with a child that misreports it. */
  predicate GoesWrong(s: State, actions: seq<Action>, k: Names, c: Service) {
    KeepsTuple(s, actions, k) && Misreports(Run(s, actions).children[c], k)
  }

  /** Exactly when a tuple may be written: no continuation that keeps the tuple, with whatever
      the controllers, the kubelet and the environment do, makes any child misreport it if and
      only if the write is safe. */
  lemma WriteIsSafeIff(s: State, w: Work, rest: nat)
    requires AboutToWrite(s, w) && ChildrenInv(s.children, s.config)
    ensures var k, after := NamesOf(w), AdvanceWork(s, w, rest);
            (forall actions, c :: !GoesWrong(after, actions, k, c)) <==> SafeToWrite(s, k)
  {
    var k, after := NamesOf(w), AdvanceWork(s, w, rest);
    if SafeToWrite(s, k) {
      forall actions, c | KeepsTuple(after, actions, k) ensures !GoesWrong(after, actions, k, c) {
        SoundRun(after, actions, k);
        assert CannotMisreport(Run(after, actions).children[c], k);
      }
    } else {
      var c: Service :| !CannotMisreport(s.children[c], k);
      var bad := UnsafeWriteGoesWrong(after, k, c);
      assert GoesWrong(after, bad, k, c);
    }
  }

  lemma UnsafeWriteGoesWrong(s: State, k: Names, c: Service) returns (actions: seq<Action>)
    requires s.heat.Some? && s.heat.value.finalizer && !s.heat.value.deleting
    requires s.transportUrl.Url? && (k.notification.Some? ==> s.notificationUrl.Url?)
    requires CurrentSecrets(Target(k, 0, 0, 0), TransportConsumer) <= s.secrets.Keys
    requires ChildInv(s.children[c]) && !CannotMisreport(s.children[c], k)
    ensures KeepsTuple(s, actions, k) && Misreports(Run(s, actions).children[c], k)
  {
    var ask := AskAgain(s, k);
    var mid := Run(s, ask);
    assert Transport(k.transport) in mid.secrets;
    var events := SomeContinuationMisreports(mid.children[c], k, mid.secrets);
    var run := BringAll(mid, k, c, events);
    Pieces(s, ask, run, k);
    actions := ask + run;
  }
}
