/** Fair rounds exist: in a settled environment no controller can get stuck.

    A pass of either kind strictly comes closer to its end with every step, so from every
    settled state there is a fair round, and with six of them a run to the converged state.
 */
module Progress {
  import opened Names
  import opened Cluster
  import opened Confirmation
  import opened Protection
  import opened Schedule
  import opened Convergence

  // ---------------------------------------------------------------- runs in pieces

  lemma {:induction false} Concat(s: State, a: seq<Action>, b: seq<Action>, w: Watch, t: Target)
    ensures Run(s, a + b) == Run(Run(s, a), b)
    ensures WatchRun(s, a + b, w) == WatchRun(Run(s, a), b, WatchRun(s, a, w))
    ensures CalmRun(s, a + b, t) <==> CalmRun(s, a, t) && CalmRun(Run(s, a), b, t)
    decreases |a|
  {
    if a == [] {
      assert a + b == b;
      assert ObserveRollouts(s, ObserveRollouts(s, w)) == ObserveRollouts(s, w);
    } else {
      assert (a + b)[0] == a[0] && (a + b)[1..] == a[1..] + b;
      Concat(Step(s, a[0]), a[1..], b, Observe(s, a[0], ObserveRollouts(s, w)), t);
    }
  }

  lemma TwoActions(s: State, a: Action, b: Action, w: Watch, t: Target)
    ensures var mid := Step(s, a);
            && Run(s, [a, b]) == Step(mid, b)
            && (CalmRun(s, [a, b], t) <==> Calm(s, a, t) && Calm(mid, b, t))
            && WatchRun(s, [a, b], w)
               == ObserveRollouts(Step(mid, b),
                                  Observe(mid, b, ObserveRollouts(mid, Observe(s, a, ObserveRollouts(s, w)))))
  {
    assert [a, b][1..] == [b] && [b][1..] == [];
    var mid := Step(s, a);
    assert Run(Step(mid, b), []) == Step(mid, b) && CalmRun(Step(mid, b), [], t);
    assert Run(mid, [b]) == Step(mid, b) && (CalmRun(mid, [b], t) <==> Calm(mid, b, t));
    var w' := ObserveRollouts(mid, Observe(s, a, ObserveRollouts(s, w)));
    assert WatchRun(mid, [b], w') == ObserveRollouts(Step(mid, b), Observe(mid, b, w'));
  }

  predicate Later(w: Watch, w': Watch) {
    (w.parentDone ==> w'.parentDone) && w.childDone <= w'.childDone && w.rolled <= w'.rolled
  }

  lemma {:induction false} WatchGrows(s: State, actions: seq<Action>, w: Watch)
    ensures Later(w, WatchRun(s, actions, w))
    decreases |actions|
  {
    if actions != [] {
      WatchGrows(Step(s, actions[0]), actions[1..], Observe(s, actions[0], ObserveRollouts(s, w)));
    }
  }

  lemma {:induction false} SettledRun(s: State, actions: seq<Action>, t: Target)
    requires Settled(s, t) && CalmRun(s, actions, t)
    ensures Settled(Run(s, actions), t)
    decreases |actions|
  {
    if actions != [] {
      SettledStep(s, actions[0], t);
      SettledRun(Step(s, actions[0]), actions[1..], t);
    }
  }

  /** The child actions of a run are those of some of the services. */
  predicate ActsOn(actions: seq<Action>, services: set<Service>) {
    forall i | 0 <= i < |actions| :: IsChildAction(actions[i]) ==> actions[i].service in services
  }

  // ---------------------------------------------------------------- the parent's measure

  ghost function Pick<T>(s: set<T>): T
    requires s != {}
  {
    var x :| x in s; x
  }

  function StraysLeft(s: State): set<SecretName> {
    if !s.parent.Working? then {}
    else if s.parent.work.stage.AtPruneTransports? then StrayTransports(s.secrets, s.parent.work)
    else if s.parent.work.stage.AtPruneCredentials? then StrayCredentials(s.secrets, s.parent.work)
    else {}
  }

  function StagesLeft(s: State): nat {
    if !s.parent.Working? then 0
    else if s.parent.work.stage.AtPatch? then 1
    else 17 - Rank(s.parent.work.stage)
  }

  /** A stray secret is released if one is left; otherwise the pass moves on. */
  ghost function NextAction(s: State, t: Target): Action
    requires s.parent.Working?
  {
    if StraysLeft(s) != {} then PruneOne(Pick(StraysLeft(s)))
    else ParentStep(if s.parent.work.stage.AtConfig? then t.rest else t.other)
  }

  lemma ReadStagesProgress(s: State, w: Work, choice: nat)
    requires s.parent == Working(w) && Rank(w.stage) <= 9
    ensures StagesLeft(AdvanceWork(s, w, choice)) < StagesLeft(s)
  {
  }

  lemma WorkProgresses(s: State, w: Work, choice: nat)
    requires s.parent == Working(w) && StraysLeft(s) == {}
    ensures StagesLeft(AdvanceWork(s, w, choice)) < StagesLeft(s)
  {
    if Rank(w.stage) <= 9 {
      ReadStagesProgress(s, w, choice);
    }
  }

  /** Every step of a pass lowers the number of stages left, or at the same stage the set of
      strays: a pass ends however many secrets were stranded before it. */
  lemma PassProgresses(s: State, t: Target)
    requires s.parent.Working?
    ensures var s' := Step(s, NextAction(s, t));
            StagesLeft(s') < StagesLeft(s) || (StagesLeft(s') == StagesLeft(s) && StraysLeft(s') < StraysLeft(s))
  {
    var a := NextAction(s, t);
    if a.PruneOne? {
      assert a.name in StraysLeft(s);
      assert StraysLeft(Step(s, a)) == StraysLeft(s) - {a.name};
    } else {
      WorkProgresses(s, s.parent.work, a.choice);
    }
  }

  lemma {:induction false} PassCompletes(s: State, w: Watch, t: Target) returns (actions: seq<Action>)
    requires Settled(s, t) && s.parent.Working? && w.parentFresh
    ensures CalmRun(s, actions, t) && WatchRun(s, actions, w).parentDone && ActsOn(actions, {})
    decreases StagesLeft(s), StraysLeft(s)
  {
    hide Quiet, WorkAt, Step;
    var a := NextAction(s, t);
    var s', w' := Step(s, a), Observe(s, a, ObserveRollouts(s, w));
    PassProgresses(s, t);
    SettledStep(s, a, t);
    if w'.parentDone {
      actions := [a];
    } else {
      StaysFresh(s, a, ObserveRollouts(s, w), t);
      var rest := PassCompletes(s', w', t);
      actions := [a] + rest;
    }
  }

  lemma StaysFresh(s: State, a: Action, w: Watch, t: Target)
    requires Settled(s, t) && s.parent.Working? && w.parentFresh && a == NextAction(s, t)
    ensures var w' := Observe(s, a, w); w'.parentDone || (Step(s, a).parent.Working? && w'.parentFresh)
  {
    if a.ParentStep? && Rank(s.parent.work.stage) >= 10 {
      LateStages(s, s.parent.work, a.choice);
    } else if a.ParentStep? {
      OnlyThePatchEnds(s, s.parent.work, a.choice);
    }
  }

  lemma OnlyThePatchEnds(s: State, w: Work, choice: nat)
    requires s.parent == Working(w) && 1 <= Rank(w.stage) <= 9
    ensures AdvanceWork(s, w, choice).parent.Working?
  {
  }

  lemma ReachedRun(s: State, actions: seq<Action>, t: Target, k: nat)
    requires Settled(s, t) && CalmRun(s, actions, t) && k <= 5 && AllReached(s, t, k)
    ensures Settled(Run(s, actions), t) && AllReached(Run(s, actions), t, k)
    decreases |actions|
  {
    if actions != [] {
      SettledStep(s, actions[0], t);
      AllReachedStep(s, actions[0], t, k);
      ReachedRun(Step(s, actions[0]), actions[1..], t, k);
    }
  }

  lemma ParentRound(s: State, t: Target) returns (actions: seq<Action>)
    requires Settled(s, t)
    ensures CalmRun(s, actions, t) && WatchRun(s, actions, Unwatched).parentDone && ActsOn(actions, {})
    ensures Settled(Run(s, actions), t) && AllReached(Run(s, actions), t, 1)
  {
    var begin := [ParentCrash, ParentBegin];
    TwoActions(s, ParentCrash, ParentBegin, Unwatched, t);
    var mid, w := Run(s, begin), WatchRun(s, begin, Unwatched);
    SettledRun(s, begin, t);
    var rest := PassCompletes(mid, w, t);
    actions := begin + rest;
    Concat(s, begin, rest, Unwatched, t);
    SettledRun(s, actions, t);
    var end := Run(s, actions);
    forall c: Service ensures Reached(end, t, c, 1) {
      ClimbingRun(s, actions, Unwatched, t, c, 0);
    }
  }

  // ---------------------------------------------------------------- a child's measure

  function StepsLeft(pass: ChildPass): nat {
    match pass
    case Idle => 0
    case Joining(_) => 1
    case Observed(_) => 6
    case Hashed(_, _) => 5
    case Copied(_, _, _) => 4
    case Rendered(_, _) => 3
    case Deployed(_, _) => 2
    case Checked(_, _, _) => 1
  }

  /** Every step of a child pass that began in the settled environment brings it nearer its
      end, and only the last one ends it. */
  lemma ChildProgresses(ch: Child, s: State, c: Service, t: Target)
    requires Quiet(s, t) && s.config == Some(Rendering(t)) && ch == s.children[c]
    requires PassAt(ch, t, 1) && !ch.pass.Idle?
    ensures var ch' := AdvanceChild(ch, s.config, s.secrets, ChildChoice(ch.pass, t));
            && StepsLeft(ch'.pass) == StepsLeft(ch.pass) - 1
            && (ch'.pass.Idle? <==> ch.pass.Joining? || ch.pass.Checked?)
  {
    assert Transport(t.names.transport) in s.secrets;
  }

  lemma {:induction false} ChildCompletes(s: State, w: Watch, t: Target, c: Service) returns (actions: seq<Action>)
    requires Settled(s, t) && Reached(s, t, c, 1) && PassAt(s.children[c], t, 1)
    requires !s.children[c].pass.Idle? && c in w.childFresh
    ensures CalmRun(s, actions, t) && c in WatchRun(s, actions, w).childDone && ActsOn(actions, {c})
    decreases StepsLeft(s.children[c].pass)
  {
    var a := ChildStep(c, ChildChoice(s.children[c].pass, t));
    var s' := Step(s, a);
    ChildProgresses(s.children[c], s, c, t);
    PassStep(s.children[c], a, s, t, 1);
    SettledStep(s, a, t);
    ReachedStep(s, a, t, c, 1);
    if s'.children[c].pass.Idle? {
      actions := [a];
    } else {
      var rest := ChildCompletes(s', Observe(s, a, ObserveRollouts(s, w)), t, c);
      actions := [a] + rest;
    }
  }

  /** A crash and a new pass of a published child. */
  lemma FreshPass(s: State, w: Watch, t: Target, c: Service)
    requires Settled(s, t) && AllReached(s, t, 1)
    ensures var begin := [ChildCrash(c), ChildBegin(c)];
            var mid := Run(s, begin);
            && CalmRun(s, begin, t) && c in WatchRun(s, begin, w).childFresh
            && Settled(mid, t) && Reached(mid, t, c, 1) && PassAt(mid.children[c], t, 1) && !mid.children[c].pass.Idle?
  {
    hide PassAt, Quiet, WorkAt;
    var begin := [ChildCrash(c), ChildBegin(c)];
    assert Reached(s, t, c, 1);
    TwoActions(s, ChildCrash(c), ChildBegin(c), w, t);
    assert Run(s, begin).children[c] == BeginChild(s.children[c].(pass := Idle));
    ReachedRun(s, begin, t, 1);
    assert Reached(Run(s, begin), t, c, 1);
    BeginsOnRung(s.children[c].(pass := Idle), t);
  }

  lemma BeginsOnRung(ch: Child, t: Target)
    requires OnRung(ch, t, 1) && ch.pass.Idle?
    ensures PassAt(BeginChild(ch), t, 1) && !BeginChild(ch).pass.Idle?
  {
  }

  lemma ChildRound(s: State, w: Watch, t: Target, c: Service) returns (actions: seq<Action>)
    requires Settled(s, t) && AllReached(s, t, 1)
    ensures CalmRun(s, actions, t) && c in WatchRun(s, actions, w).childDone && ActsOn(actions, {c})
  {
    var begin := [ChildCrash(c), ChildBegin(c)];
    FreshPass(s, w, t, c);
    var rest := ChildCompletes(Run(s, begin), WatchRun(s, begin, w), t, c);
    actions := begin + rest;
    Concat(s, begin, rest, w, t);
  }

  // ---------------------------------------------------------------- rollouts

  lemma {:induction false} RolloutRound(s: State, w: Watch, t: Target, c: Service, stale: set<Pod>)
    returns (actions: seq<Action>)
    requires stale == set p | p in s.children[c].pods && Some(p.hash) != s.children[c].template
    ensures CalmRun(s, actions, t) && c in WatchRun(s, actions, w).rolled && ActsOn(actions, {c})
    decreases stale
  {
    if stale == {} {
      actions := [];
      assert forall p | p in s.children[c].pods :: p !in stale;
    } else {
      var p := Pick(stale);
      var s' := Step(s, StopPod(c, p));
      var rest := RolloutRound(s', Observe(s, StopPod(c, p), ObserveRollouts(s, w)), t, c, stale - {p});
      actions := [StopPod(c, p)] + rest;
    }
  }

  // ---------------------------------------------------------------- a whole round

  lemma ServiceRound(s: State, w: Watch, t: Target, c: Service) returns (actions: seq<Action>)
    requires Settled(s, t) && AllReached(s, t, 1)
    ensures CalmRun(s, actions, t) && Settled(Run(s, actions), t) && AllReached(Run(s, actions), t, 1)
    ensures var w' := WatchRun(s, actions, w); Later(w, w') && c in w'.childDone && c in w'.rolled
    ensures ActsOn(actions, {c})
  {
    var pass := ChildRound(s, w, t, c);
    var mid, w' := Run(s, pass), WatchRun(s, pass, w);
    var stale := set p | p in mid.children[c].pods && Some(p.hash) != mid.children[c].template;
    var rollout := RolloutRound(mid, w', t, c, stale);
    actions := pass + rollout;
    Concat(s, pass, rollout, w, t);
    ReachedRun(s, actions, t, 1);
    WatchGrows(s, pass, w);
    WatchGrows(mid, rollout, w');
  }

  /** From every settled state, with passes in flight or not, there is a fair round. */
  lemma FairRoundExists(s: State, t: Target) returns (actions: seq<Action>)
    requires Settled(s, t)
    ensures CalmRun(s, actions, t) && Fair(s, actions) && Settled(Run(s, actions), t)
  {
    actions := ParentRound(s, t);
    var engine := ServiceRound(Run(s, actions), WatchRun(s, actions, Unwatched), t, Engine);
    Concat(s, actions, engine, Unwatched, t);
    actions := actions + engine;
    var api := ServiceRound(Run(s, actions), WatchRun(s, actions, Unwatched), t, Api);
    Concat(s, actions, api, Unwatched, t);
    actions := actions + api;
    var cfn := ServiceRound(Run(s, actions), WatchRun(s, actions, Unwatched), t, CfnApi);
    Concat(s, actions, cfn, Unwatched, t);
    actions := actions + cfn;
    AllThree(WatchRun(s, actions, Unwatched).childDone);
    AllThree(WatchRun(s, actions, Unwatched).rolled);
  }

  lemma AllThree(done: set<Service>)
    ensures done == AllServices <==> Engine in done && Api in done && CfnApi in done
  {
    forall c | c in done ensures c in AllServices {
      assert c.Engine? || c.Api? || c.CfnApi?;
    }
  }

  lemma {:induction false} FairRoundsExist(s: State, t: Target, n: nat) returns (rounds: seq<seq<Action>>)
    requires Settled(s, t)
    ensures |rounds| == n && FairRounds(s, rounds, t)
    decreases n
  {
    if n == 0 {
      rounds := [];
    } else {
      var first := FairRoundExists(s, t);
      var rest := FairRoundsExist(Run(s, first), t, n - 1);
      rounds := [first] + rest;
    }
  }

  /** No run can strand the system: from any state any run has led to, once the environment
      has settled, there is a way to the converged state, and every fair schedule is one. The
      worst that it takes is a crash of the pass in flight. */
  lemma ConvergenceIsPossible(s0: State, actions: seq<Action>, t: Target)
    returns (start: seq<Action>, rounds: seq<seq<Action>>)
    requires Initial(s0) && Quiet(Run(s0, actions), t)
    ensures start == [] || start == [ParentCrash]
    ensures var s := Run(Run(s0, actions), start);
            FairRounds(s, rounds, t) && Converged(RunRounds(s, rounds), t)
  {
    start := if Run(s0, actions).parent.Resting? then [] else [ParentCrash];
    RunConcat(s0, actions, start);
    var s := Run(s0, actions + start);
    rounds := FairRoundsExist(s, t, 6);
    SixRoundsConverge(s0, actions + start, rounds, t);
  }
}
