/** A child controller's pass as the code runs it, proved to be a run of that child's actions. */
module ChildReconciler {
  import opened Names
  import opened Cluster
  import opened Confirmation
  import opened Reconcilers

  /** What the pass finds outside the protocol: its other hashed inputs, and whether the
      Deployment and the remaining conditions allow Ready. */
  datatype Surroundings = Surroundings(extra: nat, deploymentReady: bool, conditionsTrue: bool)

  function Flag(b: bool): nat {
    if b then 1 else 0
  }

  /** Exactly one pass of the child: it begins, then takes the child's own steps only, and is not
      cut short but where the script says so. */
  predicate OneChildPass(actions: seq<Action>, c: Service, script: nat -> Verdict) {
    && actions != [] && actions[0] == ChildBegin(c)
    && forall i {:trigger ChildScripted(actions[i], c, script(i))} | 1 <= i < |actions| ::
         ChildScripted(actions[i], c, script(i))
  }

  predicate ChildScripted(a: Action, c: Service, v: Verdict) {
    (a.ChildStep? && a.service == c) || ((a == ChildStop(c) || a == ChildCrash(c)) && v != Proceed)
  }

  /** The store with the pass of one child in place. */
  function InPass(s: State, c: Service, pass: ChildPass): State {
    s.(children := s.children[c := s.children[c].(pass := pass)])
  }

  lemma StepInPass(s: State, c: Service, pass: ChildPass, ch: Child, next: ChildPass, a: Action)
    requires IsChildAction(a) && a.service == c
    requires ch.(pass := next) == StepChild(s.children[c].(pass := pass), a, s.config, s.secrets)
    ensures Step(InPass(s, c, pass), a) == InPass(s.(children := s.children[c := ch]), c, next)
  {
    ChildActionIsLocal(InPass(s, c, pass), a);
    assert InPass(s, c, pass).children[c := ch.(pass := next)] == s.children[c := ch][c := ch.(pass := next)];
  }

  // ---------------------------------------------------------------- what a pass leaves behind

  /** Every pod of the Deployment carries the hash, and the Deployment itself is ready. */
  predicate IsReadyForInput(ch: Child, hash: InputHash, around: Surroundings) {
    around.deploymentReady && forall p | p in ch.pods :: p.hash == hash
  }

  /** An early return: the generation is observed, and the child is not Ready. */
  function ReturnedEarly(ch: Child, generation: nat): Child {
    ch.(status := ch.status.(observed := generation, ready := false))
  }

  /** Deployed under a hash, and confirmed if every pod is there. */
  function Rolled(ch: Child, read: Seen, hash: InputHash, around: Surroundings): Child {
    var rolledOut := IsReadyForInput(ch, hash, around);
    ch.(template := Some(hash),
        status := ChildStatus(read.generation, if rolledOut then read.annotation else ch.status.applied,
                              rolledOut && around.conditionsTrue))
  }

  /** A complete pass: rendered, deployed and looked at. */
  function AfterDeploying(ch: Child, read: Seen, cf: Config, around: Surroundings): Child {
    Rolled(ch.(own := Some(cf)), read, InputHash(Some(cf), cf, read.transport, around.extra), around)
  }

  /** What an uninterrupted pass leaves of the child: adopted, returned for want of an input, or deployed. */
  function Outcome(s: State, c: Service, around: Surroundings): Child
    requires s.children[c].spec.Some?
  {
    var ch := s.children[c];
    var read := Seen(ch.generation, ch.annotation, ch.spec.value.transport);
    if !ch.finalizer then ReturnedEarly(ch, ch.generation).(finalizer := true)
    else if Transport(read.transport) !in s.secrets || s.config.None? then ReturnedEarly(ch, ch.generation)
    else AfterDeploying(ch, read, s.config.value, around)
  }

  predicate OthersKept(children: Children, children': Children, c: Service) {
    forall d: Service | d != c :: children'[d] == children[d]
  }

  class ServicePass {
    const store: Store
    const service: Service
    const script: nat -> Verdict
    const around: Surroundings
    // the instance as it was read
    const generation: nat
    const annotation: InputSecretHash
    const transport: string
    var steps: nat
    ghost var pass: ChildPass
    ghost const start: State
    ghost var trace: seq<Action>
    ghost var path: seq<State>

    ghost function View(): State
      reads this, store
    {
      InPass(store.With(Resting), service, pass)
    }

    ghost predicate Valid()
      reads this, store
    {
      && IsPath(path, trace) && path[0] == start && path[|trace|] == View()
      && OneChildPass(trace, service, script) && |trace| == steps
      && store.children[service].pass.Idle?
    }

    ghost function Read(): Seen
      reads this
    {
      Seen(generation, annotation, transport)
    }

    constructor (s: Store, c: Service, script: nat -> Verdict, around: Surroundings)
      requires s.children[c].pass.Idle? && s.children[c].spec.Some?
      ensures Valid() && store == s && service == c && start == s.With(Resting)
      ensures this.script == script && this.around == around
      ensures pass == BeginChild(s.children[c]).pass
      ensures Read() == Seen(s.children[c].generation, s.children[c].annotation, s.children[c].spec.value.transport)
    {
      store, service, this.script, this.around, steps := s, c, script, around, 1;
      generation, annotation := s.children[c].generation, s.children[c].annotation;
      transport := s.children[c].spec.value.transport;
      start, trace := s.With(Resting), [ChildBegin(c)];
      pass := BeginChild(s.children[c]).pass;
      path := [s.With(Resting), InPass(s.With(Resting), c, BeginChild(s.children[c]).pass)];
    }

    ghost function Mine(): Child
      reads this, store
    {
      store.children[service]
    }

    /** One write of the child's objects, or none, and where the pass is afterwards. */
    method Advance(ch: Child, ghost next: ChildPass, ghost a: Action)
      requires Valid() && IsChildAction(a) && ChildScripted(a, service, script(steps)) && ch.pass.Idle?
      requires ch.(pass := next) == StepChild(store.children[service].(pass := pass), a, store.config, store.secrets)
      modifies this`pass, this`trace, this`path, this`steps, store`children
      ensures Valid() && pass == next && trace == old(trace) + [a]
      ensures Mine() == ch && OthersKept(old(store.children), store.children, service)
    {
      ghost var before := store.With(Resting);
      StepInPass(before, service, pass, ch, next, a);
      store.children := store.children[service := ch];
      pass := next;
      assert store.With(Resting) == before.(children := before.children[service := ch]);
      Record(a);
    }

    /** The journal of the pass catches up with what it has done. */
    method Record(ghost a: Action)
      requires IsPath(path, trace) && path[0] == start && View() == Step(path[|trace|], a)
      requires OneChildPass(trace, service, script) && |trace| == steps
      requires ChildScripted(a, service, script(steps)) && store.children[service].pass.Idle?
      modifies this`trace, this`path, this`steps
      ensures Valid() && trace == old(trace) + [a]
    {
      hide Step;
      PathSnoc(path, trace, a);
      path := path + [Step(path[|trace|], a)];
      trace := trace + [a];
      steps := steps + 1;
    }

    /** An early return patches the generation it has read, and is not Ready; a crash patches nothing. */
    method Gate() returns (go: bool)
      requires Valid() && InFlight(pass) && !pass.Checked? && pass.seen == Read()
      modifies this`pass, this`trace, this`path, this`steps, store`children
      ensures Valid() && (go <==> script(old(steps)) == Proceed)
      ensures if go then pass == old(pass) && trace == old(trace) else pass.Idle?
      ensures Mine() == if script(old(steps)) == Return then ReturnedEarly(old(Mine()), generation) else old(Mine())
      ensures script(old(steps)) == Return ==>
                && Mine().status == ChildStatus(generation, old(Mine()).status.applied, false)
                && Mine() == old(Mine()).(status := Mine().status)
      ensures OthersKept(old(store.children), store.children, service)
    {
      go := script(steps) == Proceed;
      var ch := store.children[service];
      if script(steps) == Return {
        Advance(ReturnedEarly(ch, generation), Idle, ChildStop(service));
      } else if script(steps) == Crash {
        Advance(ch, Idle, ChildCrash(service));
      }
    }

    /** The transport secret has to be there, and the parent's configuration is hashed. */
    method CheckInputs() returns (ok: bool, parent: Option<Config>)
      requires Valid() && pass == Observed(Read())
      modifies this`pass, this`trace, this`path, this`steps, store`children
      ensures Valid() && parent == store.config && (ok <==> Transport(transport) in store.secrets)
      ensures pass == (if ok then Hashed(Read(), parent) else Idle) && trace == old(trace) + [ChildStep(service, 0)]
      ensures Mine() == if ok then old(Mine()) else ReturnedEarly(old(Mine()), generation)
      ensures OthersKept(old(store.children), store.children, service)
    {
      parent := store.config;
      ok := Transport(transport) in store.secrets;
      var ch := store.children[service];
      if ok {
        Advance(ch, Hashed(Read(), parent), ChildStep(service, 0));
      } else {
        Advance(ReturnedEarly(ch, generation), Idle, ChildStep(service, 0));
      }
    }

    /** The parent's configuration is read a second time, for its content. */
    method ReadParentConfig(ghost parent: Option<Config>) returns (copy: Option<Config>)
      requires Valid() && pass == Hashed(Read(), parent)
      modifies this`pass, this`trace, this`path, this`steps, store`children
      ensures Valid() && copy == store.config && trace == old(trace) + [ChildStep(service, 0)]
      ensures pass == if copy.Some? then Copied(Read(), parent, copy.value) else Idle
      ensures Mine() == if copy.Some? then old(Mine()) else ReturnedEarly(old(Mine()), generation)
      ensures OthersKept(old(store.children), store.children, service)
    {
      copy := store.config;
      var ch := store.children[service];
      if copy.Some? {
        Advance(ch, Copied(Read(), parent, copy.value), ChildStep(service, 0));
      } else {
        Advance(ReturnedEarly(ch, generation), Idle, ChildStep(service, 0));
      }
    }

    method GenerateServiceSecrets(parent: Option<Config>, copy: Config) returns (hash: InputHash)
      requires Valid() && pass == Copied(Read(), parent, copy)
      modifies this`pass, this`trace, this`path, this`steps, store`children
      ensures Valid() && hash == InputHash(parent, copy, transport, around.extra)
      ensures pass == Rendered(Read(), hash) && trace == old(trace) + [ChildStep(service, around.extra)]
      ensures Mine() == old(Mine()).(own := Some(copy)) && OthersKept(old(store.children), store.children, service)
    {
      hash := InputHash(parent, copy, transport, around.extra);
      Advance(store.children[service].(own := Some(copy)), Rendered(Read(), hash), ChildStep(service, around.extra));
    }

    method CreateOrPatchDeployment(hash: InputHash)
      requires Valid() && pass == Rendered(Read(), hash)
      modifies this`pass, this`trace, this`path, this`steps, store`children
      ensures Valid() && pass == Deployed(Read(), hash) && trace == old(trace) + [ChildStep(service, 0)]
      ensures Mine() == old(Mine()).(template := Some(hash)) && OthersKept(old(store.children), store.children, service)
    {
      Advance(store.children[service].(template := Some(hash)), Deployed(Read(), hash), ChildStep(service, 0));
    }

    /** `IsReady` and `IsReadyForInput`. */
    method LookAtPods(hash: InputHash) returns (rolledOut: bool)
      requires Valid() && pass == Deployed(Read(), hash)
      modifies this`pass, this`trace, this`path, this`steps, store`children
      ensures Valid() && pass == Checked(Read(), hash, rolledOut)
      ensures Mine() == old(Mine()) && OthersKept(old(store.children), store.children, service)
      ensures rolledOut <==> around.deploymentReady && forall p | p in store.children[service].pods :: p.hash == hash
      ensures trace == old(trace) + [ChildStep(service, Flag(around.deploymentReady))]
    {
      var ch := store.children[service];
      rolledOut := around.deploymentReady && forall p | p in ch.pods :: p.hash == hash;
      Advance(ch, Checked(Read(), hash, rolledOut), ChildStep(service, Flag(around.deploymentReady)));
    }

    /** The status patch: the annotation that was read at the start is confirmed, if rolled out. */
    method PatchInstance(ghost hash: InputHash, rolledOut: bool)
      requires Valid() && pass == Checked(Read(), hash, rolledOut)
      modifies this`pass, this`trace, this`path, this`steps, store`children
      ensures Valid() && pass.Idle? && trace == old(trace) + [ChildStep(service, Flag(around.conditionsTrue))]
      ensures var applied := if rolledOut then annotation else old(Mine()).status.applied;
              Mine() == old(Mine()).(status := ChildStatus(generation, applied, rolledOut && around.conditionsTrue))
      ensures OthersKept(old(store.children), store.children, service)
    {
      var ch := store.children[service];
      var applied := if rolledOut then annotation else ch.status.applied;
      Advance(ch.(status := ChildStatus(generation, applied, rolledOut && around.conditionsTrue)), Idle,
              ChildStep(service, Flag(around.conditionsTrue)));
    }

    /** The child's own finalizer is persisted in a pass of its own. */
    method Join()
      requires Valid() && pass == Joining(generation)
      modifies this`pass, this`trace, this`path, this`steps, store`children
      ensures Valid() && pass.Idle?
      ensures Mine() == if script(old(steps)) == Proceed then ReturnedEarly(old(Mine()), generation).(finalizer := true)
                        else old(Mine())
      ensures script(old(steps)) == Proceed ==>
                && Mine().finalizer && Mine().status == ChildStatus(generation, old(Mine()).status.applied, false)
                && Mine() == old(Mine()).(finalizer := true, status := Mine().status)
      ensures OthersKept(old(store.children), store.children, service)
    {
      var ch := store.children[service];
      if script(steps) == Proceed {
        Advance(ReturnedEarly(ch, generation).(finalizer := true), Idle, ChildStep(service, 0));
      } else {
        Advance(ch, Idle, ChildCrash(service));
      }
    }

    /** Inputs are checked and the child's own configuration is written, or the pass is at its end. */
    method Render() returns (hash: Option<InputHash>)
      requires Valid() && pass == Observed(Read())
      modifies this`pass, this`trace, this`path, this`steps, store`children
      ensures Valid() && pass == if hash.Some? then Rendered(Read(), hash.value) else Idle
      ensures Uninterrupted(script) ==> (hash.Some? <==> Transport(transport) in store.secrets && store.config.Some?)
      ensures OthersKept(old(store.children), store.children, service)
      ensures Uninterrupted(script) && hash.None? ==> Mine() == ReturnedEarly(old(Mine()), generation)
      ensures hash.Some? && Uninterrupted(script) ==>
                && hash.value == InputHash(store.config, store.config.value, transport, around.extra)
                && Mine() == old(Mine()).(own := store.config)
    {
      hide Valid;
      hash := None;
      var ok, parent := Check();
      if ok {
        hash := CopyAndWrite(parent);
      }
    }

    method Check() returns (ok: bool, parent: Option<Config>)
      requires Valid() && pass == Observed(Read())
      modifies this`pass, this`trace, this`path, this`steps, store`children
      ensures Valid() && pass == if ok then Hashed(Read(), parent) else Idle
      ensures OthersKept(old(store.children), store.children, service)
      ensures ok ==> parent == store.config && Mine() == old(Mine())
      ensures Uninterrupted(script) ==>
                && (ok <==> Transport(transport) in store.secrets)
                && (!ok ==> Mine() == ReturnedEarly(old(Mine()), generation))
    {
      hide Valid;
      parent := None;
      ok := Gate();
      if ok {
        ok, parent := CheckInputs();
      }
    }

    method Copy(ghost parent: Option<Config>) returns (copy: Option<Config>)
      requires Valid() && pass == Hashed(Read(), parent)
      modifies this`pass, this`trace, this`path, this`steps, store`children
      ensures Valid() && pass == if copy.Some? then Copied(Read(), parent, copy.value) else Idle
      ensures OthersKept(old(store.children), store.children, service)
      ensures copy.Some? ==> copy == store.config && Mine() == old(Mine())
      ensures Uninterrupted(script) ==>
                copy == store.config && (copy.None? ==> Mine() == ReturnedEarly(old(Mine()), generation))
    {
      hide Valid;
      copy := None;
      var ok := Gate();
      if ok {
        copy := ReadParentConfig(parent);
      }
    }

    method CopyAndWrite(parent: Option<Config>) returns (hash: Option<InputHash>)
      requires Valid() && pass == Hashed(Read(), parent)
      modifies this`pass, this`trace, this`path, this`steps, store`children
      ensures Valid() && pass == if hash.Some? then Rendered(Read(), hash.value) else Idle
      ensures Uninterrupted(script) ==> (hash.Some? <==> store.config.Some?)
      ensures OthersKept(old(store.children), store.children, service)
      ensures Uninterrupted(script) && hash.None? ==> Mine() == ReturnedEarly(old(Mine()), generation)
      ensures hash.Some? ==>
                && store.config.Some? && hash.value == InputHash(parent, store.config.value, transport, around.extra)
                && Mine() == old(Mine()).(own := store.config)
    {
      hide Valid;
      hash := None;
      var copy := Copy(parent);
      if copy.Some? {
        hash := WriteCopy(parent, copy.value);
      }
    }

    method WriteCopy(parent: Option<Config>, copy: Config) returns (hash: Option<InputHash>)
      requires Valid() && pass == Copied(Read(), parent, copy)
      modifies this`pass, this`trace, this`path, this`steps, store`children
      ensures Valid() && pass == if hash.Some? then Rendered(Read(), hash.value) else Idle
      ensures OthersKept(old(store.children), store.children, service)
      ensures hash.Some? ==>
                hash.value == InputHash(parent, copy, transport, around.extra)
                    && Mine() == old(Mine()).(own := Some(copy))
      ensures Uninterrupted(script) ==> hash.Some?
    {
      hide Valid;
      hash := None;
      var ok := Gate();
      if ok {
        var h := GenerateServiceSecrets(parent, copy);
        hash := Some(h);
      }
    }

    /** The Deployment, a look at its pods, and the patch. */
    method Roll(hash: InputHash)
      requires Valid() && pass == Rendered(Read(), hash)
      modifies this`pass, this`trace, this`path, this`steps, store`children
      ensures Valid() && pass.Idle?
      ensures OthersKept(old(store.children), store.children, service)
      ensures Uninterrupted(script) ==> Mine() == Rolled(old(Mine()), Read(), hash, around)
    {
      hide Valid;
      var ok := Deploy(hash);
      if ok {
        Confirm(hash);
      }
    }

    method Deploy(hash: InputHash) returns (ok: bool)
      requires Valid() && pass == Rendered(Read(), hash)
      modifies this`pass, this`trace, this`path, this`steps, store`children
      ensures Valid() && pass == if ok then Deployed(Read(), hash) else Idle
      ensures OthersKept(old(store.children), store.children, service)
      ensures (ok ==> Mine() == old(Mine()).(template := Some(hash))) && (Uninterrupted(script) ==> ok)
    {
      hide Valid;
      ok := Gate();
      if ok {
        CreateOrPatchDeployment(hash);
      }
    }

    method Confirm(hash: InputHash)
      requires Valid() && pass == Deployed(Read(), hash) && Mine().template == Some(hash)
      modifies this`pass, this`trace, this`path, this`steps, store`children
      ensures Valid() && pass.Idle?
      ensures OthersKept(old(store.children), store.children, service)
      ensures Uninterrupted(script) ==> Mine() == Rolled(old(Mine()), Read(), hash, around)
    {
      hide Valid;
      var ok := Gate();
      if ok {
        var rolledOut := LookAtPods(hash);
        PatchInstance(hash, rolledOut);
      }
    }

    /** The pass adopts the child, or goes on to `reconcileNormal`. */
    method Run()
      requires Valid() && pass == BeginChild(Mine()).pass && Mine().spec.Some?
      requires Read() == Seen(Mine().generation, Mine().annotation, Mine().spec.value.transport)
      modifies this`pass, this`trace, this`path, this`steps, store`children
      ensures Valid() && pass.Idle? && OthersKept(old(store.children), store.children, service)
      ensures Uninterrupted(script) ==> Mine() == Outcome(old(store.With(Resting)), service, around)
    {
      if store.children[service].finalizer {
        ReconcileNormal();
      } else {
        Join();
      }
    }

    /** `reconcileNormal`: the pass ends, and uninterrupted it leaves what `Outcome` says. */
    method ReconcileNormal()
      requires Valid() && pass == Observed(Read())
      modifies this`pass, this`trace, this`path, this`steps, store`children
      ensures Valid() && pass.Idle?
      ensures OthersKept(old(store.children), store.children, service)
      ensures Uninterrupted(script) ==>
                Mine() == if Transport(transport) !in store.secrets || store.config.None?
                          then ReturnedEarly(old(Mine()), generation)
                          else AfterDeploying(old(Mine()), Read(), store.config.value, around)
    {
      hide Valid;
      var hash := Render();
      if hash.Some? {
        Roll(hash.value);
      }
    }
  }

  /** A child's `Reconcile`: the whole call is exactly one pass of that child, over at its end, and
      uninterrupted it leaves the child as `Outcome` says. */
  method ReconcileChild(store: Store, c: Service, script: nat -> Verdict, around: Surroundings)
    returns (ghost trace: seq<Action>)
    requires store.children[c].pass.Idle? && store.children[c].spec.Some?
    modifies store`children
    ensures OneChildPass(trace, c, script) && store.With(Resting) == Run(old(store.With(Resting)), trace)
    ensures store.children[c].pass.Idle?
    ensures Uninterrupted(script) ==>
              store.children == old(store.children)[c := Outcome(old(store.With(Resting)), c, around)]
  {
    var pass := new ServicePass(store, c, script, around);
    pass.Run();
    trace := pass.trace;
    PathIsRun(pass.path, trace);
    NoPassLeft(store.With(Resting), c);
    OneChildChanged(old(store.children), store.children, c);
  }

  lemma OneChildChanged(children: Children, children': Children, c: Service)
    requires OthersKept(children, children', c)
    ensures children' == children[c := children'[c]]
  {
  }

  lemma NoPassLeft(s: State, c: Service)
    requires s.children[c].pass.Idle?
    ensures InPass(s, c, Idle) == s
  {
    assert s.children[c := s.children[c].(pass := Idle)] == s.children;
  }
}
