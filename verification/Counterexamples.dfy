/** Runs of the code that show what fails without the hypotheses.

    First, a tuple that comes back while a child can still be counted falsely: from every state
    of an adopted Heat there is a run after which protection fails. Second, a child that copies
    the configuration before its credential is protected: a pod of a live Heat runs with a
    credential that carries no finalizer, in a careful run. Third, a notifications bus turned off
    before it got a secret: its TransportURL stays.
 */
module Counterexamples {
  import opened Names
  import opened Cluster
  import opened Confirmation
  import opened Protection
  import opened Cleanup
  import opened Rotation
  import opened Guarantees
  import opened CredentialGap
  import opened Schedule
  import opened Exactness
  import opened Tightness
  import opened Exposure

  // ---------------------------------------------------------------- a tuple that returns

  function Only(transport: string): Names {
    Names(transport, None, None)
  }

  function Wanting(transport: string): Target {
    Target(Only(transport), 0, 0, 0)
  }

  /** The environment creates a secret and asks for its name. */
  lemma AskFor(s: State, x: string) returns (actions: seq<Action>)
    requires s.heat.Some? && s.heat.value.finalizer && !s.heat.value.deleting && s.transportUrl.Url?
    ensures var end := Run(s, actions);
            Poised(end, Wanting(x)) && end.children == s.children && s.secrets.Keys <= end.secrets.Keys
  {
    var create := CreateSecret(Transport(x));
    var ask := AskAgain(Step(s, create), Only(x));
    actions := [create] + ask;
    assert actions[0] == create && actions[1..] == ask;
  }

  /** The engine's pass in flight has read that x is wanted, and nothing else yet. */
  predicate HasReadAnnotation(ch: Child, x: string) {
    && ChildInv(ch) && SpecOf(ch, Only(x))
    && ch.pass == Observed(Seen(ch.generation, ExpectedHash(Only(x)), x))
  }

  lemma ReadAnnotation(s: State, x: string) returns (actions: seq<Action>)
    requires Unmarked(s) && s.heat.value.finalizer && s.transportUrl.Url? && ChildInv(s.children[Engine])
    ensures var end := Run(s, actions); Poised(end, Wanting(x)) && HasReadAnnotation(end.children[Engine], x)
  {
    var ask := AskFor(s, x);
    var mid := Run(s, ask);
    var restart := Restarted(mid.children[Engine], Only(x), mid.secrets);
    var bring := BringAll(mid, Only(x), Engine, restart);
    RunConcat(s, ask, bring);
    actions := ask + bring;
  }

  /** The same pass has then copied a configuration that names y. */
  predicate HasCopied(ch: Child, x: string, y: string) {
    && ChildInv(ch) && SpecOf(ch, Only(x))
    && ch.pass.Copied? && ch.pass.seen == Seen(ch.generation, ExpectedHash(Only(x)), x)
    && ch.pass.copy.names == Only(y)
  }

  lemma CopyAnother(s: State, x: string, y: string) returns (actions: seq<Action>)
    requires Poised(s, Wanting(x)) && HasReadAnnotation(s.children[Engine], x)
    ensures var end := Run(s, actions);
            Poised(end, Wanting(y)) && HasCopied(end.children[Engine], x, y) && Transport(x) in end.secrets
  {
    assert Transport(x) in CurrentSecrets(Wanting(x), TransportConsumer);
    var ask := AskFor(s, y);
    var mid := Run(s, ask);
    var bring := BringAll(mid, Only(y), Engine, [Moves, Moves]);
    TwoMoves(mid.children[Engine], x, y, mid.secrets);
    RunConcat(s, ask, bring);
    actions := ask + bring;
  }

  lemma TwoMoves(ch: Child, x: string, y: string, secrets: SecretStore)
    requires HasReadAnnotation(ch, x) && Transport(x) in secrets
    ensures HasCopied(Continue(ch, Only(y), secrets, [Moves, Moves]), x, y)
  {
    var cf := Config(Only(y), 0);
    var ch1 := After(ch, Only(y), secrets, Moves);
    ChildInvStep(ch, Moves.action, Some(cf), secrets);
    ChildInvStep(ch1, Moves.action, Some(cf), secrets);
    assert [Moves, Moves][1..] == [Moves];
    assert Continue(ch1, Only(y), secrets, [Moves]) == After(ch1, Only(y), secrets, Moves);
  }

  /** Without a hypothesis on rotation protection can be lost from every state: the tuple goes to
      x, to y and back to x, and a secret in use loses its finalizer. */
  lemma ReturningTupleCosts(s: State, x: string, y: string) returns (actions: seq<Action>)
    requires RotationInv(s) && OwnershipInv(s) && ChildInv(s.children[Engine])
    requires Unmarked(s) && s.heat.value.finalizer && s.transportUrl.Url? && x != y
    ensures Unmarked(Run(s, actions)) && !Protected(Run(s, actions))
  {
    var read := ReadAnnotation(s, x);
    var copy := CopyAnother(Run(s, read), x, y);
    RunConcat(s, read, copy);
    var mid := Run(s, read + copy);
    RotationInvRun(s, read + copy);
    assert !NamesWithin(Only(y), Only(x));
    var cost := UnsafeCountCosts(mid, Only(x), Engine);
    RunConcat(s, read + copy, cost);
    actions := read + copy + cost;
  }

  // ---------------------------------------------------------------- building runs

  ghost predicate Reaches(s: State, s': State) {
    exists actions :: Run(s, actions) == s' && Careful(s, actions)
  }

  lemma {:induction false} CarefulConcat(s: State, a: seq<Action>, b: seq<Action>)
    ensures Careful(s, a + b) <==> Careful(s, a) && Careful(Run(s, a), b)
    decreases |a|
  {
    if a == [] {
      assert a + b == b;
    } else {
      assert (a + b)[0] == a[0] && (a + b)[1..] == a[1..] + b;
      CarefulConcat(Step(s, a[0]), a[1..], b);
    }
  }

  lemma Then(s: State, mid: State, a: Action)
    requires Reaches(s, mid) && CarefulAction(mid, a)
    ensures Reaches(s, Step(mid, a))
  {
    var before :| Run(s, before) == mid && Careful(s, before);
    RunConcat(s, before, [a]);
    CarefulConcat(s, before, [a]);
    assert Run(mid, [a]) == Step(mid, a) && Careful(mid, [a]);
  }

  lemma ThenWork(s: State, mid: State, w: Work, s': State)
    requires Reaches(s, mid) && mid.parent == Working(w) && CarefulAction(mid, ParentStep(0))
    requires s' == AdvanceWork(mid, w, 0)
    ensures Reaches(s, s')
  {
    Then(s, mid, ParentStep(0));
    StepIsWork(mid, 0);
  }

  // ---------------------------------------------------------------- the common start

  const Untracked: Tracked := Tracked(None, None, None)

  function Created(): State {
    State(map[Transport("a") := {}, Credential("x") := {}],
          Some(Heat(false, false, None, false, Untracked, false)), NoUrl, NoUrl, None, NewChildren(), Resting)
  }

  function NewChildren(): (m: Children)
    ensures forall c: Service :: m[c] == NewChild()
  {
    var m := map[Engine := NewChild(), Api := NewChild(), CfnApi := NewChild()];
    assert forall c: Service :: c in m by {
      forall c: Service ensures c in m {
        assert c.Engine? || c.Api? || c.CfnApi?;
      }
    }
    m
  }

  /** Adopted, with a TransportURL whose secret is a. */
  function Adopted(): State {
    Created().(heat := Some(Heat(true, false, None, false, Untracked, false)), transportUrl := Url(Some("a")))
  }

  lemma NewHeat()
    ensures Initial(Created()) && Reaches(Created(), Created())
  {
    assert Run(Created(), []) == Created() && Careful(Created(), []);
  }

  lemma AdoptionPass()
    ensures Initial(Created()) && Reaches(Created(), Adopted())
  {
    hide Reaches, Careful, Run;
    var s0 := Created();
    NewHeat();
    Then(s0, s0, ParentBegin);
    Then(s0, s0.(parent := Adopting), ParentStep(0));
    FirstUrlPass(s0.(heat := Some(Heat(true, false, None, false, Untracked, false))));
  }

  /** The first pass creates the TransportURL and stops; then its secret appears. */
  lemma FirstUrlPass(s: State)
    requires Reaches(Created(), s) && s.parent.Resting? && s.transportUrl.NoUrl?
    requires s.heat == Some(Heat(true, false, None, false, Untracked, false))
    ensures Reaches(Created(), s.(transportUrl := Url(Some("a"))))
  {
    hide Reaches, Careful, Run;
    var w := Work(AtTransport, None, false, Untracked, "", None, {}, false);
    Then(Created(), s, ParentBegin);
    var s1 := s.(transportUrl := Url(None), parent := Working(Stopped(w)));
    ThenWork(Created(), s.(parent := Working(w)), w, s1);
    ThenWork(Created(), s1, Stopped(w), s.(transportUrl := Url(None)));
    Then(Created(), s.(transportUrl := Url(None)), SetTransport(Some("a")));
  }

  /** A state that careful runs reach, with everything that a pass with transport secret a reads. */
  predicate Ready(s: State) {
    && s.parent.Resting? && s.heat.Some? && s.heat.value.finalizer && !s.heat.value.deleting
    && s.heat.value.tracked == Untracked && !s.heat.value.ready
    && s.transportUrl == Url(Some("a")) && Transport("a") in s.secrets
  }

  function WorkOf(h: Heat, stage: Stage): Work {
    Work(stage, h.credential, h.bus, Untracked.(transport := Some("a")), "a", None, {}, false)
  }

  /** The pass has protected its transport secret. */
  function Protecting(s: State): State
    requires Ready(s)
  {
    s.(secrets := AddFinalizer(s.secrets, Transport("a"), TransportConsumer),
       parent := Working(WorkOf(s.heat.value, AtNotification)))
  }

  lemma ProtectPass(s: State)
    requires Reaches(Created(), s) && Ready(s)
    ensures Reaches(Created(), Protecting(s))
  {
    var h := s.heat.value;
    var w := Work(AtTransport, h.credential, h.bus, Untracked, "", None, {}, false);
    Then(Created(), s, ParentBegin);
    var s1 := s.(parent := Working(WorkOf(h, AtProtectTransport)));
    ThenWork(Created(), s.(parent := Working(w)), w, s1);
    ThenWork(Created(), s1, WorkOf(h, AtProtectTransport), Protecting(s));
  }

  // ---------------------------------------------------------------- an unprotected credential

  function NamesFor(h: Heat): Names {
    Names("a", None, h.credential)
  }

  /** Without a bus the pass goes on to render, and is about to protect the credential. */
  function Rendered(s: State): State
    requires Ready(s)
  {
    Protecting(s).(config := Some(Config(NamesFor(s.heat.value), 0)),
                   parent := Working(WorkOf(s.heat.value, AtProtectCredential)))
  }

  lemma RenderPass(s: State)
    requires Reaches(Created(), s) && Ready(s) && !s.heat.value.bus && SafeToWrite(s, NamesFor(s.heat.value))
    ensures Reaches(Created(), Rendered(s))
  {
    ProtectPass(s);
    var s1 := Protecting(s).(parent := Working(WorkOf(s.heat.value, AtConfig)));
    ThenWork(Created(), Protecting(s), WorkOf(s.heat.value, AtNotification), s1);
    ThenWork(Created(), s1, WorkOf(s.heat.value, AtConfig), Rendered(s));
  }

  function Published(s: State): State
    requires Ready(s)
  {
    Publish(Rendered(s), WorkOf(s.heat.value, AtPublish(Engine)), Engine, 0).(parent := Resting)
  }

  /** Without a credential it goes on to publish the engine's child, and crashes. */
  lemma PublishPass(s: State)
    requires Ready(s) && Reaches(Created(), Rendered(s)) && s.heat.value.credential.None?
    ensures Reaches(Created(), Published(s))
  {
    hide PublishChild, Reaches, Careful, Run;
    var w := WorkOf(s.heat.value, AtPublish(Engine));
    var s1 := Rendered(s).(parent := Working(w));
    ThenWork(Created(), Rendered(s), WorkOf(s.heat.value, AtProtectCredential), s1);
    ThenWork(Created(), s1, w, Publish(s1, w, Engine, 0));
    Then(Created(), Publish(s1, w, Engine, 0), ParentCrash);
  }

  /** The engine's child has been published, and a credential has been set. */
  function CredentialSet(): State {
    Published(Adopted()).(heat := Some(Heat(true, false, Some("x"), false, Untracked, false)))
  }

  lemma CredentialPass()
    ensures Reaches(Created(), CredentialSet())
  {
    hide PublishChild, Reaches, Careful, Run;
    AdoptionPass();
    UndeployedIsSafe(Adopted(), NamesFor(Adopted().heat.value));
    RenderPass(Adopted());
    PublishPass(Adopted());
    Then(Created(), Published(Adopted()), SetCredential(Some("x")));
  }

  lemma {:induction false} ChildActionsAreCareful(s: State, actions: seq<Action>)
    requires ChildActions(actions)
    ensures Careful(s, actions) && Run(s, actions).heat == s.heat
    decreases |actions|
  {
    if actions != [] {
      ChildActionIsLocal(s, actions[0]);
      ChildActionsAreCareful(Step(s, actions[0]), actions[1..]);
    }
  }

  lemma UndeployedIsSafe(s: State, k: Names)
    requires forall c: Service :: s.children[c] == NewChild().(spec := s.children[c].spec,
                                    generation := s.children[c].generation, annotation := s.children[c].annotation)
    ensures SafeToWrite(s, k)
  {
    assert forall c: Service :: CannotMisreport(s.children[c], k);
  }

  /** A careful run that ends with a pod of a live Heat running with a credential secret that
      nothing protects. */
  lemma CredentialOfARunningPodIsUnprotected() returns (actions: seq<Action>, p: Pod)
    ensures Initial(Created()) && Careful(Created(), actions)
    ensures var end := Run(Created(), actions);
            && Live(end) && p in end.children[Engine].pods
            && !CredentialHeld(end.secrets, p.config.names.credential)
  {
    AdoptionPass();
    CredentialPass();
    UndeployedIsSafe(CredentialSet(), NamesFor(CredentialSet().heat.value));
    RenderPass(CredentialSet());
    var s := Rendered(CredentialSet());
    var before :| Run(Created(), before) == s && Careful(Created(), before);
    var gap := OpenGapExposesAPod(s, Engine);
    ChildActionsAreCareful(s, gap);
    CarefulConcat(Created(), before, gap);
    RunConcat(Created(), before, gap);
    actions := before + gap;
    var end := Run(s, gap);
    p :| p in end.children[Engine].pods && !CredentialHeld(end.secrets, p.config.names.credential);
  }

  // ---------------------------------------------------------------- a concrete run

  /** The same from the beginning: a run of a new Heat that is not careful and ends unprotected. */
  lemma ReturningTupleBreaksProtection() returns (actions: seq<Action>)
    ensures Initial(Created()) && !Careful(Created(), actions)
    ensures Live(Run(Created(), actions)) && !Protected(Run(Created(), actions))
  {
    AdoptionPass();
    var before :| Run(Created(), before) == Adopted() && Careful(Created(), before);
    RotationInvReachable(Created(), before);
    var cost := ReturningTupleCosts(Adopted(), "a", "b");
    RunConcat(Created(), before, cost);
    actions := before + cost;
    if Careful(Created(), actions) {
      SecretsInUseAreProtected(Created(), actions);
    }
  }

  // ---------------------------------------------------------------- a TransportURL left behind

  /** The bus has been turned on. */
  function BusOn(): State {
    Adopted().(heat := Some(Heat(true, false, None, true, Untracked, false)))
  }

  /** Its TransportURL has been created, and the bus turned off before a secret appeared. */
  function LeftBehind(): State {
    Protecting(BusOn()).(notificationUrl := Url(None), parent := Resting,
                         heat := Some(Heat(true, false, None, false, Untracked.(transport := Some("a")), false)))
  }

  lemma LeavingPass()
    ensures Reaches(Created(), LeftBehind())
  {
    hide Reaches, Careful, Run;
    AdoptionPass();
    Then(Created(), Adopted(), SetBus(true));
    ProtectPass(BusOn());
    var s, w := Protecting(BusOn()), WorkOf(BusOn().heat.value, AtNotification);
    var s1 := s.(notificationUrl := Url(None), parent := Working(Stopped(w)));
    ThenWork(Created(), s, w, s1);
    var s2 := LeftBehind().(heat := Some(LeftBehind().heat.value.(bus := true)));
    ThenWork(Created(), s1, Stopped(w), s2);
    Then(Created(), s2, SetBus(false));
  }

  /** A TransportURL that no pass will ever delete while the bus stays off: nothing tracks it. */
  lemma UntrackedBusIsLeftBehind() returns (actions: seq<Action>)
    ensures Initial(Created()) && Careful(Created(), actions)
    ensures var end := Run(Created(), actions);
            && end.parent.Resting? && end.heat.Some? && end.heat.value.finalizer && !end.heat.value.deleting
            && !end.heat.value.bus && end.notificationUrl.Url? && end.heat.value.tracked.notification.None?
  {
    AdoptionPass();
    LeavingPass();
    actions :| Run(Created(), actions) == LeftBehind() && Careful(Created(), actions);
  }
}
