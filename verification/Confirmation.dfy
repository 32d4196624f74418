/** Confirmation soundness: what a child's `AppliedInputSecretHash` says about its pods.

    The annotation carries a hash of names only. A child reads the annotation when its
    pass starts and the configuration afterwards, and confirms the annotation it read at
    the start. While the rendered configuration refers to the tuple K, a child that
    confirms K's hash runs K in every pod, unless it was already misled about K when K
    was written; `CannotMisreport` is what has to hold at that moment.
 */
module Confirmation {
  import opened Names
  import opened Cluster

  /** Every pod of the child runs K, and whatever it starts or writes next is K too. */
  predicate Runs(ch: Child, k: Names) {
    && ch.own.Some? && ch.own.value.names == k
    && (ch.pass.Copied? ==> ch.pass.copy.names == k)
    && forall p | p in ch.pods :: p.config.names == k
  }

  predicate CarriesHash(pass: ChildPass) {
    pass.Rendered? || pass.Deployed? || pass.Checked?
  }

  predicate InFlight(pass: ChildPass) {
    !pass.Idle? && !pass.Joining?
  }

  /** The pass in flight will confirm K, unless it stops early. */
  predicate WillConfirm(pass: ChildPass, k: Names) {
    InFlight(pass) && pass.seen.annotation == ExpectedHash(k) && (pass.Checked? ==> pass.rolledOut)
  }

  /** The pass in flight may still arrive at the stamp h. */
  predicate LeadsTo(pass: ChildPass, h: InputHash) {
    match pass
    case Hashed(_, parent) => h.parent == parent
    case Copied(_, parent, copy) => h.parent == parent && h.own == copy
    case Rendered(_, hash) => h == hash
    case Deployed(_, hash) => h == hash
    case Checked(_, hash, _) => h == hash
    case _ => false
  }

  /** A pass that confirms K can carry the stamp h: a new one that reads K twice, or the one in flight. */
  predicate Confirmable(pass: ChildPass, k: Names, h: InputHash) {
    && h.own.names == k && h.transport == k.transport
    && ((h.parent.Some? && h.parent.value.names == k) || (WillConfirm(pass, k) && LeadsTo(pass, h)))
  }

  /** Such a stamp is on the Deployment or on a pod. */
  predicate Exposed(ch: Child, k: Names) {
    || (ch.template.Some? && Confirmable(ch.pass, k, ch.template.value))
    || exists p | p in ch.pods :: Confirmable(ch.pass, k, p.hash)
  }

  /** The child cannot confirm K's hash while running something else. */
  predicate CannotMisreport(ch: Child, k: Names) {
    // a confirmation of K already given is true
    && (ch.status.applied == ExpectedHash(k) ==> Runs(ch, k))
    // a pass that will confirm K carries K
    && (WillConfirm(ch.pass, k) ==>
          && (ch.pass.Copied? ==> ch.pass.copy.names == k)
          && (CarriesHash(ch.pass) ==> ch.pass.hash.own.names == k))
    // a stamp that could be confirmed is only on pods that run K
    && (Exposed(ch, k) ==>
          && (ch.own.Some? ==> ch.own.value.names == k)
          && (ch.pass.Copied? ==> ch.pass.copy.names == k)
          && forall p | p in ch.pods && Confirmable(ch.pass, k, p.hash) :: p.config.names == k)
  }

  /** K's content is stamped on the Deployment, on a pod, or is about to be. */
  predicate Stamped(ch: Child, k: Names) {
    || (ch.template.Some? && ch.template.value.own.names == k)
    || (CarriesHash(ch.pass) && ch.pass.hash.own.names == k)
    || exists p | p in ch.pods :: p.hash.own.names == k
  }

  /** Nothing in the child's objects, pods or pass in flight refers to K. */
  predicate Remembers(ch: Child, k: Names) {
    || ch.status.applied == ExpectedHash(k)
    || (InFlight(ch.pass) && ch.pass.seen.annotation == ExpectedHash(k))
    || Stamped(ch, k)
  }

  /** The bookkeeping of a pass in flight, true of every child at all times. */
  predicate ChildInv(ch: Child) {
    && (CarriesHash(ch.pass) ==> ch.own == Some(ch.pass.hash.own))
    && (ch.pass.Deployed? || ch.pass.Checked? ==> ch.template == Some(ch.pass.hash))
    && (ch.pass.Checked? && ch.pass.rolledOut ==> forall p | p in ch.pods :: p.hash == ch.pass.hash)
    && (ch.spec.Some? ==> HashOfTransport(ch.annotation, ch.spec.value.transport))
    && (ch.spec.None? ==> ch.annotation.Unset?)
    && (InFlight(ch.pass) ==> HashOfTransport(ch.pass.seen.annotation, ch.pass.seen.transport))
    && (CarriesHash(ch.pass) ==> ch.pass.hash.transport == ch.pass.seen.transport)
    && ch.status.observed <= ch.generation
    && (ch.pass.Joining? ==> ch.pass.generation <= ch.generation)
    && (InFlight(ch.pass) ==> ch.pass.seen.generation <= ch.generation)
  }

  /** An annotation is published together with the spec, so its first name is the spec's transport. */
  predicate HashOfTransport(h: InputSecretHash, transport: string) {
    h.HashOf? ==> h.names != [] && h.names[0] == Transport(transport)
  }

  /** A tuple a child has no trace of is safe to write. */
  lemma UnrememberedIsSafe(ch: Child, k: Names)
    requires !Remembers(ch, k)
    ensures CannotMisreport(ch, k)
  {
  }

  /** The actions that touch a child other than the parent's publishing. */
  predicate IsChildAction(a: Action) {
    a.ChildBegin? || a.ChildStep? || a.ChildStop? || a.ChildCrash? || a.StartPod? || a.StopPod? || a.RestartPod?
  }

  function StepChild(ch: Child, a: Action, config: Option<Config>, secrets: SecretStore): Child
    requires IsChildAction(a)
  {
    match a
    case ChildBegin(_) => BeginChild(ch)
    case ChildStep(_, choice) => AdvanceChild(ch, config, secrets, choice)
    case ChildStop(_) => HaltChild(ch)
    case ChildCrash(_) => ch.(pass := Idle)
    case StartPod(_, h) => Start(ch, h)
    case StopPod(_, p) => ch.(pods := ch.pods - {p})
    case RestartPod(_, p) => Restart(ch, p)
  }

  lemma ChildActionIsLocal(s: State, a: Action)
    requires IsChildAction(a)
    ensures var ch := StepChild(s.children[a.service], a, s.config, s.secrets);
            Step(s, a) == s.(children := s.children[a.service := ch])
  {
  }

  lemma ChildInvStep(ch: Child, a: Action, config: Option<Config>, secrets: SecretStore)
    requires IsChildAction(a) && ChildInv(ch)
    ensures ChildInv(StepChild(ch, a, config, secrets))
  {
  }

  /** While the configuration refers to K, no child action can make the child misreport K. */
  lemma SoundnessStep(ch: Child, a: Action, config: Config, secrets: SecretStore)
    requires IsChildAction(a) && ChildInv(ch)
    requires CannotMisreport(ch, config.names)
    ensures CannotMisreport(StepChild(ch, a, Some(config), secrets), config.names)
  {
    if a.ChildStep? {
      SoundnessOfPass(ch, a.choice, config, secrets);
    } else if a.StartPod? || a.StopPod? || a.RestartPod? {
      SoundnessOfPods(ch, a, config, secrets);
    }
  }

  lemma SoundnessOfPass(ch: Child, choice: nat, config: Config, secrets: SecretStore)
    requires ChildInv(ch) && CannotMisreport(ch, config.names)
    ensures CannotMisreport(AdvanceChild(ch, Some(config), secrets, choice), config.names)
  {
    hide ChildInv, CannotMisreport, AdvanceChild;
    if ch.pass.Checked? {
      SoundnessOfConfirmation(ch, choice, config, secrets);
    } else if ch.pass.Copied? || ch.pass.Rendered? || ch.pass.Deployed? {
      SoundnessOfWriting(ch, choice, config, secrets);
    } else {
      SoundnessOfReading(ch, choice, config, secrets);
    }
  }

  lemma SoundnessOfReading(ch: Child, choice: nat, config: Config, secrets: SecretStore)
    requires ChildInv(ch) && CannotMisreport(ch, config.names)
    requires ch.pass.Idle? || ch.pass.Joining? || ch.pass.Observed? || ch.pass.Hashed?
    ensures CannotMisreport(AdvanceChild(ch, Some(config), secrets, choice), config.names)
  {
  }

  lemma SoundnessOfWriting(ch: Child, choice: nat, config: Config, secrets: SecretStore)
    requires ChildInv(ch) && CannotMisreport(ch, config.names)
    requires ch.pass.Copied? || ch.pass.Rendered? || ch.pass.Deployed?
    ensures CannotMisreport(AdvanceChild(ch, Some(config), secrets, choice), config.names)
  {
  }

  lemma SoundnessOfConfirmation(ch: Child, choice: nat, config: Config, secrets: SecretStore)
    requires ChildInv(ch) && CannotMisreport(ch, config.names) && ch.pass.Checked?
    ensures CannotMisreport(AdvanceChild(ch, Some(config), secrets, choice), config.names)
  {
  }

  lemma SoundnessOfPods(ch: Child, a: Action, config: Config, secrets: SecretStore)
    requires a.StartPod? || a.StopPod? || a.RestartPod?
    requires ChildInv(ch) && CannotMisreport(ch, config.names)
    ensures CannotMisreport(StepChild(ch, a, Some(config), secrets), config.names)
  {
  }

  /** A child that runs K keeps running K while the configuration refers to K. */
  lemma RunsStep(ch: Child, a: Action, config: Config, secrets: SecretStore)
    requires IsChildAction(a) && ChildInv(ch) && Runs(ch, config.names)
    ensures Runs(StepChild(ch, a, Some(config), secrets), config.names)
  {
  }

  /** Publishing changes no pod, no stamp and no confirmation. */
  lemma PublishKeepsSoundness(ch: Child, w: Work, other: nat, k: Names)
    ensures var ch' := PublishChild(ch, w, other);
            && (ChildInv(ch) ==> ChildInv(ch')) && (Runs(ch, k) <==> Runs(ch', k))
            && (CannotMisreport(ch, k) <==> CannotMisreport(ch', k))
  {
  }
}
