/** Hand-over of a service's finalizer between Topology objects.

    The status remembers the last applied topology, and a pass moves the finalizer from that
    one to the one the spec refers to. The status is patched last, so a pass that is lost after
    the move leaves the finalizer where the status does not say.
 */
module Topology {
  import opened Names

  type Ref = string

  /** `holders` are the Topologies that carry this service's finalizer. */
  datatype State = State(topologies: set<Ref>, holders: set<Ref>, spec: Option<Ref>, last: Option<Ref>)

  function Refs(o: Option<Ref>): set<Ref> {
    match o
    case None => {}
    case Some(r) => {r}
  }

  /** How far a pass gets: its patch may be lost, before or after the new reference was added. */
  datatype Fate = Persisted | LostAfterRelease | LostAfterAdd

  datatype Event =
    | Change(spec: Option<Ref>)
    | Appear(topology: Ref)
    | Pass(fate: Fate)
    | DeletePass

  /** The last reference is released if it is no longer wanted. */
  function Released(s: State): State {
    if s.last == s.spec then s else s.(holders := s.holders - Refs(s.last))
  }

  /** A reference to a topology that does not exist is an error, and nothing is added. */
  predicate Found(s: State) {
    s.spec.None? || s.spec.value in s.topologies
  }

  function Moved(s: State): State {
    if Found(s) then Released(s).(holders := Released(s).holders + Refs(s.spec)) else Released(s)
  }

  function AfterPass(s: State, fate: Fate): State {
    match fate
    case LostAfterRelease => Released(s)
    case LostAfterAdd => Moved(s)
    case Persisted => if Found(s) then Moved(s).(last := s.spec) else Moved(s)
  }

  function After(s: State, e: Event): State {
    match e
    case Change(r) => s.(spec := r)
    case Appear(t) => s.(topologies := s.topologies + {t})
    case Pass(fate) => AfterPass(s, fate)
    case DeletePass => s.(holders := s.holders - Refs(s.last))
  }

  function AfterAll(s: State, events: seq<Event>): State
    decreases |events|
  {
    if events == [] then s else AfterAll(After(s, events[0]), events[1..])
  }

  // ---------------------------------------------------------------- the pass as it is coded

  class Service {
    var topologies: set<Ref>
    var holders: set<Ref>
    var specRef: Option<Ref>
    var lastApplied: Option<Ref>    // as patched into the status

    constructor ()
      ensures View() == State({}, {}, None, None)
    {
      topologies, holders, specRef, lastApplied := {}, {}, None, None;
    }

    ghost function View(): State
      reads this
    {
      State(topologies, holders, specRef, lastApplied)
    }

    method EnsureDeletedTopologyRef(last: Option<Ref>)
      modifies this`holders
      ensures holders == old(holders) - Refs(last)
    {
      if last.Some? {
        holders := holders - {last.value};
      }
    }

    /** The library's step: release the last reference if it differs, then add the new one. */
    method EnsureServiceTopology(wanted: Option<Ref>, last: Option<Ref>, interrupted: bool) returns (ok: bool)
      requires wanted == specRef && last == lastApplied
      modifies this`holders
      ensures View() == if interrupted then Released(old(View())) else Moved(old(View()))
      ensures ok <==> !interrupted && Found(old(View()))
    {
      if last != wanted {
        EnsureDeletedTopologyRef(last);
      }
      if interrupted || (wanted.Some? && wanted.value !in topologies) {
        return false;
      }
      if wanted.Some? {
        holders := holders + {wanted.value};
      }
      return true;
    }

    /** `ensureTopology` and the deferred patch. */
    method EnsureTopology(fate: Fate)
      modifies this
      ensures View() == AfterPass(old(View()), fate)
      // the status follows the reference when a pass is complete, and only then
      ensures lastApplied == if fate.Persisted? && (specRef.None? || specRef.value in topologies) then specRef
                             else old(lastApplied)
      // the last applied topology is released only if another one, or none, is asked for
      ensures old(lastApplied) == specRef ==> old(holders) <= holders
      // the finalizer goes nowhere else
      ensures forall r | r in old(holders) && old(lastApplied) != Some(r) :: r in holders
      ensures forall r | r in holders && r !in old(holders) :: specRef == Some(r) && r in topologies
      // a pass that is not lost before the addition makes the move
      ensures !fate.LostAfterRelease? && specRef.Some? && specRef.value in topologies ==> specRef.value in holders
      ensures forall r | old(lastApplied) == Some(r) && specRef != Some(r) :: r !in holders
    {
      var last := lastApplied;    // the instance in memory
      var ok := EnsureServiceTopology(specRef, last, fate.LostAfterRelease?);
      if ok {
        last := specRef;
      }
      if fate.Persisted? {
        lastApplied := last;
      }
    }

    /** The topology part of a child's `reconcileDelete`. */
    method ReconcileDelete()
      modifies this`holders
      ensures View() == After(old(View()), DeletePass)
    {
      EnsureDeletedTopologyRef(lastApplied);
    }
  }

  // ---------------------------------------------------------------- hand-over over runs

  lemma {:induction false} Concat(s: State, a: seq<Event>, b: seq<Event>)
    ensures AfterAll(s, a + b) == AfterAll(AfterAll(s, a), b)
    decreases |a|
  {
    if a == [] {
      assert a + b == b;
    } else {
      assert (a + b)[0] == a[0] && (a + b)[1..] == a[1..] + b;
      Concat(After(s, a[0]), a[1..], b);
    }
  }

  /** The finalizer is nowhere but where the status says. */
  predicate Accounted(s: State) {
    s.holders <= Refs(s.last)
  }

  /** A pass is lost between adding r, which the status does not say yet, and its patch. */
  predicate Loses(s: State, e: Event, r: Ref) {
    e == Pass(LostAfterAdd) && Found(s) && s.spec == Some(r) && s.last != Some(r)
  }

  /** A complete pass while the spec refers to r. */
  predicate Completes(s: State, e: Event, r: Ref) {
    e == Pass(Persisted) && Found(s) && s.spec == Some(r)
  }

  /** Some pass was lost at r, and none was completed at r afterwards. */
  predicate Stranded(s: State, events: seq<Event>, r: Ref) {
    exists i | 0 <= i < |events| :: LostForGood(s, events, r, i)
  }

  predicate LostForGood(s: State, events: seq<Event>, r: Ref, i: nat)
    requires i < |events|
  {
    && Loses(AfterAll(s, events[..i]), events[i], r)
    && forall j | i < j < |events| :: !Completes(AfterAll(s, events[..j]), events[j], r)
  }

  /** One more event, seen from r. */
  lemma StrandedSnoc(s: State, events: seq<Event>, e: Event, r: Ref)
    ensures var at := AfterAll(s, events);
            Stranded(s, events + [e], r) <==> Loses(at, e, r) || (Stranded(s, events, r) && !Completes(at, e, r))
  {
    var n, longer := |events|, events + [e];
    assert longer[..n] == events && longer[n] == e;
    forall i | 0 <= i < n ensures longer[..i] == events[..i] && longer[i] == events[i] {
    }
    if Loses(AfterAll(s, events), e, r) {
      assert LostForGood(s, longer, r, n);
    }
    if i :| 0 <= i < n && LostForGood(s, events, r, i) && !Completes(AfterAll(s, events), e, r) {
      assert LostForGood(s, longer, r, i);
    }
    if i :| 0 <= i < n + 1 && LostForGood(s, longer, r, i) {
      if i < n {
        assert longer[..n] == events;
        assert !Completes(AfterAll(s, longer[..n]), longer[n], r);
        forall j | i < j < n ensures !Completes(AfterAll(s, events[..j]), events[j], r) {
          assert !Completes(AfterAll(s, longer[..j]), longer[j], r);
        }
        assert LostForGood(s, events, r, i);
      }
    }
  }

  /** What is held beyond the status is exactly what is stranded. */
  lemma {:induction false} HeldBeyondTheStatus(s: State, events: seq<Event>, r: Ref)
    requires Accounted(s)
    ensures var end := AfterAll(s, events);
            r in end.holders && end.last != Some(r) <==> Stranded(s, events, r)
    decreases |events|
  {
    if events != [] {
      var n := |events| - 1;
      var most, e := events[..n], events[n];
      assert events == most + [e];
      HeldBeyondTheStatus(s, most, r);
      StrandedSnoc(s, most, e, r);
      Concat(s, most, [e]);
      assert AfterAll(AfterAll(s, most), [e]) == After(AfterAll(s, most), e);
      OneMoreEvent(AfterAll(s, most), e, r, Stranded(s, most, r));
    }
  }

  lemma OneMoreEvent(s: State, e: Event, r: Ref, stranded: bool)
    requires r in s.holders && s.last != Some(r) <==> stranded
    ensures var end := After(s, e);
            r in end.holders && end.last != Some(r) <==> Loses(s, e, r) || (stranded && !Completes(s, e, r))
  {
  }

  /** Hand-over, exactly: whatever references came and went, and wherever passes were interrupted
      or found no topology, a delete pass leaves the finalizer on exactly the stranded topologies:
      those at which a pass was lost after the addition and none was completed afterwards. A
      complete pass leaves it on those and on the one the spec refers to. */
  lemma HandOver(topologies: set<Ref>, events: seq<Event>, r: Ref)
    ensures var s0 := State(topologies, {}, None, None);
            var s := AfterAll(s0, events);
            && (r in After(s, DeletePass).holders <==> Stranded(s0, events, r))
            && (Found(s) ==>
                  && AfterPass(s, Persisted).last == s.spec
                  && (r in AfterPass(s, Persisted).holders <==> s.spec == Some(r) || Stranded(s0, events, r)))
  {
    HeldBeyondTheStatus(State(topologies, {}, None, None), events, r);
  }

  /** When a reference may change, exactly: in any state, a change followed by a complete pass
      accounts for every finalizer if and only if none is held beyond the last applied topology
      and the one that is asked for. */
  lemma ChangeIsSafeIff(s: State, r: Option<Ref>)
    requires Found(s.(spec := r))
    ensures AfterPass(s.(spec := r), Persisted).holders == Refs(r) <==> s.holders <= Refs(s.last) + Refs(r)
  {
    var s' := s.(spec := r);
    if s.last == r {
      assert Refs(s.last) + Refs(r) == Refs(r);
    } else {
      assert AfterPass(s', Persisted).holders == s.holders - Refs(s.last) + Refs(r);
    }
    if AfterPass(s', Persisted).holders == Refs(r) {
      forall x | x in s.holders ensures x in Refs(s.last) + Refs(r) {
        if x !in Refs(s.last) {
          assert x in AfterPass(s', Persisted).holders;
        }
      }
    }
  }

  /** A lost patch is repaired by the next pass if the reference has not changed meanwhile. */
  lemma LostPatchIsRepaired(s: State)
    requires Accounted(s) && Found(s)
    ensures var lost := AfterPass(s, LostAfterAdd);
            AfterPass(lost, Persisted).holders == Refs(s.spec) && AfterPass(lost, Persisted).last == s.spec
  {
  }

  /** The last applied topology keeps the finalizer as long as the reference stays, through any
      passes, wherever they are interrupted, and whatever topologies appear. */
  lemma {:induction false} UnchangedReferenceKeepsTheFinalizer(s: State, events: seq<Event>, r: Ref)
    requires s.spec == Some(r) && s.last == Some(r) && r in s.holders
    requires forall i | 0 <= i < |events| :: events[i].Pass? || events[i].Appear?
    ensures var end := AfterAll(s, events); end.spec == Some(r) && end.last == Some(r) && r in end.holders
    decreases |events|
  {
    if events != [] {
      assert events[0].Pass? || events[0].Appear?;
      UnchangedReferenceKeepsTheFinalizer(After(s, events[0]), events[1..], r);
    }
  }

  /** And not if it has: a pass is lost after adding b, the reference moves on to c, and b keeps
      the finalizer through every later pass and the delete pass. */
  lemma LostPatchStrandsAFinalizer()
    ensures var s := AfterAll(State({"b", "c"}, {}, None, None),
                              [Change(Some("b")), Pass(LostAfterAdd), Change(Some("c")), Pass(Persisted), DeletePass]);
            s.holders == {"b"}
  {
    var s0 := State({"b", "c"}, {}, None, None);
    var s2 := s0.(spec := Some("b"), holders := {"b"});
    var s4 := s0.(spec := Some("c"), holders := {"b", "c"}, last := Some("c"));
    var a := [Change(Some("b")), Pass(LostAfterAdd)];
    var b := [Change(Some("c")), Pass(Persisted)];
    assert AfterAll(s0, a) == s2 by {
      assert a[1..] == [Pass(LostAfterAdd)];
      assert AfterAll(s0.(spec := Some("b")), [Pass(LostAfterAdd)]) == AfterPass(s0.(spec := Some("b")), LostAfterAdd);
    }
    assert AfterAll(s2, b) == s4 by {
      assert b[1..] == [Pass(Persisted)];
      assert AfterAll(s2.(spec := Some("c")), [Pass(Persisted)]) == AfterPass(s2.(spec := Some("c")), Persisted);
    }
    Concat(s0, a, b);
    Concat(s0, a + b, [DeletePass]);
    assert a + b + [DeletePass]
           == [Change(Some("b")), Pass(LostAfterAdd), Change(Some("c")), Pass(Persisted), DeletePass];
    assert AfterAll(s4, [DeletePass]) == After(s4, DeletePass);
  }
}
