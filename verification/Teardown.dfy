/** When a disabled notifications bus is really gone.

    The teardown goes by the tracked secret name. A TransportURL that never got a secret was
    never tracked, so turning the bus off again leaves it behind.
 */
module Teardown {
  import opened Names
  import opened Cluster
  import opened Protection
  import opened Cleanup
  import opened Rotation

  /** In a pass with the bus off that began over the tracked name t, with the TransportURL gone or not. */
  predicate BusOff(s: State, t: Option<string>, gone: bool) {
    s.parent.Working? ==>
      var w := s.parent.work;
      && s.heat.Some? && s.heat.value.tracked.notification == t
      && !w.bus && w.notification.None?
      && (t.None? ==> w.tracked.notification.None? && !w.stage.AtDeleteBus?)
      && (gone ==> s.notificationUrl.NoUrl?)
      && (t.None? && !gone ==> s.notificationUrl.Url?)
  }

  lemma BusOffLate(s: State, w: Work, choice: nat, t: Option<string>, gone: bool)
    requires BusOff(s, t, gone) && s.parent == Working(w) && Rank(w.stage) >= 10
    ensures BusOff(AdvanceWork(s, w, choice), t, gone)
  {
  }

  lemma BusOffEarly(s: State, w: Work, choice: nat, t: Option<string>, gone: bool)
    requires BusOff(s, t, gone) && s.parent == Working(w) && Rank(w.stage) <= 9
    ensures BusOff(AdvanceWork(s, w, choice), t, gone)
  {
  }

  lemma BusOffStep(s: State, a: Action, t: Option<string>, gone: bool)
    requires BusOff(s, t, gone) && OwnershipInv(s) && !a.ParentBegin?
    ensures BusOff(Step(s, a), t, gone)
  {
    if a.ParentStep? && s.parent.Working? {
      if Rank(s.parent.work.stage) <= 9 {
        BusOffEarly(s, s.parent.work, a.choice, t, gone);
      } else {
        BusOffLate(s, s.parent.work, a.choice, t, gone);
      }
    } else {
      OtherActions(s, a);
    }
  }

  lemma OtherActions(s: State, a: Action)
    requires OwnershipInv(s) && !a.ParentBegin? && !(a.ParentStep? && s.parent.Working?)
    ensures var s' := Step(s, a);
            && (s'.notificationUrl.NoUrl? <==> s.notificationUrl.NoUrl?)
            && (s'.parent.Working? ==>
                  && s.parent.Working? && s'.heat.Some? && s.heat.Some?
                  && s'.heat.value.tracked == s.heat.value.tracked
                  && (s'.parent == s.parent || s'.parent == Working(Stopped(s.parent.work))))
  {
  }

  lemma {:induction false} BusOffRun(s: State, actions: seq<Action>, t: Option<string>, gone: bool)
    requires BusOff(s, t, gone) && OwnershipInv(s) && forall i | 0 <= i < |actions| :: !actions[i].ParentBegin?
    ensures BusOff(Run(s, actions), t, gone)
    decreases |actions|
  {
    if actions != [] {
      assert !actions[0].ParentBegin?;
      BusOffStep(s, actions[0], t, gone);
      OwnershipInvStep(s, actions[0]);
      BusOffRun(Step(s, actions[0]), actions[1..], t, gone);
    }
  }

  /** Exactly when a pass with the bus off ends with no notifications TransportURL: from any
      reachable state, and whatever happens around the pass, if it completes with every service
      confirmed, then the TransportURL is gone if and only if it was gone when the pass began or
      Heat tracked a notification secret then. */
  lemma BusIsGoneIff(s0: State, before: seq<Action>, during: seq<Action>, w: Work)
    requires Initial(s0)
    requires var s := Run(s0, before);
             && s.parent.Resting? && s.heat.Some? && s.heat.value.finalizer && !s.heat.value.deleting
    requires !Run(s0, before).heat.value.bus
    requires forall i | 0 <= i < |during| :: !during[i].ParentBegin?
    requires var end := Run(Begin(Run(s0, before)), during);
             end.parent == Working(w) && w.stage == AtPatch(true) && AllConfirmed(w)
    ensures var s := Run(s0, before);
            Run(Begin(s), during).notificationUrl.NoUrl?
            <==> s.notificationUrl.NoUrl? || s.heat.value.tracked.notification.Some?
  {
    var s := Run(s0, before);
    var t, gone := s.heat.value.tracked.notification, s.notificationUrl.NoUrl?;
    RotationInvReachable(s0, before);
    RotationInvStep(s, ParentBegin);
    OwnershipInvStep(s, ParentBegin);
    assert BusOff(Begin(s), t, gone);
    BusOffRun(Begin(s), during, t, gone);
    RotationInvRun(Begin(s), during);
  }
}
