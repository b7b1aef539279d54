/**
 One acquire call among all the others: which steps can grant anything, what its timeout answers,
 and that a cancelled call never gets hold of a guard.
 */
module FlowCalls {

  import opened Wrappers
  import opened FlowSlots
  import opened FlowDispatch
  import opened FlowSystem
  import opened FlowTheorems
  import opened FlowProgress

  // ----- which steps grant

  /** An accepted request, a freed place or the periodic dispatch. */
  predicate Dispatches(s: Sys, step: Step) {
    || step.Periodic?
    || (step.Enqueue? && (s.slot.maxContext == 0 || step.ctx <= s.slot.maxContext))
    || (Frees(s, step) && Entry(s, step.id).Some?)
  }

  /** No other step grants anything, and but for a timeout it leaves the queues as they are. */
  lemma OthersGrantNothing(s: Sys, step: Step)
    requires !Dispatches(s, step)
    ensures !HasGrant(Apply(s, step).1) && Apply(s, step).0.sent == s.sent
    ensures !step.TimeoutCheck? ==>
              Apply(s, step).0.slot.vip == s.slot.vip && Apply(s, step).0.slot.normal == s.slot.normal
  {}

  /** A timeout that finds its request still waiting takes it out and answers so; one that finds it
      granted, or discarded, answers with a guard. Either way no other request moves. */
  lemma TimeoutAnswers(s: Sys, id: nat, v: bool, x: nat)
    requires Inv(s) && In(s, id, Expired)
    ensures var (e, events) := Apply(s, TimeoutCheck(id));
            var entry := Find(s.slot.Queue(s.clients[id].vip), id);
            && (x != id ==> Find(e.slot.Queue(v), x) == Find(s.slot.Queue(v), x))
            && id in e.clients
            && if entry.Some? && !entry.value.dispatched
               then e.clients[id].phase == TimedOut && Find(e.slot.Queue(v), id) == None
                    && events == [Quit(id, s.clients[id].vip)]
               else e.clients[id].phase == Guarded && e.slot == s.slot && events == []
  {
    LeaveIsGood(s.slot, id, s.clients[id].vip);
    assert Find(s.slot.Queue(v), id).Some? ==> v == s.clients[id].vip;
  }

  // ----- a cancelled call

  /** The call was cancelled: it still has to clean up, or it has left no entry behind. */
  ghost predicate CalledOff(s: Sys, id: nat) {
    In(s, id, Cancelling) || (In(s, id, Done) && Entry(s, id).None?)
  }

  lemma StepCalledOff(s: Sys, step: Step, id: nat)
    requires Inv(s) && CalledOff(s, id)
    ensures Inv(Apply(s, step).0) && CalledOff(Apply(s, step).0, id)
    ensures step == Cleanup(id) ==> In(Apply(s, step).0, id, Done)
  {
    var p := Prepare(s, step);
    StepKeepsInv(s, step);
    if !IsAbout(step, id) { OthersUntouched(s, step, id); }
    assert Finish(p).0.clients == p.sys.clients;
    assert In(p.sys, id, Cancelling) || In(p.sys, id, Done);
    var e := Apply(s, step).0;
    assert ClientOk(e.clients[id].phase, Entry(e, id), id in e.sent);
  }

  lemma CancelCallsOff(s: Sys, id: nat)
    requires Inv(s) && In(s, id, Pending)
    ensures Inv(Apply(s, Cancel(id)).0) && CalledOff(Apply(s, Cancel(id)).0, id)
  {
    StepKeepsInv(s, Cancel(id));
  }

  /** Nothing is left of the call. */
  ghost predicate Over(s: Sys, id: nat) { In(s, id, Done) && Entry(s, id).None? }

  lemma StaysCalledOff(m: Sys, step: Step, e: Sys, id: nat, cleaned: bool)
    requires Inv(m) && CalledOff(m, id) && e == Apply(m, step).0 && (cleaned ==> Over(m, id))
    ensures Inv(e) && CalledOff(e, id) && (cleaned || step == Cleanup(id) ==> Over(e, id))
  {
    StepCalledOff(m, step, id);
    if cleaned { DoneIsDone(m, step, id); }
  }

  lemma ExecSnoc(s: Sys, steps: seq<Step>)
    requires steps != []
    ensures Exec(s, steps).0 == Apply(Exec(s, steps[..|steps| - 1]).0, steps[|steps| - 1]).0
  {}

  lemma InSnoc(steps: seq<Step>, x: Step)
    requires steps != []
    ensures x in steps <==> x in steps[..|steps| - 1] || x == steps[|steps| - 1]
  {
    assert steps == steps[..|steps| - 1] + [steps[|steps| - 1]];
  }

  /** A call cancelled while it waits for its grant never holds a guard, whether the grant was on its way
      or not; when it has cleaned up, its entry is gone. */
  lemma {:induction false} CancelledNeverGuarded(s: Sys, id: nat, steps: seq<Step>, e: Sys)
    requires Inv(s) && In(s, id, Pending) && steps != [] && steps[0] == Cancel(id) && e == Exec(s, steps).0
    ensures Inv(e) && CalledOff(e, id) && (Cleanup(id) in steps ==> Over(e, id))
    decreases |steps|
  {
    var front, last := steps[..|steps| - 1], steps[|steps| - 1];
    ExecSnoc(s, steps);
    if front == [] {
      assert Exec(s, front).0 == s;
      CancelCallsOff(s, id);
    } else {
      var m := Exec(s, front).0;
      CancelledNeverGuarded(s, id, front, m);
      StaysCalledOff(m, last, e, id, Cleanup(id) in front);
      InSnoc(steps, Cleanup(id));
    }
  }

  lemma DoneIsDone(s: Sys, step: Step, id: nat)
    requires Inv(s) && In(s, id, Done)
    ensures In(Apply(s, step).0, id, Done)
  {
    var p := Prepare(s, step);
    if !IsAbout(step, id) { OthersUntouched(s, step, id); }
    assert Finish(p).0.clients == p.sys.clients;
  }
}
