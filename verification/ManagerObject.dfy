/**
  The local operation manager as the object it is (harness/operation/local_manager.go):
  each case of its select updates the fields in place, and is proved against the function
  of LocalManager.dfy that says what it makes of the manager.

  `past` is ghost: what has happened, and what the primitives under way are still to send.
 */
module ManagerObject {
  import opened Llm
  import opened ShellOperation
  import opened LocalManager

  class LocalOperationManager {
    const handlers: Handlers
    var closed: seq<bool>
    var operations: map<string, Running>
    var accepted: set<string>
    var activePrimitives: int
    var pendingUpdates: seq<Job>
    ghost var past: History

    ghost function View(): Manager
      reads this
    {
      Manager(closed, operations, accepted, activePrimitives, pendingUpdates, past)
    }

    constructor (known: Handlers)
      ensures handlers == known && View() == Initial(known)
    {
      handlers := known;
      closed := seq(|known|, i => false);
      operations, accepted, activePrimitives, pendingUpdates := map[], {}, 0, [];
      past := History([], [], map[], map[], 0);
    }

    method AppendLocalUpdate(job: Job)
      modifies this`pendingUpdates, this`past
      ensures View() == Queue(old(View()), job)
    {
      pendingUpdates := pendingUpdates + [job];
      past := past.(queued := past.queued + [job]);
    }

    method FailLocalOperation(job: Job, unsupported: bool)
      modifies this`pendingUpdates, this`past, this`operations
      ensures View() == GiveUp(old(View()), job, unsupported)
    {
      var status := if unsupported then Unsupported else if CanFail(job) then Failed else Unsupported;
      AppendLocalUpdate(job.(status := status));
      operations := operations - {job.id};
    }

    /** acceptLocalStep; the caller brings the count up to date. */
    method AcceptLocalStep(id: string, step: Answer, failing: seq<Answer>) returns (started: nat)
      requires id in operations && step.Steps? && Own(step, id) && AllOwn(failing, id)
      modifies this`pendingUpdates, this`past, this`operations
      ensures View() == AcceptStep(old(View()), id, step, failing).manager
      ensures started == AcceptStep(old(View()), id, step, failing).started
      decreases |failing|
    {
      hide WholeStream;
      ghost var before := View();
      if step.job.Some? {
        var job := step.job.value;
        operations := operations[id := operations[id].(job := job)];
        AppendLocalUpdate(job);
        if HasEnded(job.status) {
          operations := operations - {id};
          return 0;
        }
      }
      ghost var next := View();
      assert next == if step.job.Some? then Publish(before, step.job.value) else before;
      started := 0;
      while started < |step.dispatches| && step.dispatches[started].Started?
        invariant started <= |step.dispatches| && forall k :: 0 <= k < started ==> step.dispatches[k].Started?
        invariant FirstNotStarted(step.dispatches, 0) == FirstNotStarted(step.dispatches, started)
        invariant View() == next.(past := StartAll(next.past, id, step.dispatches, started))
      {
        past := past.(live := past.live[past.started := Primitive(id, step.dispatches[started].events)], started := past.started + 1);
        started := started + 1;
      }
      if started < |step.dispatches| {
        if failing == [] || failing[0].Refuses? {
          FailLocalOperation(operations[id].job, failing != [] && failing[0].unsupported);
        } else {
          var more := AcceptLocalStep(id, failing[0], failing[1..]);
          started := started + more;
        }
      }
    }

    /** remoteJobHandlers.add. */
    method AddRemoteJob(job: Job, ask: nat -> Verdict) returns (routed: Routed)
      requires |closed| == |handlers|
      ensures routed == Route(handlers, closed, job, ask)
    {
      if job.plan.None? { return NotRouted(false); }
      var matched := -1;
      for index := 0 to |handlers|
        invariant -1 <= matched < index
        invariant matched == -1 ==> NextHandler(handlers, job.plan.value, 0) == NextHandler(handlers, job.plan.value, index)
        invariant matched >= 0 ==>
                    && NextHandler(handlers, job.plan.value, 0) == matched
                    && NextHandler(handlers, job.plan.value, matched + 1) == NextHandler(handlers, job.plan.value, index)
      {
        if handlers[index] == Some((job.plan.value.kind, job.plan.value.version)) {
          if matched != -1 { return NotRouted(false); }
          matched := index;
        }
      }
      if matched == -1 { return NotRouted(true); }
      if closed[matched] { return NotRouted(false); }
      var verdict := ask(matched);
      routed := match verdict case Takes => ToHandler(matched) case Declines(unsupported) => NotRouted(unsupported);
    }

    /** A new operation: at most once for its ID. */
    method AddOperation(job: Job, ask: nat -> Verdict, answer: Answer, failing: seq<Answer>)
      requires |closed| == |handlers| && Own(answer, job.id) && AllOwn(failing, job.id)
      modifies this`accepted, this`operations, this`pendingUpdates, this`activePrimitives, this`past
      ensures View() == Add(handlers, old(View()), job, ask, answer, failing)
    {
      hide Own, AllOwn, Route, AcceptStep;
      if job.id in accepted { return; }
      accepted := accepted + {job.id};
      past := past.(added := past.added[job.id := job]);
      if job.remote {
        var routed := AddRemoteJob(job, ask);
        match routed {
          case NotRouted(unsupported) => FailLocalOperation(job, unsupported);
          case ToHandler(index) => operations := operations[job.id := Running(job, index, false)];
        }
        return;
      }
      if answer.Refuses? {
        FailLocalOperation(job, answer.unsupported);
        return;
      }
      operations := operations[job.id := Running(job, -1, false)];
      var started := AcceptLocalStep(job.id, answer, failing);
      activePrimitives := activePrimitives + started;
    }

    method CancelOperation(id: string, told: bool)
      modifies this`operations, this`pendingUpdates, this`past
      ensures View() == CancelOne(old(View()), id, told)
    {
      if id !in operations { return; }
      if operations[id].handler >= 0 {
        if !told { FailLocalOperation(operations[id].job, false); }
        return;
      }
      operations := operations[id := operations[id].(canceled := true)];
    }

    method HandlerClosed(handler: nat, order: seq<string>)
      requires handler < |closed|
      modifies this`closed, this`operations, this`pendingUpdates, this`past
      ensures View() == HandlerGone(old(View()), handler, order) && |closed| == |old(closed)|
    {
      closed := closed[handler := true];
      ghost var before := View();
      for k := 0 to |order|
        invariant View() == FailAll(before, handler, order, k) && |closed| == |old(closed)|
      {
        if order[k] in operations && operations[order[k]].handler == handler { FailLocalOperation(operations[order[k]].job, false); }
      }
    }

    /** An update from a handler is checked before it is believed. */
    method RemoteUpdate(handler: nat, job: Job)
      requires !Panics(View(), HandlerUpdate(handler, job))
      modifies this`operations, this`pendingUpdates, this`past
      ensures View() == UpdateRemote(old(View()), handler, job)
    {
      if job.id !in operations { return; }
      var current := operations[job.id];
      if current.handler != handler || !ValidUpdate(current.job, job) {
        FailLocalOperation(current.job, false);
        return;
      }
      operations := operations[job.id := current.(job := job)];
      AppendLocalUpdate(job);
      if HasEnded(job.status) { operations := operations - {job.id}; }
    }

    /** The next event of a primitive under way. */
    method PrimitiveArrived(ghost n: nat, source: string, what: Happening, answers: Happening -> Answer, failing: seq<Answer>)
      requires n in past.live && past.live[n].events != []
      requires (forall w :: Own(answers(w), source)) && AllOwn(failing, source)
      modifies this`operations, this`pendingUpdates, this`activePrimitives, this`past
      ensures View() == PrimitiveEvent(old(View()), n, source, what, answers, failing)
    {
      hide Own, AllOwn, AcceptStep, Advance;
      var completed := PrimitiveCompleted(what);
      past := past.(live := Advance(past.live, n));
      if completed { activePrimitives := activePrimitives - 1; }
      if source !in operations { return; }
      var answer := answers(if completed && operations[source].canceled then WasCanceled else what);
      if answer.Refuses? {
        FailLocalOperation(operations[source].job, answer.unsupported);
        return;
      }
      var started := AcceptLocalStep(source, answer, failing);
      activePrimitives := activePrimitives + started;
    }

    /** The update channel takes the oldest update. */
    method SendOldestUpdate() returns (update: Job)
      requires pendingUpdates != []
      modifies this`pendingUpdates, this`past
      ensures update == old(pendingUpdates)[0] && pendingUpdates == old(pendingUpdates)[1..] && past == old(past).(sent := old(past).sent + [update])
    {
      update := pendingUpdates[0];
      pendingUpdates := pendingUpdates[1..];
      past := past.(sent := past.sent + [update]);
    }

    /** The loop, until its context is done. */
    method Run(events: seq<Incoming>)
      requires |closed| == |handlers| && After(handlers, View(), events, |events|).Some?
      modifies this
      ensures After(handlers, old(View()), events, |events|) == Some(View())
    {
      hide Own, AllOwn, Add, CancelOne, HandlerGone, UpdateRemote, PrimitiveEvent;
      ghost var start := View();
      for k := 0 to |events|
        invariant |closed| == |handlers| && After(handlers, start, events, k) == Some(View())
      {
        PrefixPossible(handlers, start, events, k + 1);
        match events[k] {
          case SendUpdate => var _ := SendOldestUpdate();
          case AddRequest(job, ask, answer, failing) => AddOperation(job, ask, answer, failing);
          case CancelRequest(id, told) => CancelOperation(id, told);
          case HandlerStopped(handler, order) => HandlerClosed(handler, order);
          case HandlerUpdate(handler, job) => RemoteUpdate(handler, job);
          case PrimitiveSent(n, source, what, answers, failing) => PrimitiveArrived(n, source, what, answers, failing);
        }
      }
    }

    /** Shutdown takes every event the primitives under way still send, and no more. */
    method DrainLocalPrimitives(inbox: seq<(nat, Happening)>) returns (taken: nat)
      requires Inv(View()) && Interleaves(past.live, inbox)
      ensures taken == |inbox|
    {
      hide Advance, Orderly;
      var active := activePrimitives;
      taken := 0;
      ghost var left := past;
      while active != 0
        invariant taken <= |inbox| && LiveFit(left) && active == |left.live| && Interleaves(left.live, inbox[taken..])
        decreases |inbox| - taken
      {
        assert left.live != map[];
        Advanced(left, inbox[taken].0);
        assert inbox[taken..][1..] == inbox[taken + 1..];
        if PrimitiveCompleted(inbox[taken].1) { active := active - 1; }
        left := left.(live := Advance(left.live, inbox[taken].0));
        taken := taken + 1;
      }
      assert left.live == map[];
    }
  }
}
