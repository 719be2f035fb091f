/**
  The local operation manager (harness/operation/local_manager.go, remote_job_handler.go):
  its select loop as a function of what arrives, over operations, accepted IDs, a count of
  primitives under way and a queue of updates; and the object that does it in place.

  What an actor answers to an event, whether a primitive starts and what it will send, and
  what a handler says, come with what arrives. `History` is what has happened: every update
  queued and sent, what was accepted, and each primitive under way with the events it is
  still to send.
 */
module LocalManager {
  import opened Llm
  import opened ShellOperation
  import Utf8
  import FileStream

  datatype Plan = Plan(kind: string, version: nat, data: string)

  /** `plan` is what decoding the state of a remote job gives; None is an error. `failable` is
      whether an operation of another kind can be failed, which needs a kind that keeps errors
      and a state that decodes. */
  datatype Job = Job(
    id: string, remote: bool, kind: string, version: nat, limit: int, plan: Option<Plan>, failable: bool, status: Status)

  datatype Running = Running(job: Job, handler: int, canceled: bool)

  /** The plan each handler is for; None is no handler. */
  type Handlers = seq<Option<(string, nat)>>

  /** A dispatch that could not be started, or one with the events its primitive will send. */
  datatype Dispatched = NotStarted | Started(events: seq<Happening>)

  /** What an actor makes of an event: an error, or a step. */
  datatype Answer = Refuses(unsupported: bool) | Steps(job: Option<Job>, dispatches: seq<Dispatched>)

  /** What a handler says to a new job. */
  datatype Verdict = Takes | Declines(unsupported: bool)

  datatype Routed = ToHandler(index: nat) | NotRouted(unsupported: bool)

  /** A primitive under way: for which operation, and what it is still to send. */
  datatype Primitive = Primitive(source: string, events: seq<Happening>)

  datatype History = History(queued: seq<Job>, sent: seq<Job>, added: map<string, Job>, live: map<nat, Primitive>, started: nat)

  datatype Manager = Manager(
    closed: seq<bool>, operations: map<string, Running>, accepted: set<string>, activePrimitives: int,
    pendingUpdates: seq<Job>, past: History)

  /** What one round of the loop receives, or the update it gets rid of. `failing` is what the
      actor answers to each primitive that does not start; `order` is how a map is ranged over. */
  datatype Incoming =
    | SendUpdate
    | AddRequest(job: Job, ask: nat -> Verdict, answer: Answer, failing: seq<Answer>)
    | CancelRequest(id: string, told: bool)
    | HandlerStopped(handler: nat, order: seq<string>)
    | HandlerUpdate(handler: nat, job: Job)
    | PrimitiveSent(number: nat, source: string, what: Happening, answers: Happening -> Answer, failing: seq<Answer>)

  function Initial(handlers: Handlers): Manager {
    Manager(seq(|handlers|, i => false), map[], {}, 0, [], History([], [], map[], map[], 0))
  }

  // ------------------------------------------------------------- transitions

  /** localOperationFinished. */
  predicate HasEnded(status: Status) { status.Completed? || status.Failed? || status.Canceled? }

  /** No update follows: finished, or given up by the manager. */
  predicate Last(status: Status) { HasEnded(status) || status.Unsupported? }

  /** The manager gave the operation up. */
  predicate GivenUp(status: Status) { status.Failed? || status.Unsupported? }

  /** validRemoteJobStatusTransition. */
  predicate ValidTransition(current: Status, updated: Status) {
    match current
    case Ready => updated.Awaiting? || updated.Canceling? || HasEnded(updated)
    case Awaiting => updated.Awaiting? || updated.Canceling? || HasEnded(updated)
    case Canceling => updated.Canceling? || updated.Failed? || updated.Canceled?
    case _ => false
  }

  /** validateRemoteJobUpdate. */
  predicate ValidUpdate(current: Job, updated: Job) {
    && updated.limit == current.limit && updated.kind == current.kind && updated.remote == current.remote && updated.version == current.version
    && current.plan.Some? && updated.plan == current.plan && ValidTransition(current.status, updated.status)
  }

  predicate Chain(path: seq<Status>) { forall i, j :: 0 <= i < |path| && j == i + 1 && j < |path| ==> ValidTransition(path[i], path[j]) }

  /** Where a remote job may go in any number of updates: never back to ready, never out of
      canceling into completion, and nowhere from an end. */
  lemma {:induction false} TransitionsAreFinal(path: seq<Status>)
    requires |path| > 1 && Chain(path)
    ensures forall i :: 0 <= i < |path| - 1 ==> !HasEnded(path[i])
    ensures !path[|path| - 1].Ready?
    ensures (exists i :: 0 <= i < |path| && path[i].Canceling?) ==> !path[|path| - 1].Completed? && !path[|path| - 1].Awaiting?
  {
    var n := |path| - 1;
    var before := path[..n];
    assert ValidTransition(path[n - 1], path[n]);
    if n > 1 {
      assert Chain(before) by {
        forall i, j | 0 <= i < n && j == i + 1 && j < n ensures ValidTransition(before[i], before[j]) {
          assert ValidTransition(path[i], path[j]);
        }
      }
      TransitionsAreFinal(before);
      forall i | 0 <= i < n ensures !HasEnded(path[i]) {
        assert path[i] == before[i];
      }
      if exists i :: 0 <= i < n && path[i].Canceling? {
        var i :| 0 <= i < n && path[i].Canceling?;
        assert before[i].Canceling?;
        assert before[n - 1] == path[n - 1] && !path[n - 1].Ready?;
      }
    }
  }

  // -------------------------------------------------------------- primitives

  /** localPrimitiveCompleted. */
  predicate PrimitiveCompleted(what: Happening) {
    what.Created? || what.ReadCompleted? || what.ProcessExited? || what.HasFailed? || what.WasCanceled? || what.ComputeCompleted?
  }

  /** What a primitive sends: any events, then the one that completes it. */
  predicate WholeStream(events: seq<Happening>) {
    && events != [] && PrimitiveCompleted(events[|events| - 1])
    && forall k :: 0 <= k < |events| - 1 ==> !PrimitiveCompleted(events[k])
  }

  /** Every read of a file sends such a stream, whatever happens to it. */
  lemma ReadsAreWhole(events: seq<Happening>, file: Utf8.Bytes, offset: int, count: int)
    requires FileStream.Streams(events, file, offset, count)
    ensures WholeStream(events)
  {
  }

  /** One primitive has sent its next event; after the last one it is no longer under way. */
  function Advance(live: map<nat, Primitive>, n: nat): map<nat, Primitive>
    requires n in live && live[n].events != []
  {
    if |live[n].events| == 1 then live - {n} else live[n := live[n].(events := live[n].events[1..])]
  }

  // ----------------------------------------------------------- what is done

  /** appendLocalUpdate. */
  function Queue(m: Manager, job: Job): Manager {
    m.(pendingUpdates := m.pendingUpdates + [job], past := m.past.(queued := m.past.queued + [job]))
  }

  /** A running operation's new state is stored and queued; one that ended is dropped. */
  function Publish(m: Manager, job: Job): Manager
    requires job.id in m.operations
  {
    var stored := m.operations[job.id := m.operations[job.id].(job := job)];
    Queue(m.(operations := if HasEnded(job.status) then stored - {job.id} else stored), job)
  }

  predicate CanFail(job: Job) { if job.remote then job.plan.Some? else job.failable }

  /** failLocalOperation: failed, unless the error says that it is unsupported or it cannot be failed. */
  function FailedJob(job: Job, unsupported: bool): Job {
    job.(status := if unsupported || !CanFail(job) then Unsupported else Failed)
  }

  /** The last update of an operation, running or just accepted. */
  function GiveUp(m: Manager, job: Job, unsupported: bool): Manager {
    Queue(m.(operations := m.operations - {job.id}), FailedJob(job, unsupported))
  }

  /** The first of `dispatches[i..]` that does not start. */
  function FirstNotStarted(dispatches: seq<Dispatched>, i: nat): (n: nat)
    requires i <= |dispatches|
    ensures i <= n <= |dispatches| && (n < |dispatches| ==> dispatches[n].NotStarted?)
    ensures forall k :: i <= k < n ==> dispatches[k].Started?
    decreases |dispatches| - i
  {
    if i == |dispatches| || dispatches[i].NotStarted? then i else FirstNotStarted(dispatches, i + 1)
  }

  /** The first `n` dispatches start. */
  function StartAll(past: History, id: string, dispatches: seq<Dispatched>, n: nat): History
    requires n <= |dispatches| && forall k :: 0 <= k < n ==> dispatches[k].Started?
  {
    if n == 0 then past
    else
      var before := StartAll(past, id, dispatches, n - 1);
      before.(live := before.live[before.started := Primitive(id, dispatches[n - 1].events)], started := before.started + 1)
  }

  datatype Accepted = Accepted(manager: Manager, started: nat)

  /** What an actor may answer: about its own operation, starting primitives that end. */
  predicate Own(a: Answer, id: string) {
    a.Steps? ==>
      && (a.job.Some? ==> a.job.value.id == id && !a.job.value.remote && !a.job.value.status.Unsupported?)
      && forall k :: 0 <= k < |a.dispatches| && a.dispatches[k].Started? ==> WholeStream(a.dispatches[k].events)
  }

  predicate AllOwn(answers: seq<Answer>, id: string) { forall k :: 0 <= k < |answers| ==> Own(answers[k], id) }

  /** acceptLocalStep, with the number of primitives it started. */
  function AcceptStep(m: Manager, id: string, step: Answer, failing: seq<Answer>): Accepted
    requires id in m.operations && step.Steps? && Own(step, id) && AllOwn(failing, id)
    decreases |failing|
  {
    var next := if step.job.Some? then Publish(m, step.job.value) else m;
    if step.job.Some? && HasEnded(step.job.value.status) then Accepted(next, 0)
    else
      var n := FirstNotStarted(step.dispatches, 0);
      var t := next.(past := StartAll(next.past, id, step.dispatches, n));
      if n == |step.dispatches| then Accepted(t, n)
      else if failing == [] then Accepted(GiveUp(t, t.operations[id].job, false), n)
      else if failing[0].Refuses? then Accepted(GiveUp(t, t.operations[id].job, failing[0].unsupported), n)
      else var rest := AcceptStep(t, id, failing[0], failing[1..]); Accepted(rest.manager, n + rest.started)
  }

  /** What comes of an actor's answer. */
  function TakeAnswer(m: Manager, id: string, answer: Answer, failing: seq<Answer>): Manager
    requires id in m.operations && Own(answer, id) && AllOwn(failing, id)
  {
    match answer
    case Refuses(unsupported) => GiveUp(m, m.operations[id].job, unsupported)
    case Steps(_, _) =>
      var a := AcceptStep(m, id, answer, failing);
      a.manager.(activePrimitives := a.manager.activePrimitives + a.started)
  }

  predicate HandledBy(handlers: Handlers, plan: Plan, i: nat) { i < |handlers| && handlers[i] == Some((plan.kind, plan.version)) }

  /** The first handler for the plan from `i` on, or the number of handlers. */
  function NextHandler(handlers: Handlers, plan: Plan, i: nat): (n: nat)
    requires i <= |handlers|
    ensures i <= n <= |handlers| && (n < |handlers| ==> HandledBy(handlers, plan, n))
    ensures forall k: nat :: i <= k < n ==> !HandledBy(handlers, plan, k)
    decreases |handlers| - i
  {
    if i == |handlers| || HandledBy(handlers, plan, i) then i else NextHandler(handlers, plan, i + 1)
  }

  /** remoteJobHandlers.add. */
  function Route(handlers: Handlers, closed: seq<bool>, job: Job, ask: nat -> Verdict): Routed {
    if job.plan.None? then NotRouted(false)
    else
      var i := NextHandler(handlers, job.plan.value, 0);
      if i == |handlers| then NotRouted(true)
      else if NextHandler(handlers, job.plan.value, i + 1) < |handlers| || (i < |closed| && closed[i]) then NotRouted(false)
      else match ask(i) case Takes => ToHandler(i) case Declines(unsupported) => NotRouted(unsupported)
  }

  /** A job goes to a handler exactly when that one alone is for its plan, still runs and takes it. */
  lemma RouteMeaning(handlers: Handlers, closed: seq<bool>, job: Job, ask: nat -> Verdict, i: nat)
    requires |closed| == |handlers|
    ensures Route(handlers, closed, job, ask) == ToHandler(i) <==>
              && job.plan.Some? && HandledBy(handlers, job.plan.value, i) && !closed[i] && ask(i).Takes?
              && forall j: nat :: HandledBy(handlers, job.plan.value, j) ==> j == i
  {
  }

  function Add(handlers: Handlers, m: Manager, job: Job, ask: nat -> Verdict, answer: Answer, failing: seq<Answer>): Manager
    requires Own(answer, job.id) && AllOwn(failing, job.id)
  {
    if job.id in m.accepted then m
    else
      var next := m.(accepted := m.accepted + {job.id}, past := m.past.(added := m.past.added[job.id := job]));
      if job.remote then
        match Route(handlers, m.closed, job, ask)
        case NotRouted(unsupported) => GiveUp(next, job, unsupported)
        case ToHandler(i) => next.(operations := next.operations[job.id := Running(job, i, false)])
      else if answer.Refuses? then GiveUp(next, job, answer.unsupported)
      else TakeAnswer(next.(operations := next.operations[job.id := Running(job, -1, false)]), job.id, answer, failing)
  }

  /** A remote job is told, or fails if it cannot be; a local operation's context is canceled. */
  function CancelOne(m: Manager, id: string, told: bool): Manager {
    if id !in m.operations || (m.operations[id].handler >= 0 && told) then m
    else if m.operations[id].handler >= 0 then GiveUp(m, m.operations[id].job, false)
    else m.(operations := m.operations[id := m.operations[id].(canceled := true)])
  }

  /** The operations of a stopped handler fail, in the order of the first `k` of a range. */
  function FailAll(m: Manager, handler: nat, order: seq<string>, k: nat): Manager
    requires k <= |order|
  {
    if k == 0 then m
    else
      var before := FailAll(m, handler, order, k - 1);
      var id := order[k - 1];
      if id in before.operations && before.operations[id].handler == handler then GiveUp(before, before.operations[id].job, false) else before
  }

  function HandlerGone(m: Manager, handler: nat, order: seq<string>): Manager {
    FailAll(m.(closed := if handler < |m.closed| then m.closed[handler := true] else m.closed), handler, order, |order|)
  }

  function UpdateRemote(m: Manager, handler: nat, job: Job): Manager {
    if job.id !in m.operations then m
    else
      var current := m.operations[job.id];
      if current.handler != handler || !ValidUpdate(current.job, job) then GiveUp(m, current.job, false) else Publish(m, job)
  }

  /** An operation whose context was canceled sees its primitives canceled. */
  function Seen(what: Happening, canceled: bool): Happening {
    if PrimitiveCompleted(what) && canceled then WasCanceled else what
  }

  function PrimitiveEvent(m: Manager, n: nat, source: string, what: Happening, answers: Happening -> Answer, failing: seq<Answer>): Manager
    requires n in m.past.live && m.past.live[n].events != []
    requires (forall w :: Own(answers(w), source)) && AllOwn(failing, source)
  {
    var next := m.(past := m.past.(live := Advance(m.past.live, n)),
                   activePrimitives := if PrimitiveCompleted(what) then m.activePrimitives - 1 else m.activePrimitives);
    if source !in m.operations then next
    else TakeAnswer(next, source, answers(Seen(what, m.operations[source].canceled)), failing)
  }

  /** `order` ranges over all keys of the map, each once. */
  ghost predicate RangesOver(order: seq<string>, operations: map<string, Running>) {
    && (forall i, j :: 0 <= i < j < |order| ==> order[i] != order[j])
    && (forall id :: id in operations <==> id in order)
  }

  /** An update of a handler for a local operation: giving that up as a remote job asks handler
      -1 to cancel it, and panics. */
  predicate Panics(m: Manager, e: Incoming) {
    e.HandlerUpdate? && e.job.id in m.operations && m.operations[e.job.id].handler < 0
  }

  /** What can arrive without a panic: an event of a primitive is the next one of a primitive
      under way. */
  ghost predicate Possible(handlers: Handlers, m: Manager, e: Incoming) {
    !Panics(m, e) &&
    match e
    case SendUpdate => m.pendingUpdates != []
    case AddRequest(job, _, answer, failing) => Own(answer, job.id) && AllOwn(failing, job.id)
    case HandlerStopped(handler, order) => handler < |handlers| && RangesOver(order, m.operations)
    case PrimitiveSent(n, source, what, answers, failing) =>
      && n in m.past.live && m.past.live[n].events != [] && m.past.live[n].source == source && m.past.live[n].events[0] == what
      && (forall w :: Own(answers(w), source)) && AllOwn(failing, source)
    case _ => true
  }

  /** One round of the loop. */
  ghost function Handle(handlers: Handlers, m: Manager, e: Incoming): Manager
    requires Possible(handlers, m, e)
  {
    match e
    case SendUpdate =>
      m.(pendingUpdates := m.pendingUpdates[1..], past := m.past.(sent := m.past.sent + [m.pendingUpdates[0]]))
    case AddRequest(job, ask, answer, failing) => Add(handlers, m, job, ask, answer, failing)
    case CancelRequest(id, told) => CancelOne(m, id, told)
    case HandlerStopped(handler, order) => HandlerGone(m, handler, order)
    case HandlerUpdate(handler, job) => UpdateRemote(m, handler, job)
    case PrimitiveSent(n, source, what, answers, failing) => PrimitiveEvent(m, n, source, what, answers, failing)
  }

  /** The loop over the first `k` events; None if one of them cannot arrive then. */
  ghost function After(handlers: Handlers, m: Manager, events: seq<Incoming>, k: nat): Option<Manager>
    requires k <= |events|
  {
    if k == 0 then Some(m)
    else
      match After(handlers, m, events, k - 1)
      case None => None
      case Some(t) => if Possible(handlers, t, events[k - 1]) then Some(Handle(handlers, t, events[k - 1])) else None
  }

  // ------------------------------------------------------------- the history

  /** Nothing follows a last update of the same ID. */
  predicate OneEnd(log: seq<Job>) { forall i, j :: 0 <= i < j < |log| && log[i].id == log[j].id ==> !Last(log[i].status) }

  /** The status of an ID after the first `n` updates. */
  function StatusAfter(log: seq<Job>, n: nat, id: string, initial: Status): Status
    requires n <= |log|
  {
    if n == 0 then initial else if log[n - 1].id == id then log[n - 1].status else StatusAfter(log, n - 1, id, initial)
  }

  /** Update `i` of a remote job follows from the status before it, or gives the job up. */
  predicate Follows(log: seq<Job>, i: nat, added: map<string, Job>)
    requires i < |log|
  {
    log[i].id in added && (added[log[i].id].remote ==>
      ValidTransition(StatusAfter(log, i, log[i].id, added[log[i].id].status), log[i].status) || GivenUp(log[i].status))
  }

  predicate AllFollow(log: seq<Job>, added: map<string, Job>) { forall i :: 0 <= i < |log| ==> Follows(log, i, added) }

  /** No last update of this ID has been queued. */
  predicate Open(log: seq<Job>, id: string) { forall i :: 0 <= i < |log| && log[i].id == id ==> !Last(log[i].status) }

  /** A running operation: it has not ended, and a remote one stands where its updates left it. */
  predicate Stands(log: seq<Job>, added: map<string, Job>, id: string, running: Running) {
    && id in added && running.job.id == id && running.job.remote == added[id].remote && (added[id].remote <==> running.handler >= 0)
    && (added[id].remote ==> running.job.status == StatusAfter(log, |log|, id, added[id].status))
    && Open(log, id)
  }

  /** Everything the queue has ever held is as it should be. */
  predicate Orderly(log: seq<Job>, added: map<string, Job>, operations: map<string, Running>, accepted: set<string>) {
    && OneEnd(log) && AllFollow(log, added) && accepted == added.Keys
    && forall id :: id in operations ==> Stands(log, added, id, operations[id])
  }

  /** Every primitive under way has a number, ends some time and is of a local operation. */
  predicate LiveFit(past: History) {
    forall n :: n in past.live ==>
      n < past.started && WholeStream(past.live[n].events) && past.live[n].source in past.added && !past.added[past.live[n].source].remote
  }

  /** During a round: the count is still to be brought up to date. */
  predicate Busy(m: Manager) {
    && Orderly(m.past.queued, m.past.added, m.operations, m.accepted)
    && m.past.sent + m.pendingUpdates == m.past.queued && LiveFit(m.past)
  }

  /** Between two rounds. */
  predicate Inv(m: Manager) { Busy(m) && m.activePrimitives == |m.past.live| }

  lemma {:induction false} StatusOfPrefix(a: seq<Job>, b: seq<Job>, n: nat, id: string, initial: Status)
    requires n <= |a| <= |b| && forall i :: 0 <= i < n ==> a[i] == b[i]
    ensures StatusAfter(a, n, id, initial) == StatusAfter(b, n, id, initial)
  {
    if n > 0 { StatusOfPrefix(a, b, n - 1, id, initial); }
  }

  lemma OneEndSnoc(log: seq<Job>, job: Job)
    requires OneEnd(log) && Open(log, job.id)
    ensures OneEnd(log + [job])
  {
  }

  /** A remote job may go to this status now. */
  predicate MayGo(log: seq<Job>, added: map<string, Job>, job: Job) {
    job.id in added && (added[job.id].remote ==>
      ValidTransition(StatusAfter(log, |log|, job.id, added[job.id].status), job.status) || GivenUp(job.status))
  }

  lemma FollowsOn(log: seq<Job>, job: Job, added: map<string, Job>, i: nat)
    requires i <= |log| && (if i < |log| then Follows(log, i, added) else MayGo(log, added, job))
    ensures Follows(log + [job], i, added)
  {
    var id := (log + [job])[i].id;
    StatusOfPrefix(log, log + [job], i, id, added[id].status);
  }

  lemma AllFollowSnoc(log: seq<Job>, job: Job, added: map<string, Job>)
    requires AllFollow(log, added) && MayGo(log, added, job)
    ensures AllFollow(log + [job], added)
  {
    hide Follows, MayGo;
    forall i | 0 <= i < |log + [job]| ensures Follows(log + [job], i, added) {
      FollowsOn(log, job, added, i);
    }
  }

  /** An update of one operation leaves the others standing. */
  lemma StandsOn(log: seq<Job>, job: Job, added: map<string, Job>, id: string, running: Running)
    requires Stands(log, added, id, running) && id != job.id
    ensures Stands(log + [job], added, id, running)
  {
    StatusOfPrefix(log, log + [job], |log|, id, added[id].status);
  }

  /** The updated operation stands where the update put it. */
  lemma StandsThere(log: seq<Job>, job: Job, added: map<string, Job>, running: Running)
    requires Stands(log, added, job.id, running) && job.remote == added[job.id].remote && !Last(job.status)
    ensures Stands(log + [job], added, job.id, running.(job := job))
  {
  }

  lemma StandsOpen(log: seq<Job>, added: map<string, Job>, id: string, running: Running)
    requires Stands(log, added, id, running)
    ensures Open(log, id) && id in added && running.job.id == id && running.job.remote == added[id].remote
  {
  }

  /** A running operation's update keeps the history orderly. */
  lemma OrderlyUpdate(log: seq<Job>, added: map<string, Job>, operations: map<string, Running>, accepted: set<string>, job: Job)
    requires Orderly(log, added, operations, accepted) && job.id in operations && !job.status.Unsupported?
    requires MayGo(log, added, job) && job.remote == added[job.id].remote
    ensures var stored := operations[job.id := operations[job.id].(job := job)];
            Orderly(log + [job], added, if HasEnded(job.status) then stored - {job.id} else stored, accepted)
  {
    hide OneEnd, AllFollow, Stands, MayGo;
    assert Stands(log, added, job.id, operations[job.id]);
    StandsOpen(log, added, job.id, operations[job.id]);
    OneEndSnoc(log, job);
    AllFollowSnoc(log, job, added);
    var stored := operations[job.id := operations[job.id].(job := job)];
    forall id | id in stored && id != job.id ensures Stands(log + [job], added, id, stored[id]) {
      StandsOn(log, job, added, id, operations[id]);
    }
    if !HasEnded(job.status) { StandsThere(log, job, added, operations[job.id]); }
  }

  /** So does giving an operation up. */
  lemma OrderlyFailure(log: seq<Job>, added: map<string, Job>, operations: map<string, Running>, accepted: set<string>, failed: Job)
    requires Orderly(log, added, operations, accepted) && failed.id in added && GivenUp(failed.status)
    requires Open(log, failed.id)
    ensures Orderly(log + [failed], added, operations - {failed.id}, accepted)
  {
    hide OneEnd, AllFollow, Stands, Open;
    OneEndSnoc(log, failed);
    AllFollowSnoc(log, failed, added);
    forall id | id in operations && id != failed.id ensures Stands(log + [failed], added, id, operations[id]) {
      StandsOn(log, failed, added, id, operations[id]);
    }
  }

  /** A new ID has no history. */
  lemma Accepting(log: seq<Job>, added: map<string, Job>, operations: map<string, Running>, accepted: set<string>, job: Job)
    requires Orderly(log, added, operations, accepted) && job.id !in accepted
    ensures Orderly(log, added[job.id := job], operations, accepted + {job.id}) && job.id !in operations
    ensures (forall i :: 0 <= i < |log| ==> log[i].id != job.id) && Open(log, job.id)
  {
    forall i | 0 <= i < |log| ensures log[i].id != job.id && Follows(log, i, added[job.id := job]) {
      assert Follows(log, i, added);
    }
    forall id | id in operations ensures id != job.id && Stands(log, added[job.id := job], id, operations[id]) {
      assert Stands(log, added, id, operations[id]);
    }
  }

  lemma {:induction false} NoHistory(log: seq<Job>, n: nat, id: string, initial: Status)
    requires n <= |log| && forall i :: 0 <= i < |log| ==> log[i].id != id
    ensures StatusAfter(log, n, id, initial) == initial
  {
    if n > 0 { NoHistory(log, n - 1, id, initial); }
  }

  /** An operation that was just accepted starts to run. */
  lemma Inserted(log: seq<Job>, added: map<string, Job>, operations: map<string, Running>, accepted: set<string>, job: Job, handler: int)
    requires Orderly(log, added, operations, accepted) && job.id in added && added[job.id] == job && (job.remote <==> handler >= 0)
    requires forall i :: 0 <= i < |log| ==> log[i].id != job.id
    ensures Orderly(log, added, operations[job.id := Running(job, handler, false)], accepted)
  {
    NoHistory(log, |log|, job.id, job.status);
  }

  // -------------------------------------------------------- every step keeps it

  /** Other IDs, the primitives and what was sent stay as they are. */
  predicate Touches(m: Manager, t: Manager) {
    && t.accepted == m.accepted && t.closed == m.closed && t.activePrimitives == m.activePrimitives
    && t.past.sent == m.past.sent && t.past.added == m.past.added
  }

  lemma PublishKeeps(m: Manager, job: Job)
    requires Busy(m) && job.id in m.operations && !job.status.Unsupported?
    requires job.remote == m.operations[job.id].job.remote
    requires job.remote ==> ValidTransition(m.operations[job.id].job.status, job.status)
    ensures Busy(Publish(m, job)) && Touches(m, Publish(m, job)) && Publish(m, job).past.live == m.past.live
    ensures !HasEnded(job.status) ==> job.id in Publish(m, job).operations && Publish(m, job).operations[job.id].job == job
  {
    hide OneEnd, AllFollow, StatusAfter;
    assert Stands(m.past.queued, m.past.added, job.id, m.operations[job.id]);
    OrderlyUpdate(m.past.queued, m.past.added, m.operations, m.accepted, job);
    assert (m.past.sent + m.pendingUpdates) + [job] == m.past.sent + (m.pendingUpdates + [job]);
  }

  lemma GiveUpKeeps(m: Manager, job: Job, unsupported: bool)
    requires Busy(m) && job.id in m.past.added && Open(m.past.queued, job.id)
    ensures Busy(GiveUp(m, job, unsupported)) && Touches(m, GiveUp(m, job, unsupported)) && GiveUp(m, job, unsupported).past.live == m.past.live
  {
    hide OneEnd, AllFollow, Stands, Orderly;
    var failed := FailedJob(job, unsupported);
    OrderlyFailure(m.past.queued, m.past.added, m.operations, m.accepted, failed);
    assert (m.past.sent + m.pendingUpdates) + [failed] == m.past.sent + (m.pendingUpdates + [failed]);
  }

  /** Giving up an operation that runs. */
  lemma GiveUpRunning(m: Manager, id: string, unsupported: bool)
    requires Busy(m) && id in m.operations
    ensures var t := GiveUp(m, m.operations[id].job, unsupported);
            Busy(t) && Touches(m, t) && t.past.live == m.past.live && m.operations[id].job.id == id
  {
    hide OneEnd, AllFollow, Stands;
    assert Stands(m.past.queued, m.past.added, id, m.operations[id]);
    StandsOpen(m.past.queued, m.past.added, id, m.operations[id]);
    GiveUpKeeps(m, m.operations[id].job, unsupported);
  }

  lemma {:induction false} StartKeeps(past: History, id: string, dispatches: seq<Dispatched>, n: nat)
    requires LiveFit(past) && n <= |dispatches| && id in past.added && !past.added[id].remote
    requires forall k :: 0 <= k < n ==> dispatches[k].Started? && WholeStream(dispatches[k].events)
    ensures var t := StartAll(past, id, dispatches, n);
            && LiveFit(t) && |t.live| == |past.live| + n
            && t.queued == past.queued && t.sent == past.sent && t.added == past.added
  {
    hide WholeStream;
    if n > 0 {
      StartKeeps(past, id, dispatches, n - 1);
      var before := StartAll(past, id, dispatches, n - 1);
      OneMore(before.live, before.started, Primitive(id, dispatches[n - 1].events));
    }
  }

  lemma OneMore(live: map<nat, Primitive>, n: nat, p: Primitive)
    requires n !in live
    ensures |live[n := p]| == |live| + 1
  {
    assert live[n := p].Keys == live.Keys + {n};
  }

  /** A step of a local operation: the count it returns is what it adds to the primitives under way. */
  lemma {:induction false} AcceptKeeps(m: Manager, id: string, step: Answer, failing: seq<Answer>)
    requires Busy(m) && id in m.operations && id in m.past.added && !m.past.added[id].remote
    requires step.Steps? && Own(step, id) && AllOwn(failing, id)
    ensures var a := AcceptStep(m, id, step, failing);
            Busy(a.manager) && Touches(m, a.manager) && |a.manager.past.live| == |m.past.live| + a.started
    decreases |failing|
  {
    hide Orderly, WholeStream, Publish, GiveUp;
    RunsLocally(m, id);
    var next := if step.job.Some? then Publish(m, step.job.value) else m;
    if step.job.Some? { PublishKeeps(m, step.job.value); }
    if !(step.job.Some? && HasEnded(step.job.value.status)) {
      var n := FirstNotStarted(step.dispatches, 0);
      StartKeeps(next.past, id, step.dispatches, n);
      var t := next.(past := StartAll(next.past, id, step.dispatches, n));
      if n < |step.dispatches| {
        if failing == [] {
          GiveUpRunning(t, id, false);
        } else if failing[0].Refuses? {
          GiveUpRunning(t, id, failing[0].unsupported);
        } else {
          AcceptKeeps(t, id, failing[0], failing[1..]);
        }
      }
    }
  }

  lemma RunsLocally(m: Manager, id: string)
    requires Busy(m) && id in m.operations
    ensures id in m.past.added && m.operations[id].job.id == id && m.operations[id].job.remote == m.past.added[id].remote
  {
    assert Stands(m.past.queued, m.past.added, id, m.operations[id]);
  }

  /** The count is brought up to date. */
  lemma AnswerKeeps(m: Manager, id: string, answer: Answer, failing: seq<Answer>)
    requires Busy(m) && m.activePrimitives == |m.past.live| && id in m.operations && id in m.past.added && !m.past.added[id].remote
    requires Own(answer, id) && AllOwn(failing, id)
    ensures var t := TakeAnswer(m, id, answer, failing);
            Inv(t) && t.accepted == m.accepted && t.past.sent == m.past.sent && t.past.added == m.past.added
  {
    hide Orderly, LiveFit, AcceptStep, GiveUp;
    match answer
    case Refuses(unsupported) => GiveUpRunning(m, id, unsupported);
    case Steps(_, _) => AcceptKeeps(m, id, answer, failing);
  }

  lemma AddKeeps(handlers: Handlers, m: Manager, job: Job, ask: nat -> Verdict, answer: Answer, failing: seq<Answer>)
    requires Inv(m) && Own(answer, job.id) && AllOwn(failing, job.id)
    ensures var t := Add(handlers, m, job, ask, answer, failing);
            && Inv(t) && t.past.sent == m.past.sent && t.accepted == m.accepted + {job.id}
            && t.past.added == if job.id in m.accepted then m.past.added else m.past.added[job.id := job]
  {
    hide OneEnd, AllFollow, Stands, TakeAnswer, GiveUp, Route, WholeStream;
    if job.id !in m.accepted {
      Accepting(m.past.queued, m.past.added, m.operations, m.accepted, job);
      var next := m.(accepted := m.accepted + {job.id}, past := m.past.(added := m.past.added[job.id := job]));
      assert LiveFit(next.past);
      if job.remote {
        match Route(handlers, m.closed, job, ask)
        case NotRouted(unsupported) => GiveUpKeeps(next, job, unsupported);
        case ToHandler(i) => Inserted(m.past.queued, next.past.added, m.operations, next.accepted, job, i);
      } else if answer.Refuses? {
        GiveUpKeeps(next, job, answer.unsupported);
      } else {
        Inserted(m.past.queued, next.past.added, m.operations, next.accepted, job, -1);
        AnswerKeeps(next.(operations := next.operations[job.id := Running(job, -1, false)]), job.id, answer, failing);
      }
    }
  }

  lemma CancelKeeps(m: Manager, id: string, told: bool)
    requires Inv(m)
    ensures var t := CancelOne(m, id, told); Inv(t) && Touches(m, t)
  {
    hide OneEnd, AllFollow, StatusAfter, GiveUp, LiveFit;
    if id in m.operations && m.operations[id].handler >= 0 && !told {
      GiveUpRunning(m, id, false);
    } else if id in m.operations && m.operations[id].handler < 0 {
      assert Stands(m.past.queued, m.past.added, id, m.operations[id]);
    }
  }

  lemma {:induction false} FailAllKeeps(m: Manager, handler: nat, order: seq<string>, k: nat)
    requires Inv(m) && k <= |order|
    ensures var t := FailAll(m, handler, order, k); Inv(t) && Touches(m, t)
  {
    hide Orderly, LiveFit, GiveUp;
    if k > 0 {
      FailAllKeeps(m, handler, order, k - 1);
      var before := FailAll(m, handler, order, k - 1);
      if order[k - 1] in before.operations { GiveUpRunning(before, order[k - 1], false); }
    }
  }

  lemma StoppedKeeps(m: Manager, handler: nat, order: seq<string>)
    requires Inv(m)
    ensures var t := HandlerGone(m, handler, order); Inv(t) && t.accepted == m.accepted && t.past.sent == m.past.sent && t.past.added == m.past.added
  {
    hide Orderly, LiveFit, FailAll;
    FailAllKeeps(m.(closed := if handler < |m.closed| then m.closed[handler := true] else m.closed), handler, order, |order|);
  }

  lemma RemoteKeeps(m: Manager, handler: nat, job: Job)
    requires Inv(m)
    ensures var t := UpdateRemote(m, handler, job); Inv(t) && Touches(m, t)
  {
    hide Orderly, LiveFit, GiveUp, Publish;
    if job.id in m.operations {
      RunsLocally(m, job.id);
      GiveUpRunning(m, job.id, false);
      if m.operations[job.id].handler == handler && ValidUpdate(m.operations[job.id].job, job) { PublishKeeps(m, job); }
    }
  }

  /** A completing event ends its primitive, any other leaves it under way. */
  lemma Advanced(past: History, n: nat)
    requires LiveFit(past) && n in past.live
    ensures past.live[n].events != []
    ensures var live := Advance(past.live, n);
            && LiveFit(past.(live := live))
            && |live| == |past.live| - if PrimitiveCompleted(past.live[n].events[0]) then 1 else 0
  {
    var p := past.live[n];
    var live := Advance(past.live, n);
    if |p.events| == 1 {
      assert past.live.Keys == live.Keys + {n};
    } else {
      assert live.Keys == past.live.Keys;
      assert WholeStream(p.events[1..]);
    }
  }

  lemma PrimitiveKeeps(m: Manager, n: nat, source: string, what: Happening, answers: Happening -> Answer, failing: seq<Answer>)
    requires Inv(m) && n in m.past.live && m.past.live[n].events != [] && m.past.live[n].source == source && m.past.live[n].events[0] == what
    requires (forall w :: Own(answers(w), source)) && AllOwn(failing, source)
    ensures var t := PrimitiveEvent(m, n, source, what, answers, failing);
            Inv(t) && t.accepted == m.accepted && t.past.sent == m.past.sent && t.past.added == m.past.added
  {
    hide Orderly, Advance, TakeAnswer, WholeStream, Own;
    Advanced(m.past, n);
    var next := m.(past := m.past.(live := Advance(m.past.live, n)),
                   activePrimitives := if PrimitiveCompleted(what) then m.activePrimitives - 1 else m.activePrimitives);
    if source in m.operations {
      AnswerKeeps(next, source, answers(Seen(what, m.operations[source].canceled)), failing);
    }
  }

  lemma SendKeeps(m: Manager)
    requires Inv(m) && m.pendingUpdates != []
    ensures Inv(m.(pendingUpdates := m.pendingUpdates[1..], past := m.past.(sent := m.past.sent + [m.pendingUpdates[0]])))
  {
    hide Orderly, WholeStream;
    assert m.past.sent + m.pendingUpdates == (m.past.sent + [m.pendingUpdates[0]]) + m.pendingUpdates[1..];
  }

  /** Every round keeps the history orderly and the count exact. */
  lemma RoundKeeps(handlers: Handlers, m: Manager, e: Incoming)
    requires Inv(m) && Possible(handlers, m, e)
    ensures var t := Handle(handlers, m, e);
            && Inv(t)
            && t.past.sent == m.past.sent + (if e.SendUpdate? then [m.pendingUpdates[0]] else [])
            && t.accepted == m.accepted + (if e.AddRequest? then {e.job.id} else {})
            && t.past.added == if e.AddRequest? && e.job.id !in m.accepted then m.past.added[e.job.id := e.job] else m.past.added
  {
    hide Orderly, LiveFit, Add, CancelOne, HandlerGone, UpdateRemote, PrimitiveEvent, Own, AllOwn;
    match e
    case SendUpdate => SendKeeps(m);
    case AddRequest(job, ask, answer, failing) => AddKeeps(handlers, m, job, ask, answer, failing);
    case CancelRequest(id, told) => CancelKeeps(m, id, told);
    case HandlerStopped(handler, order) => StoppedKeeps(m, handler, order);
    case HandlerUpdate(handler, job) => RemoteKeeps(m, handler, job);
    case PrimitiveSent(n, source, what, answers, failing) => PrimitiveKeeps(m, n, source, what, answers, failing);
  }

  // -------------------------------------------------------------- whole runs

  /** The job of the first request to add each ID. */
  function FirstAdds(events: seq<Incoming>, k: nat): map<string, Job>
    requires k <= |events|
  {
    if k == 0 then map[]
    else
      var before := FirstAdds(events, k - 1);
      match events[k - 1]
      case AddRequest(job, _, _, _) => if job.id in before then before else before[job.id := job]
      case _ => before
  }

  lemma {:induction false} RunKeeps(handlers: Handlers, events: seq<Incoming>, k: nat)
    requires k <= |events| && After(handlers, Initial(handlers), events, k).Some?
    ensures var t := After(handlers, Initial(handlers), events, k).value;
            Inv(t) && t.past.added == FirstAdds(events, k)
  {
    hide Possible, Handle, Busy;
    if k == 0 {
      InitialFits(handlers);
    } else {
      RunKeeps(handlers, events, k - 1);
      var t := After(handlers, Initial(handlers), events, k - 1).value;
      RoundKeeps(handlers, t, events[k - 1]);
      BusyAccepted(t);
    }
  }

  lemma InitialFits(handlers: Handlers)
    ensures Inv(Initial(handlers))
  {
  }

  lemma BusyAccepted(m: Manager)
    requires Busy(m)
    ensures m.accepted == m.past.added.Keys
  {
  }

  /** The statuses of an ID's updates among the first `n`, in order. */
  function Updates(log: seq<Job>, n: nat, id: string): seq<Status>
    requires n <= |log|
  {
    if n == 0 then [] else Updates(log, n - 1, id) + if log[n - 1].id == id then [log[n - 1].status] else []
  }

  /** Only the very last status may end the operation. */
  predicate EndsOnce(path: seq<Status>) { forall i :: 0 <= i < |path| - 1 ==> !Last(path[i]) }

  /** Each status follows by a valid transition; only the very last may give the job up instead. */
  predicate RemotePath(path: seq<Status>) {
    forall i, j :: 0 <= i < |path| && j == i + 1 && j < |path| ==>
      ValidTransition(path[i], path[j]) || (j == |path| - 1 && GivenUp(path[j]))
  }

  lemma {:induction false} UpdatesAre(log: seq<Job>, n: nat, id: string, added: map<string, Job>)
    requires n <= |log| && OneEnd(log) && AllFollow(log, added) && id in added
    ensures var path := Updates(log, n, id);
            && EndsOnce(path)
            && (path != [] ==> exists i :: 0 <= i < n && log[i].id == id && log[i].status == path[|path| - 1])
            && StatusAfter(log, n, id, added[id].status) == ([added[id].status] + path)[|path|]
            && (added[id].remote ==> RemotePath([added[id].status] + path))
  {
    hide Last, ValidTransition, GivenUp;
    if n > 0 {
      UpdatesAre(log, n - 1, id, added);
      var before, path := Updates(log, n - 1, id), Updates(log, n, id);
      if log[n - 1].id == id {
        assert Follows(log, n - 1, added);
        if before != [] {
          var i :| 0 <= i < n - 1 && log[i].id == id && log[i].status == before[|before| - 1];
          assert !Last(log[i].status);
          if added[id].remote { PathGrows([added[id].status] + before, log[n - 1].status); }
        }
        assert [added[id].status] + path == ([added[id].status] + before) + [log[n - 1].status];
      } else {
        assert path == before;
      }
    }
  }

  lemma PathGrows(path: seq<Status>, next: Status)
    requires |path| > 1 && RemotePath(path) && !Last(path[|path| - 1])
    requires ValidTransition(path[|path| - 1], next) || GivenUp(next)
    ensures RemotePath(path + [next])
  {
  }

  /** A remote job's history before it is given up goes by valid transitions alone. */
  lemma PathIsFinal(path: seq<Status>)
    requires |path| > 1 && RemotePath(path)
    ensures !path[|path| - 1].Ready?
    ensures (exists i :: 0 <= i < |path| && path[i].Canceling?) ==> !path[|path| - 1].Completed? && !path[|path| - 1].Awaiting?
  {
    var n := |path| - 1;
    if !GivenUp(path[n]) {
      assert Chain(path);
      TransitionsAreFinal(path);
    }
  }

  /** Whatever arrives, in any order: of each ID at most one last update is ever queued and
      nothing after it; a remote job goes by valid transitions from the status it was first
      added with until it ends or is given up, never back to ready and never from canceling to
      completion; what was sent and what is pending is what was queued, in order. */
  lemma EveryHistoryIsOrderly(handlers: Handlers, events: seq<Incoming>, t: Manager, id: string)
    requires After(handlers, Initial(handlers), events, |events|) == Some(t)
    ensures t.past.sent + t.pendingUpdates == t.past.queued
    ensures OneEnd(t.past.queued) && EndsOnce(Updates(t.past.queued, |t.past.queued|, id))
    ensures var path := Updates(t.past.queued, |t.past.queued|, id);
            var added := FirstAdds(events, |events|);
            && (path != [] ==> id in added)
            && (path != [] && added[id].remote ==>
                  && RemotePath([added[id].status] + path) && !path[|path| - 1].Ready?
                  && ((exists i :: 0 <= i < |path| && path[i].Canceling?) ==> !path[|path| - 1].Completed? && !path[|path| - 1].Awaiting?))
  {
    hide After, RemotePath, OneEnd, AllFollow, Stands, LiveFit, Updates, EndsOnce;
    RunKeeps(handlers, events, |events|);
    var log, added := t.past.queued, t.past.added;
    if id in added {
      UpdatesAre(log, |log|, id, added);
      if added[id].remote { UpdatesAreFinal(added[id].status, Updates(log, |log|, id)); }
    } else {
      NotUpdated(log, |log|, id, added);
    }
  }

  lemma UpdatesAreFinal(initial: Status, path: seq<Status>)
    requires RemotePath([initial] + path)
    ensures path != [] ==>
              && !path[|path| - 1].Ready?
              && ((exists i :: 0 <= i < |path| && path[i].Canceling?) ==> !path[|path| - 1].Completed? && !path[|path| - 1].Awaiting?)
  {
    hide RemotePath;
    if path != [] {
      var whole := [initial] + path;
      PathIsFinal(whole);
      forall i | 0 <= i < |path| ensures whole[i + 1] == path[i] {}
    }
  }

  lemma {:induction false} NotUpdated(log: seq<Job>, n: nat, id: string, added: map<string, Job>)
    requires n <= |log| && AllFollow(log, added) && id !in added
    ensures Updates(log, n, id) == [] && EndsOnce([])
  {
    if n > 0 {
      NotUpdated(log, n - 1, id, added);
      assert Follows(log, n - 1, added);
    }
  }

  /** The count is at all times the number of primitives that were started and have not sent
      the event that completes them, and only those of local operations. */
  lemma CountIsExact(handlers: Handlers, events: seq<Incoming>, t: Manager)
    requires After(handlers, Initial(handlers), events, |events|) == Some(t)
    ensures t.activePrimitives == |t.past.live|
    ensures forall n :: n in t.past.live ==>
              && WholeStream(t.past.live[n].events)
              && t.past.live[n].source in FirstAdds(events, |events|) && !FirstAdds(events, |events|)[t.past.live[n].source].remote
  {
    hide After, Orderly, WholeStream;
    RunKeeps(handlers, events, |events|);
  }

  lemma {:induction false} PrefixPossible(handlers: Handlers, m: Manager, events: seq<Incoming>, k: nat)
    requires k <= |events| && After(handlers, m, events, |events|).Some?
    ensures After(handlers, m, events, k).Some?
    decreases |events| - k
  {
    hide Possible, Handle;
    if k < |events| { PrefixPossible(handlers, m, events, k + 1); }
  }

  /** The panic can be reached: by any update that a handler sends in the name of a local
      operation that runs. */
  lemma AHandlerCanPanic(handlers: Handlers, job: Job, events: seq<Happening>, update: Job, handler: nat)
    requires !job.remote && WholeStream(events) && update.id == job.id
    ensures var add := AddRequest(job, i => Takes, Steps(None, [Started(events)]), []);
            var t := After(handlers, Initial(handlers), [add], 1);
            t.Some? && Panics(t.value, HandlerUpdate(handler, update))
  {
    hide WholeStream;
    var add := AddRequest(job, i => Takes, Steps(None, [Started(events)]), []);
    assert After(handlers, Initial(handlers), [add], 0) == Some(Initial(handlers));
    assert Own(add.answer, job.id);
  }

  /** No update of a remote job panics, whichever handler it comes from. */
  lemma OnlyLocalPanics(m: Manager, e: Incoming)
    requires Busy(m)
    ensures Panics(m, e) <==> e.HandlerUpdate? && e.job.id in m.operations && !m.past.added[e.job.id].remote
  {
    if e.HandlerUpdate? && e.job.id in m.operations { assert Stands(m.past.queued, m.past.added, e.job.id, m.operations[e.job.id]); }
  }

  // ---------------------------------------------------------------- shutdown

  /** `inbox` is all that the primitives under way are still to send, each in its own order. */
  predicate Interleaves(live: map<nat, Primitive>, inbox: seq<(nat, Happening)>)
    decreases |inbox|
  {
    if inbox == [] then live == map[]
    else
      && inbox[0].0 in live && live[inbox[0].0].events != [] && live[inbox[0].0].events[0] == inbox[0].1
      && Interleaves(Advance(live, inbox[0].0), inbox[1..])
  }

  predicate AllWhole(live: map<nat, Primitive>) { forall n :: n in live ==> WholeStream(live[n].events) }

  /** Whatever is under way can be sent to its end, beginning with any of the primitives. */
  lemma {:induction false} CanBeDrained(live: map<nat, Primitive>, n: nat) returns (inbox: seq<(nat, Happening)>)
    requires AllWhole(live) && (live != map[] ==> n in live)
    ensures Interleaves(live, inbox)
    decreases |live|, if n in live then |live[n].events| else 0
  {
    if live == map[] { return []; }
    var next := Advance(live, n);
    var more := n;
    if |live[n].events| == 1 {
      assert live.Keys == next.Keys + {n};
      if next != map[] { more :| more in next; }
    } else {
      assert next.Keys == live.Keys;
      assert WholeStream(next[n].events);
    }
    var rest := CanBeDrained(next, more);
    inbox := [(n, live[n].events[0])] + rest;
    assert inbox[1..] == rest;
  }
}
