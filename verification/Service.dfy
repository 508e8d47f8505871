/** `ApplicationService` (service/application_service.py) over the store of checkpoints. */
module Service {
  import opened Wrappers
  import opened Domain
  import opened Underwriting
  import opened Audit
  import opened Workflow
  import opened WorkflowRuns
  import opened PauseResume
  import opened Adjudication
  import Wording

  /** The checkpointer: thread id to checkpoint. */
  type Store = map<string, Checkpoint>

  datatype Reported = AwaitingEscalation | AsStored(status: Status)

  datatype Summary = Summary(applicationId: string, status: Reported, values: State, pending: Option<Payload>)

  datatype Rationale = Rationale(
    applicationId: string, outcome: Outcome, rationale: string, reasons: seq<Reason>, decidedBy: Actor)

  datatype Error = ApplicationNotFound | ApplicationNotAwaitingEscalation | DecisionNotAvailable

  /** A call returns, is refused with one of the service's own errors, or passes on a node's exception. */
  datatype Reply<T> = Ok(value: T) | Refused(error: Error) | NodeRaised

  // ----- The calls, as functions of the store -----

  function Pending(interrupts: seq<Payload>): Option<Payload> {
    if interrupts == [] then None else Some(interrupts[|interrupts| - 1])
  }

  function View(id: string, c: Checkpoint): Summary {
    Summary(
      id,
      if c.next.Some? then AwaitingEscalation else AsStored(c.values.status),
      c.values,
      if c.next.Some? then Pending(c.interrupts) else None)
  }

  function Get(store: Store, id: string): Reply<Summary> {
    if id !in store then Refused(ApplicationNotFound) else Ok(View(id, store[id]))
  }

  function GetRationaleOf(store: Store, id: string): Reply<Rationale> {
    match Get(store, id)
    case Refused(e) => Refused(e)
    case NodeRaised => NodeRaised
    case Ok(summary) =>
      match summary.values.decision
      case None => Refused(DecisionNotAvailable)
      case Some(d) => Ok(Rationale(id, d.outcome, d.rationale, d.reasons, d.decidedBy))
  }

  datatype Call =
    | Start(sv: Services, application: Application, correlationId: string)
    | Lookup(id: string)
    | Resolve(sv: Services, id: string, resolution: Resolution)
    | Explain(id: string)

  /** The run a call is about. */
  function Subject(call: Call): string {
    match call
    case Start(_, a, _) => a.id
    case Lookup(id) => id
    case Resolve(_, id, _) => id
    case Explain(id) => id
  }

  /** Why a call is refused before it does anything, if it is. */
  function Refusal(store: Store, call: Call): Option<Error> {
    match call
    case Start(_, _, _) => None
    case Lookup(id) => if id !in store then Some(ApplicationNotFound) else None
    case Resolve(_, id, _) =>
      if id !in store then Some(ApplicationNotFound)
      else if store[id].next.None? then Some(ApplicationNotAwaitingEscalation)
      else None
    case Explain(id) =>
      if id !in store then Some(ApplicationNotFound)
      else if store[id].values.decision.None? then Some(DecisionNotAvailable)
      else None
  }

  /** The graph run a call starts or resumes; None for a call that is refused or only reads. */
  function Work(w: World, store: Store, call: Call): Option<Turn> {
    match call
    case Start(sv, a, correlationId) => Some(Invoke(w, sv, Fresh(a, correlationId), None))
    case Resolve(sv, id, r) =>
      if Refusal(store, call).Some? then None else Some(Invoke(w, sv, store[id], Some(r)))
    case _ => None
  }

  /** The store after a call. */
  function Stored(w: World, store: Store, call: Call): Store {
    match Work(w, store, call)
    case None => store
    case Some(t) => store[Subject(call) := t.c]
  }

  // ----- The service -----

  class ApplicationService {
    const w: World
    var store: Store
    var log: seq<AuditEvent>

    constructor (w: World)
      ensures this.w == w && store == map[] && log == []
    {
      this.w := w;
      store := map[];
      log := [];
    }

    /** Runs the graph on a checkpoint and stores what it leaves, also when a node raises. */
    method RunGraph(sv: Services, id: string, c: Checkpoint, resume: Option<Resolution>) returns (how: How)
      modifies this`store, this`log
      ensures var t := Invoke(w, sv, c, resume);
              && how == t.how
              && store == old(store)[id := t.c]
              && log == old(log) + t.log
    {
      var t := Invoke(w, sv, c, resume);
      store := store[id := t.c];
      log := log + t.log;
      how := t.how;
    }

    method StartApplication(sv: Services, a: Application, correlationId: string) returns (reply: Reply<Summary>)
      requires a.id !in store
      modifies this`store, this`log
      ensures store == Stored(w, old(store), Start(sv, a, correlationId))
      ensures var t := Work(w, old(store), Start(sv, a, correlationId)).value;
              && log == old(log) + t.log
              && reply == if t.how.Raised? then NodeRaised else Get(store, a.id)
    {
      var how := RunGraph(sv, a.id, Fresh(a, correlationId), None);
      if how == Raised {
        return NodeRaised;
      }
      reply := GetApplication(a.id);
    }

    method GetApplication(id: string) returns (reply: Reply<Summary>)
      ensures reply == Get(store, id)
    {
      if id !in store {
        return Refused(ApplicationNotFound);
      }
      var c := store[id];
      var paused := c.next.Some?;
      var pending: Option<Payload> := None;
      if paused {
        for n := 0 to |c.interrupts|
          invariant pending == Pending(c.interrupts[..n])
        {
          pending := Some(c.interrupts[n]);
          assert c.interrupts[..n + 1][n] == c.interrupts[n];
        }
        assert c.interrupts[..|c.interrupts|] == c.interrupts;
      }
      var status := if paused then AwaitingEscalation else AsStored(c.values.status);
      reply := Ok(Summary(id, status, c.values, pending));
    }

    method ResolveEscalation(sv: Services, id: string, r: Resolution) returns (reply: Reply<Summary>)
      modifies this`store, this`log
      ensures store == Stored(w, old(store), Resolve(sv, id, r))
      ensures match Work(w, old(store), Resolve(sv, id, r))
              case None =>
                && store == old(store) && log == old(log)
                && Refusal(old(store), Resolve(sv, id, r)).Some?
                && reply == Refused(Refusal(old(store), Resolve(sv, id, r)).value)
              case Some(t) =>
                && log == old(log) + t.log
                && reply == if t.how.Raised? then NodeRaised else Get(store, id)
    {
      if id !in store {
        return Refused(ApplicationNotFound);
      }
      if store[id].next.None? {
        return Refused(ApplicationNotAwaitingEscalation);
      }
      var how := RunGraph(sv, id, store[id], Some(r));
      if how == Raised {
        return NodeRaised;
      }
      reply := GetApplication(id);
    }

    method GetRationale(id: string) returns (reply: Reply<Rationale>)
      ensures reply == GetRationaleOf(store, id)
    {
      var summary := GetApplication(id);
      if !summary.Ok? {
        return Refused(summary.error);
      }
      var decision := summary.value.values.decision;
      if decision.None? {
        return Refused(DecisionNotAvailable);
      }
      var d := decision.value;
      reply := Ok(Rationale(id, d.outcome, d.rationale, d.reasons, d.decidedBy));
    }
  }

  // ----- Sequences of calls -----

  /** A start uses a fresh id. */
  predicate FreshId(store: Store, call: Call) { call.Start? ==> call.application.id !in store }

  /** A node raises in the run that the call starts or resumes. */
  predicate Raises(w: World, store: Store, call: Call) {
    match Work(w, store, call)
    case None => false
    case Some(t) => t.how.Raised?
  }

  predicate Undisturbed(w: World, store: Store, call: Call) {
    FreshId(store, call) && !Raises(w, store, call)
  }

  function StoreAfter(w: World, store: Store, calls: seq<Call>): Store
    decreases |calls|
  {
    if calls == [] then store else StoreAfter(w, Stored(w, store, calls[0]), calls[1..])
  }

  predicate AllFresh(w: World, store: Store, calls: seq<Call>)
    decreases |calls|
  {
    calls == [] || (FreshId(store, calls[0]) && AllFresh(w, Stored(w, store, calls[0]), calls[1..]))
  }

  predicate AllUndisturbed(w: World, store: Store, calls: seq<Call>)
    decreases |calls|
  {
    calls == [] || (Undisturbed(w, store, calls[0]) && AllUndisturbed(w, Stored(w, store, calls[0]), calls[1..]))
  }

  /** Finished, or waiting for a reviewer who is shown why. */
  predicate Settled(c: Checkpoint) { c.next.None? || AtPause(c) }

  ghost predicate SoundStore(w: World, store: Store) {
    forall id | id in store :: Sound(w, store[id]) && store[id].values.applicationId == id && Settled(store[id])
  }

  lemma {:induction false} CallKeepsSoundStore(w: World, store: Store, call: Call)
    requires SoundStore(w, store) && Undisturbed(w, store, call)
    ensures SoundStore(w, Stored(w, store, call))
  {
    hide Sound, Invoke, AtPause;
    match call
    case Start(sv, a, correlationId) =>
      var c := Fresh(a, correlationId);
      FreshIsSound(w, a, correlationId);
      InvokeKeepsSound(w, sv, c, None);
      InvokeLogs(w, sv, c, None);
    case Resolve(sv, id, r) =>
      if Refusal(store, call).None? {
        InvokeKeepsSound(w, sv, store[id], Some(r));
        InvokeLogs(w, sv, store[id], Some(r));
      }
    case _ =>
  }

  lemma {:induction false} CallsKeepSoundStore(w: World, store: Store, calls: seq<Call>)
    requires SoundStore(w, store) && AllUndisturbed(w, store, calls)
    ensures SoundStore(w, StoreAfter(w, store, calls))
    decreases |calls|
  {
    hide SoundStore, Undisturbed, Stored;
    if calls != [] {
      CallKeepsSoundStore(w, store, calls[0]);
      CallsKeepSoundStore(w, Stored(w, store, calls[0]), calls[1..]);
    }
  }

  /** The service after any calls in a row, from an empty store. */
  lemma {:induction false} ServiceIsSound(w: World, calls: seq<Call>)
    requires AllUndisturbed(w, map[], calls)
    ensures SoundStore(w, StoreAfter(w, map[], calls))
  {
    CallsKeepSoundStore(w, map[], calls);
  }

  // ----- One resolution per run -----

  predicate Accepts(store: Store, call: Call, id: string) {
    call.Resolve? && call.id == id && Refusal(store, call).None?
  }

  /** How many of the calls are resolutions of `id` that are accepted. */
  function Accepted(w: World, store: Store, calls: seq<Call>, id: string): nat
    decreases |calls|
  {
    if calls == [] then 0
    else (if Accepts(store, calls[0], id) then 1 else 0) + Accepted(w, Stored(w, store, calls[0]), calls[1..], id)
  }

  /** How many of those end in a node's exception. */
  function Failed(w: World, store: Store, calls: seq<Call>, id: string): nat
    decreases |calls|
  {
    if calls == [] then 0
    else (if Accepts(store, calls[0], id) && Raises(w, store, calls[0]) then 1 else 0)
         + Failed(w, Stored(w, store, calls[0]), calls[1..], id)
  }

  predicate Finished(store: Store, id: string) { id in store && store[id].next.None? }

  lemma {:induction false} CallOnFinished(w: World, store: Store, call: Call, id: string)
    requires Finished(store, id) && FreshId(store, call)
    ensures id in Stored(w, store, call) && Stored(w, store, call)[id] == store[id]
  {
    hide Invoke;
  }

  /** A resolution that is accepted finishes the run exactly when no node raises. */
  lemma {:induction false} AcceptedFinishesIff(w: World, store: Store, call: Call)
    requires call.Resolve? && Refusal(store, call).None?
    ensures Finished(Stored(w, store, call), call.id) <==> !Raises(w, store, call)
  {
    hide Invoke;
    InvokeLogs(w, call.sv, store[call.id], Some(call.resolution));
    RaisedIsUnfinished(w, call.sv, store[call.id], Some(call.resolution));
  }

  lemma {:induction false} RaisedIsUnfinished(w: World, sv: Services, c: Checkpoint, resume: Option<Resolution>)
    ensures Invoke(w, sv, c, resume).how.Raised? ==>
              && Invoke(w, sv, c, resume).c.next.Some?
              && (Invoke(w, sv, c, resume).c == c || Invoke(w, sv, c, resume).c.interrupts == [])
    decreases 7 - Stage(c.next)
  {
    hide RunNode;
    MovingAdvances(w, sv, c, resume);
    var t := Superstep(w, sv, c, resume);
    if c.next.Some? && t.how.Moved? { RaisedIsUnfinished(w, sv, t.c, resume); }
  }

  /**
   A run accepts one resolution, and one more for every accepted resolution in which a node raised; none
   once it has finished. Nodes may raise in any of the calls.
   */
  lemma {:induction false} AcceptedResolutions(w: World, store: Store, calls: seq<Call>, id: string)
    requires AllFresh(w, store, calls)
    ensures Accepted(w, store, calls, id) <= 1 + Failed(w, store, calls, id)
    ensures Finished(store, id) ==> Accepted(w, store, calls, id) == 0
    decreases |calls|
  {
    hide Stored, FreshId, Raises, Refusal;
    if calls != [] {
      AcceptedResolutions(w, Stored(w, store, calls[0]), calls[1..], id);
      if Finished(store, id) {
        CallOnFinished(w, store, calls[0], id);
        FinishedRefuses(store, calls[0], id);
      }
      if Accepts(store, calls[0], id) { AcceptedFinishesIff(w, store, calls[0]); }
    }
  }

  lemma {:induction false} FinishedRefuses(store: Store, call: Call, id: string)
    requires Finished(store, id)
    ensures !Accepts(store, call, id)
  {
  }

  /** So a run accepts at most one resolution, unless a node raises in one. */
  lemma {:induction false} AtMostOneResolution(w: World, store: Store, calls: seq<Call>, id: string)
    requires AllFresh(w, store, calls) && Failed(w, store, calls, id) == 0
    ensures Accepted(w, store, calls, id) <= 1
  {
    AcceptedResolutions(w, store, calls, id);
  }

  /** A finished run, decision included, is never touched again, whatever happens to other runs. */
  lemma {:induction false} FinishedRunsNeverChange(w: World, store: Store, calls: seq<Call>, id: string)
    requires Finished(store, id) && AllFresh(w, store, calls)
    ensures id in StoreAfter(w, store, calls) && StoreAfter(w, store, calls)[id] == store[id]
    decreases |calls|
  {
    hide Stored, FreshId;
    if calls != [] {
      CallOnFinished(w, store, calls[0], id);
      FinishedRunsNeverChange(w, Stored(w, store, calls[0]), calls[1..], id);
    }
  }

  /** Every stored run meets the invariant of runs, belongs to its id, and was not left before the last node. */
  predicate SoundRuns(w: World, store: Store) {
    forall id | id in store ::
      && Sound(w, store[id])
      && store[id].values.applicationId == id
      && store[id].next != Some(DecisionOutput)
  }

  /** The last node cannot fail, so no run is left in front of it. */
  lemma {:induction false} LastNodeRuns(w: World, sv: Services, c: Checkpoint, resume: Option<Resolution>)
    requires Sound(w, c)
    ensures Invoke(w, sv, c, resume).c.next != Some(DecisionOutput)
    decreases 7 - Stage(c.next)
  {
    hide Sound, RunNode;
    StepKeepsSound(w, sv, c, resume);
    MovingAdvances(w, sv, c, resume);
    if c.next == Some(DecisionOutput) { OutputMoves(w, sv, c, resume); }
    var t := Superstep(w, sv, c, resume);
    if c.next.Some? && t.how.Moved? { LastNodeRuns(w, sv, t.c, resume); }
  }

  lemma {:induction false} OutputMoves(w: World, sv: Services, c: Checkpoint, resume: Option<Resolution>)
    requires Sound(w, c) && c.next == Some(DecisionOutput)
    ensures Superstep(w, sv, c, resume).how.Moved?
  {
    hide GoodTrail, Derived, Event, FinalDetails;
  }

  lemma {:induction false} CallExtends(w: World, store: Store, call: Call, id: string)
    requires SoundRuns(w, store) && FreshId(store, call)
    ensures SoundRuns(w, Stored(w, store, call))
    ensures id in store ==> id in Stored(w, store, call) && Extends(store[id].values, Stored(w, store, call)[id].values)
  {
    hide Sound, Invoke, Extends;
    if id in store { ExtendsItself(store[id].values); }
    match call
    case Start(sv, a, correlationId) =>
      FreshIsSound(w, a, correlationId);
      InvokeKeepsSound(w, sv, Fresh(a, correlationId), None);
      InvokeKeepsId(w, sv, Fresh(a, correlationId), None);
      LastNodeRuns(w, sv, Fresh(a, correlationId), None);
    case Resolve(sv, i, r) =>
      if Refusal(store, call).None? {
        InvokeKeepsSound(w, sv, store[i], Some(r));
        InvokeKeepsId(w, sv, store[i], Some(r));
        LastNodeRuns(w, sv, store[i], Some(r));
      }
    case _ =>
  }

  lemma {:induction false} InvokeKeepsId(w: World, sv: Services, c: Checkpoint, resume: Option<Resolution>)
    requires Sound(w, c)
    ensures Invoke(w, sv, c, resume).c.values.applicationId == c.values.applicationId
  {
    hide Sound, Invoke;
    InvokeKeepsSound(w, sv, c, resume);
  }

  /**
   Over any calls, nodes raising or not: trails of stored runs only grow, and what a run holds, its
   resolution and its decision included, is never replaced.
   */
  lemma {:induction false} StoredRunsOnlyGrow(w: World, store: Store, calls: seq<Call>, id: string)
    requires SoundRuns(w, store) && AllFresh(w, store, calls) && id in store
    ensures SoundRuns(w, StoreAfter(w, store, calls)) && id in StoreAfter(w, store, calls)
    ensures Extends(store[id].values, StoreAfter(w, store, calls)[id].values)
    decreases |calls|
  {
    hide Stored, SoundRuns, Extends, FreshId;
    if calls == [] {
      ExtendsItself(store[id].values);
    } else {
      var next := Stored(w, store, calls[0]);
      CallExtends(w, store, calls[0], id);
      StoredRunsOnlyGrow(w, next, calls[1..], id);
      ExtendsChains(store[id].values, next[id].values, StoreAfter(w, store, calls)[id].values);
    }
  }

  // ----- Runs do not interfere -----

  function CallsOn(calls: seq<Call>, id: string): seq<Call>
    decreases |calls|
  {
    if calls == [] then []
    else (if Subject(calls[0]) == id then [calls[0]] else []) + CallsOn(calls[1..], id)
  }

  predicate AgreeOn(store: Store, other: Store, id: string) {
    (id in store <==> id in other) && (id in store ==> store[id] == other[id])
  }

  lemma {:induction false} CallIsLocal(w: World, store: Store, other: Store, call: Call, id: string)
    requires AgreeOn(store, other, id)
    ensures Subject(call) != id ==> AgreeOn(Stored(w, store, call), other, id)
    ensures Subject(call) == id ==> AgreeOn(Stored(w, store, call), Stored(w, other, call), id)
  {
    hide Invoke;
  }

  /** Given the answers of the services, what is stored for a run depends on the calls about that run alone. */
  lemma {:induction false} RunsAreIsolated(w: World, store: Store, other: Store, calls: seq<Call>, id: string)
    requires AgreeOn(store, other, id)
    ensures AgreeOn(StoreAfter(w, store, calls), StoreAfter(w, other, CallsOn(calls, id)), id)
    decreases |calls|
  {
    hide Stored, AgreeOn;
    if calls != [] {
      var call := calls[0];
      CallIsLocal(w, store, other, call, id);
      if Subject(call) == id {
        assert CallsOn(calls, id)[1..] == CallsOn(calls[1..], id);
        RunsAreIsolated(w, Stored(w, store, call), Stored(w, other, call), calls[1..], id);
      } else {
        assert CallsOn(calls, id) == CallsOn(calls[1..], id);
        RunsAreIsolated(w, Stored(w, store, call), other, calls[1..], id);
      }
    }
  }

  // ----- What the answers mean -----

  /** The rationale is there exactly when the run is reported completed, nodes raising or not. */
  lemma {:induction false} RationaleIffCompleted(w: World, calls: seq<Call>, id: string)
    requires AllFresh(w, map[], calls)
    ensures var store := StoreAfter(w, map[], calls);
            GetRationaleOf(store, id).Ok? <==>
            Get(store, id).Ok? && Get(store, id).value.status == AsStored(Completed)
  {
    hide GoodTrail, Derived, StoreAfter, AllFresh;
    AnyServiceIsSound(w, map[], calls);
  }

  lemma {:induction false} AnyServiceIsSound(w: World, store: Store, calls: seq<Call>)
    requires SoundRuns(w, store) && AllFresh(w, store, calls)
    ensures SoundRuns(w, StoreAfter(w, store, calls))
    decreases |calls|
  {
    hide Stored, SoundRuns, FreshId;
    if calls != [] {
      CallExtends(w, store, calls[0], "");
      AnyServiceIsSound(w, Stored(w, store, calls[0]), calls[1..]);
    }
  }

  /** Some call starts a run under this id. */
  ghost predicate Started(calls: seq<Call>, id: string) {
    exists k :: 0 <= k < |calls| && calls[k].Start? && calls[k].application.id == id
  }

  lemma {:induction false} StoredIffStarted(w: World, store: Store, calls: seq<Call>, id: string)
    ensures id in StoreAfter(w, store, calls) <==> id in store || Started(calls, id)
    decreases |calls|
  {
    hide Invoke;
    if calls != [] {
      StoredIffStarted(w, Stored(w, store, calls[0]), calls[1..], id);
      if k :| 0 <= k < |calls[1..]| && calls[1..][k].Start? && calls[1..][k].application.id == id {
        assert calls[k + 1] == calls[1..][k];
      }
      if k :| 0 <= k < |calls| && calls[k].Start? && calls[k].application.id == id {
        if k > 0 { assert calls[1..][k - 1] == calls[k]; }
      }
    }
  }

  /**
   Which error means what, after any calls, nodes raising or not: an id is unknown exactly if no call has started
   it; there is no rationale yet exactly if it was started and is not completed; and a resolution is refused exactly
   for an unknown id and for a completed run.
   */
  lemma {:induction false} ErrorsMean(w: World, calls: seq<Call>, id: string, sv: Services, r: Resolution)
    requires AllFresh(w, map[], calls)
    ensures var store := StoreAfter(w, map[], calls);
            var refused := Refusal(store, Resolve(sv, id, r));
            if !Started(calls, id) then
              && Get(store, id) == Refused(ApplicationNotFound)
              && GetRationaleOf(store, id) == Refused(ApplicationNotFound)
              && refused == Some(ApplicationNotFound)
            else
              && Get(store, id).Ok? && Get(store, id).value.applicationId == id
              && var completed := Get(store, id).value.status == AsStored(Completed);
                 && (!completed ==> GetRationaleOf(store, id) == Refused(DecisionNotAvailable))
                 && (completed ==> GetRationaleOf(store, id).Ok?)
                 && refused == (if completed then Some(ApplicationNotAwaitingEscalation) else None)
  {
    hide GoodTrail, Derived, StoreAfter, AllFresh, Started;
    StoredIffStarted(w, map[], calls, id);
    AnyServiceIsSound(w, map[], calls);
  }

  /**
   The rationale after a start in which no node raises: none while the run awaits a reviewer, and otherwise the
   explaining agent's own decision, in the words of the model, with the reasons of a denial or none.
   */
  lemma {:induction false} RationaleOfStart(
      w: World, store: Store, sv: Services, a: Application, correlationId: string)
    requires !Invoke(w, sv, Fresh(a, correlationId), None).how.Raised?
    ensures var t := Invoke(w, sv, Fresh(a, correlationId), None);
            var answer := GetRationaleOf(Stored(w, store, Start(sv, a, correlationId)), a.id);
            if Disposed(t) == Some(Escalate) then answer == Refused(DecisionNotAvailable)
            else
              && answer.Ok? && answer.value.applicationId == a.id
              && (answer.value.outcome.Approved? <==> Disposed(t) == Some(Approve))
              && answer.value.decidedBy == Agent(Explainability)
              && t.c.values.risk.Some? && t.c.values.policy.Some?
              && sv.explain(FactsOf(t.c.values.application, t.c.values.risk.value, t.c.values.policy.value, None))
                 == Some(answer.value.rationale)
              && if answer.value.outcome.Approved? then answer.value.reasons == []
                 else GivesReasons(answer.value.reasons, t.c.values.risk.value, t.c.values.policy.value.flags, false)
  {
    hide Invoke, Superstep, GoodTrail, Validated, PolicyOf, Assess, DetermineOutcome, GivesReasons, FactsOf, PayloadOf;
    var c := Fresh(a, correlationId);
    var t := Invoke(w, sv, c, None);
    FreshIsSound(w, a, correlationId);
    InvokeKeepsSound(w, sv, c, None);
    InvokeLogs(w, sv, c, None);
    InvokeFromInputs(w, sv, a, c, None);
    var s := t.c.values;
    if s.decision.Some? {
      SoundDecisions(w, t.c);
      VerdictIsExplained(s.application, s.risk.value, s.extracted.value, s.resolution);
      if s.decision.value.outcome.Denied? {
        DenialGivesReasons(s.application, s.risk.value, s.extracted.value, s.resolution);
      }
    }
  }

  /** Reported as awaiting a reviewer, with nothing to show one. */
  predicate LooksPaused(id: string, c: Checkpoint) {
    View(id, c).status.AwaitingEscalation? && View(id, c).pending.None?
  }

  /**
   After any call that starts or resumes a run: it looks paused without being so exactly when a node has
   raised, unless what raised was the pause itself, on an invalid resolution.
   */
  lemma {:induction false} LooksPausedIff(
      w: World, sv: Services, id: string, c: Checkpoint, resume: Option<Resolution>)
    requires Sound(w, c)
    ensures LooksPaused(id, Invoke(w, sv, c, resume).c) <==>
              && Invoke(w, sv, c, resume).how.Raised?
              && !(AtPause(c) && resume.Some? && !ValidResolution(resume.value))
  {
    hide Invoke, Sound, PayloadOf;
    InvokeLogs(w, sv, c, resume);
    RaisedIsUnfinished(w, sv, c, resume);
    InterruptsArePauses(w, c);
    if AtPause(c) { ResumedFirst(w, sv, c, resume); }
  }

  lemma {:induction false} InterruptsArePauses(w: World, c: Checkpoint)
    requires Sound(w, c)
    ensures c.interrupts == [] || AtPause(c)
  {
    hide GoodTrail, PolicyOf, Assess, Validated, DecisionFollows;
  }

  /** A paused run pauses again, rejects the resolution, or gets past the pause. */
  lemma {:induction false} ResumedFirst(w: World, sv: Services, c: Checkpoint, resume: Option<Resolution>)
    requires AtPause(c)
    ensures var t := Invoke(w, sv, c, resume);
            match resume
            case None => t.how.Paused?
            case Some(r) => if ValidResolution(r) then t.c.interrupts == [] else t.how.Raised? && t.c == c
  {
    hide PayloadOf, RequestEvent, ValidResolution, RunExplainability, RunDecisionOutput, Event;
    var t := Superstep(w, sv, c, resume);
    MovingAdvances(w, sv, c, resume);
    if t.how.Moved? {
      RaisedIsUnfinished(w, sv, t.c, resume);
      InvokeLogs(w, sv, t.c, resume);
      MovedHasNoInterrupts(w, sv, t.c, resume);
    }
  }

  lemma {:induction false} MovedHasNoInterrupts(w: World, sv: Services, c: Checkpoint, resume: Option<Resolution>)
    requires c.interrupts == []
    ensures Invoke(w, sv, c, resume).how.Moved? ==> Invoke(w, sv, c, resume).c.interrupts == []
    decreases 7 - Stage(c.next)
  {
    hide RunNode;
    MovingAdvances(w, sv, c, resume);
    var t := Superstep(w, sv, c, resume);
    if c.next.Some? && t.how.Moved? { MovedHasNoInterrupts(w, sv, t.c, resume); }
  }

  /**
   A run that has just been started looks paused without being so if and only if its application is
   invalid, extraction or the bureau does not answer in range, or the outcome gets no explanation.
   */
  lemma {:induction false} StartLooksPausedIff(w: World, sv: Services, a: Application, correlationId: string)
    ensures LooksPaused(a.id, Invoke(w, sv, Fresh(a, correlationId), None).c)
            <==> !(Answered(w, sv, a) && Told(w, sv, a, None))
  {
    hide Invoke, Answered, Told, LooksPaused;
    FreshIsSound(w, a, correlationId);
    LooksPausedIff(w, sv, a.id, Fresh(a, correlationId), None);
    RunsThroughIff(w, sv, a, correlationId, None);
  }

  /**
   A paused run that is resolved looks paused without being so if and only if the resolution is valid and
   the outcome gets no explanation.
   */
  lemma {:induction false} ResolveLooksPausedIff(w: World, sv: Services, id: string, c: Checkpoint, r: Resolution)
    requires Sound(w, c) && AtPause(c)
    ensures var s := c.values;
            LooksPaused(id, Invoke(w, sv, c, Some(r)).c) <==>
              && ValidResolution(r)
              && !Speaks(sv, FactsOf(s.application, s.risk.value, s.policy.value, Some(r)))
  {
    hide Invoke, Sound, PayloadOf, LooksPaused, Speaks;
    LooksPausedIff(w, sv, id, c, Some(r));
    ResolvedRaisesIff(w, sv, c, r);
  }

  lemma {:induction false} ResolvedRaisesIff(w: World, sv: Services, c: Checkpoint, r: Resolution)
    requires Sound(w, c) && AtPause(c)
    ensures var s := c.values;
            Invoke(w, sv, c, Some(r)).how.Raised? <==>
              !(ValidResolution(r) && Speaks(sv, FactsOf(s.application, s.risk.value, s.policy.value, Some(r))))
  {
    hide GoodTrail, Causes, RequestDetails, Event, PolicyOf, Assess, Validated, DetermineOutcome, FactsOf, ValidRisk,
      ValidResolution, PayloadOf, RequestEvent, Invoke;
    var answer := Some(r);
    var first := Superstep(w, sv, c, answer);
    InvokeSteps(w, sv, c, answer);
    if ValidResolution(r) {
      var second := Superstep(w, sv, first.c, answer);
      InvokeSteps(w, sv, first.c, answer);
      assert second.how.Moved? <==>
        Speaks(sv, FactsOf(c.values.application, c.values.risk.value, c.values.policy.value, answer));
      if second.how.Moved? {
        InvokeSteps(w, sv, second.c, answer);
        InvokeSteps(w, sv, Superstep(w, sv, second.c, answer).c, answer);
      }
    }
  }

  lemma {:induction false} InvokeSteps(w: World, sv: Services, c: Checkpoint, resume: Option<Resolution>)
    ensures var t := Superstep(w, sv, c, resume);
            Invoke(w, sv, c, resume).how
            == if c.next.None? || !t.how.Moved? then t.how else Invoke(w, sv, t.c, resume).how
  {
    hide Superstep;
    MovingAdvances(w, sv, c, resume);
  }

  /**
   A resolution of a run that is paused completes the run, if no node raises, with that reviewer's flag
   as its outcome and what the reviewer was shown as the request on record.
   */
  lemma {:induction false} ResolutionDecides(
      w: World, store: Store, sv: Services, id: string, r: Resolution)
    requires id in store && Sound(w, store[id]) && AtPause(store[id])
    requires !Invoke(w, sv, store[id], Some(r)).how.Raised?
    ensures var after := View(id, Stored(w, store, Resolve(sv, id, r))[id]);
            && after.status == AsStored(Completed)
            && after.values.resolution == Some(r)
            && after.values.request == View(id, store[id]).pending
            && after.values.decision.Some?
            && after.values.decision.value.decidedBy == HumanReviewer(r.reviewer)
            && (after.values.decision.value.outcome.Approved? <==> r.approve)
  {
    hide Invoke, GoodTrail, Derived, PayloadOf;
    var c := store[id];
    InvokeLogs(w, sv, c, Some(r));
    InvokeKeepsSound(w, sv, c, Some(r));
    EndOfEscalation(w, sv, c, r);
    SoundDecisions(w, Invoke(w, sv, c, Some(r)).c);
  }

  /** The services of a model that always fails to extract. */
  function Unreadable(): Services { Wording.Answering(Wording.LOW_DEBT).(extract := (text: string) => None) }

  /** Why the premise that no node raises is needed: a failed extraction leaves a run that looks paused. */
  lemma {:induction false} FailedRunLooksPaused(w: World)
    requires w.u.Valid()
    ensures var call := Start(Unreadable(), Wording.APPLICANT, "corr");
            var store := Stored(w, map[], call);
            && !Undisturbed(w, map[], call)
            && Get(store, "app").Ok?
            && Get(store, "app").value.status.AwaitingEscalation?
            && Get(store, "app").value.pending.None?
            && GetRationaleOf(store, "app") == Refused(DecisionNotAvailable)
  {
    hide Validated, ReceivedDetails;
    Wording.ApplicantIsValid(w.u);
    var c := Fresh(Wording.APPLICANT, "corr");
    var first := Superstep(w, Unreadable(), c, None);
    assert first.how.Moved? && first.c.next == Some(DocumentExtraction);
    assert Superstep(w, Unreadable(), first.c, None) == Turn(first.c, [], Raised);
    assert Invoke(w, Unreadable(), first.c, None) == Turn(first.c, [], Raised);
    assert Invoke(w, Unreadable(), c, None).c == first.c;
  }
}
