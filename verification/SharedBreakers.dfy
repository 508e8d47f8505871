/**
 Runs behind the breakers that all runs of a process share. The chat model and the bureau are called through
 the retry loop and their breaker, so whether a node gets an answer depends on what earlier runs left behind.
 One run at a time; a service answers, or raises, alike in all attempts of one call, as the mocks do.
 */
module SharedBreakers {
  import opened Wrappers
  import opened Audit
  import opened Domain
  import opened Extraction
  import opened Underwriting
  import opened Workflow
  import opened WorkflowRuns
  import opened PauseResume
  import opened OfflineRuns
  import opened Resilience
  import Retry

  // ----- What a process adds to its runs -----

  /** The breaker of the chat model, the breaker of the bureau, and the monotonic clock. */
  datatype Process = Process(llm: Fields, bureau: Fields, now: real)

  /** How long one attempt takes, and the wait after it should it be retried. */
  datatype Try = Try(takes: real, wait: real)

  /** How long after the node before a node makes its call, and the attempts of that call. */
  datatype Pace = Pace(idle: real, tries: seq<Try>)

  const MAX_ATTEMPTS := 3

  predicate Paced(pace: Pace, maxWait: real) {
    && pace.idle >= 0.0 && |pace.tries| == MAX_ATTEMPTS
    && forall k | 0 <= k < |pace.tries| :: pace.tries[k].takes >= 0.0 && 0.0 <= pace.tries[k].wait <= maxWait
  }

  /** The pace of every node of a run is one that the two call sites allow. */
  ghost predicate Steady(tempo: Node -> Pace) {
    forall n: Node :: Paced(tempo(n), if n.RiskScoring? then Retry.BUREAU_MAX_WAIT else Retry.LLM_MAX_WAIT)
  }

  /** The call a node makes. */
  datatype Question = Nobody | Document(text: string) | Credit(name: string) | Rationale(facts: Facts)

  /** What the node that is to run asks; it makes no call if the validations before it fail. */
  function Asked(w: World, c: Checkpoint): Question {
    var s := c.values;
    match c.next
    case Some(DocumentExtraction) =>
      (match Validated(w.u, s.application)
       case Some(a) => Document(w.sanitize(a.document))
       case None => Nobody)
    case Some(RiskScoring) =>
      if s.extracted.None? || !ValidExtracted(s.extracted.value) then Nobody
      else
        (match Validated(w.u, s.application)
         case Some(a) => Credit(a.name)
         case None => Nobody)
    case Some(Explainability) =>
      if s.risk.None? || !ValidRisk(s.risk.value) || s.policy.None? then Nobody
      else if s.resolution.Some? && !ValidResolution(s.resolution.value) then Nobody
      else
        (match Validated(w.u, s.application)
         case Some(a) => Rationale(FactsOf(a, s.risk.value, s.policy.value, s.resolution))
         case None => Nobody)
    case _ => Nobody
  }

  /** The two services give the same answer to a question. */
  predicate SameAnswer(one: Services, other: Services, q: Question) {
    match q
    case Nobody => true
    case Document(text) => one.extract(text) == other.extract(text)
    case Credit(name) => one.bureau(name) == other.bureau(name)
    case Rationale(facts) => one.explain(facts) == other.explain(facts)
  }

  /** A node depends on the services only through the one question it asks. */
  lemma {:induction false} NodeAsksOneThing(
      w: World, one: Services, other: Services, c: Checkpoint, resume: Option<Resolution>)
    requires SameAnswer(one, other, Asked(w, c))
    ensures Superstep(w, one, c, resume) == Superstep(w, other, c, resume)
  {
    hide Validated, ValidExtracted, ValidRisk, ValidResolution, FactsOf, Event, RunHumanEscalation;
  }

  // ----- Calls through the breakers -----

  function Script(fn: FnOutcome, tries: seq<Try>): seq<Retry.Attempt> {
    seq(|tries|, k requires 0 <= k < |tries| => Retry.Attempt(tries[k].takes, fn, tries[k].wait))
  }

  /** The wrapped call of a service that answers, or raises, in every attempt. */
  function Through(c: Config, f: Fields, now: real, answers: bool, tries: seq<Try>): Retry.Outcome
    requires tries != []
  {
    Retry.Wrapped(c, f, now, Script(if answers then Returns(0) else Raises(0), tries))
  }

  predicate HasAnswer(sv: Services, q: Question) {
    match q
    case Nobody => true
    case Document(text) => sv.extract(text).Some?
    case Credit(name) => sv.bureau(name).Some?
    case Rationale(facts) => sv.explain(facts).Some?
  }

  /** The wrapped call for a question that is asked in a process. */
  function Asking(sv: Services, q: Question, p: Process, pace: Pace): Retry.Outcome
    requires pace.tries != []
  {
    if q.Credit? then Through(Retry.BUREAU, p.bureau, p.now + pace.idle, HasAnswer(sv, q), pace.tries)
    else Through(Retry.LLM, p.llm, p.now + pace.idle, HasAnswer(sv, q), pace.tries)
  }

  /** The process after the question. */
  function Next(sv: Services, q: Question, p: Process, pace: Pace): Process
    requires pace.tries != []
  {
    if q.Nobody? then p.(now := p.now + pace.idle)
    else
      var o := Asking(sv, q, p, pace);
      if q.Credit? then p.(bureau := o.fields, now := o.now) else p.(llm := o.fields, now := o.now)
  }

  /** The services as a node sees them from behind the breakers. */
  function Behind(sv: Services, p: Process, pace: Pace): Services
    requires pace.tries != []
  {
    Services(
      text => if Asking(sv, Document(text), p, pace).result.Value? then sv.extract(text) else None,
      name => if Asking(sv, Credit(name), p, pace).result.Value? then sv.bureau(name) else None,
      facts => if Asking(sv, Rationale(facts), p, pace).result.Value? then sv.explain(facts) else None)
  }

  /** `graph.invoke` in a process: the turn, and the process it leaves. */
  function InvokeBehind(w: World, sv: Services, c: Checkpoint, resume: Option<Resolution>,
                        p: Process, tempo: Node -> Pace): (Turn, Process)
    requires Steady(tempo)
    decreases 7 - Stage(c.next)
  {
    match c.next
    case None => (Superstep(w, sv, c, resume), p)
    case Some(n) =>
      var here := Behind(sv, p, tempo(n));
      var t := Superstep(w, here, c, resume);
      var after := Next(sv, Asked(w, c), p, tempo(n));
      if !t.how.Moved? then (t, after)
      else
        MovingAdvances(w, here, c, resume);
        var (rest, end) := InvokeBehind(w, sv, t.c, resume, after, tempo);
        (Turn(rest.c, t.log + rest.log, rest.how), end)
  }

  // ----- A run behind the breakers is a run -----

  /** The services agree on all that is asked from a stage on. */
  ghost predicate AgreeFrom(one: Services, other: Services, stage: nat) {
    && (stage <= 1 ==> one.extract == other.extract)
    && (stage <= 2 ==> one.bureau == other.bureau)
    && (stage <= 5 ==> one.explain == other.explain)
  }

  lemma {:induction false} AgreeFromAnswers(w: World, one: Services, other: Services, c: Checkpoint)
    requires AgreeFrom(one, other, Stage(c.next))
    ensures SameAnswer(one, other, Asked(w, c))
  {
    hide Validated, ValidExtracted, ValidRisk, ValidResolution, FactsOf;
  }

  lemma {:induction false} InvokeAgrees(
      w: World, one: Services, other: Services, c: Checkpoint, resume: Option<Resolution>)
    requires AgreeFrom(one, other, Stage(c.next))
    ensures Invoke(w, one, c, resume) == Invoke(w, other, c, resume)
    decreases 7 - Stage(c.next)
  {
    hide Superstep, Asked, SameAnswer;
    AgreeFromAnswers(w, one, other, c);
    NodeAsksOneThing(w, one, other, c, resume);
    MovingAdvances(w, one, c, resume);
    var t := Superstep(w, one, c, resume);
    if c.next.Some? && t.how.Moved? { InvokeAgrees(w, one, other, t.c, resume); }
  }

  /** `later`, with what `n` asks answered as `here` does. */
  function Adopt(n: Node, here: Services, later: Services): Services {
    match n
    case DocumentExtraction => later.(extract := here.extract)
    case RiskScoring => later.(bureau := here.bureau)
    case Explainability => later.(explain := here.explain)
    case _ => later
  }

  /** The services as the whole run sees them. */
  function Seen(w: World, sv: Services, c: Checkpoint, resume: Option<Resolution>,
                p: Process, tempo: Node -> Pace): Services
    requires Steady(tempo)
    decreases 7 - Stage(c.next)
  {
    match c.next
    case None => sv
    case Some(n) =>
      var here := Behind(sv, p, tempo(n));
      var t := Superstep(w, here, c, resume);
      if !t.how.Moved? then here
      else
        MovingAdvances(w, here, c, resume);
        Adopt(n, here, Seen(w, sv, t.c, resume, Next(sv, Asked(w, c), p, tempo(n)), tempo))
  }

  lemma {:induction false} AdoptAnswers(w: World, here: Services, later: Services, c: Checkpoint)
    requires c.next.Some?
    ensures SameAnswer(Adopt(c.next.value, here, later), here, Asked(w, c))
    ensures forall stage: nat | stage > Stage(c.next) :: AgreeFrom(Adopt(c.next.value, here, later), later, stage)
  {
    hide Validated, ValidExtracted, ValidRisk, ValidResolution, FactsOf;
  }

  /** What `seen` answers, `sv` answers too. */
  ghost predicate Withholds(seen: Services, sv: Services) {
    && (forall text :: seen.extract(text).Some? ==> seen.extract(text) == sv.extract(text))
    && (forall name :: seen.bureau(name).Some? ==> seen.bureau(name) == sv.bureau(name))
    && (forall facts :: seen.explain(facts).Some? ==> seen.explain(facts) == sv.explain(facts))
  }

  /**
   Whatever state the breakers are in, a run behind them is a run of the graph with services that withhold some
   of the answers: all that holds of runs for arbitrary services holds of runs behind the breakers.
   */
  lemma {:induction false} BreakersOnlyWithhold(
      w: World, sv: Services, c: Checkpoint, resume: Option<Resolution>, p: Process, tempo: Node -> Pace)
    requires Steady(tempo)
    ensures var seen := Seen(w, sv, c, resume, p, tempo);
            && InvokeBehind(w, sv, c, resume, p, tempo).0 == Invoke(w, seen, c, resume)
            && Withholds(seen, sv)
    decreases 7 - Stage(c.next)
  {
    hide Superstep, Asked, SameAnswer, Adopt, Asking, Next, AgreeFrom;
    if c.next.Some? {
      var n := c.next.value;
      var here := Behind(sv, p, tempo(n));
      var t := Superstep(w, here, c, resume);
      MovingAdvances(w, here, c, resume);
      if t.how.Moved? {
        var after := Next(sv, Asked(w, c), p, tempo(n));
        var later := Seen(w, sv, t.c, resume, after, tempo);
        BreakersOnlyWithhold(w, sv, t.c, resume, after, tempo);
        AdoptAnswers(w, here, later, c);
        AdoptWithholds(n, here, later, sv);
        NodeAsksOneThing(w, Adopt(n, here, later), here, c, resume);
        InvokeAgrees(w, Adopt(n, here, later), later, t.c, resume);
      }
    }
  }

  lemma {:induction false} AdoptWithholds(n: Node, here: Services, later: Services, sv: Services)
    requires Withholds(here, sv) && Withholds(later, sv)
    ensures Withholds(Adopt(n, here, later), sv)
  {
  }

  // ----- One call through a breaker -----

  /** The time between the first attempt and the last, if none gets through. */
  function PauseBeforeLast(tries: seq<Try>): real
    requires tries != []
    decreases |tries|
  {
    if |tries| == 1 then 0.0 else tries[0].wait + PauseBeforeLast(tries[1..])
  }

  /** The breaker is open, and the last attempt of a call made at `at` still comes before the timeout. */
  predicate StillOpen(c: Config, f: Fields, at: real, tries: seq<Try>)
    requires tries != []
  {
    f.state.Open? && at + PauseBeforeLast(tries) - f.openedAt < c.recoveryTimeout
  }

  lemma {:induction false} ScriptPauses(fn: FnOutcome, tries: seq<Try>)
    requires tries != []
    ensures Retry.WaitsBeforeLast(Script(fn, tries)) == PauseBeforeLast(tries)
    decreases |tries|
  {
    if |tries| > 1 {
      ScriptPauses(fn, tries[1..]);
      assert Script(fn, tries)[1..] == Script(fn, tries[1..]);
    }
  }

  /** A call on a breaker between calls: rejected, answered or failed. */
  lemma {:induction false} OneCall(c: Config, f: Fields, at: real, answers: bool, pace: Pace, maxWait: real)
    requires Paced(pace, maxWait) && Retry.Matched(c, MAX_ATTEMPTS, maxWait) && Retry.Settled(c, f)
    ensures var o := Through(c, f, at, answers, pace.tries);
            && Retry.Settled(c, o.fields)
            && (o.result.Value? <==> answers && !StillOpen(c, f, at, pace.tries))
            && (StillOpen(c, f, at, pace.tries) ==> o.fields == f)
            && (o.result.Value? ==> o.fields == Fields(Closed, 0, f.openedAt))
            && (!answers && !StillOpen(c, f, at, pace.tries) ==> Retry.Tripped(c, o.fields, o.now))
            && (!answers && f.state.Closed? ==> o.fields.openedAt == o.now)
  {
    hide Retry.Wrapped, Retry.WaitsBeforeLast, PauseBeforeLast, Retry.Waits;
    var fn := if answers then Returns(0) else Raises(0);
    var script := Script(fn, pace.tries);
    ScriptPauses(fn, pace.tries);
    Retry.RunsUnlessShutOut(c, f, at, script, maxWait);
    if answers {
      Retry.ReturningCall(c, f, at, script, maxWait);
    } else {
      Retry.RaisingCall(c, f, at, script, maxWait);
    }
  }

  // ----- Runs that the breakers do not notice -----

  /** Closed with a clean count. */
  predicate Ready(f: Fields) { f.state.Closed? && f.failures == 0 }

  /** The bureau and the explaining task always answer, as the mocks do. */
  ghost predicate Willing(sv: Services) {
    (forall name :: sv.bureau(name).Some?) && (forall facts :: sv.explain(facts).Some?)
  }

  /** If the run is still in front of extraction and gets there, its document is read without an exception. */
  predicate Readable(w: World, sv: Services, c: Checkpoint) {
    Stage(c.next) <= 1 ==>
      match Validated(w.u, c.values.application)
      case None => true
      case Some(a) => sv.extract(w.sanitize(a.document)).Some?
  }

  lemma {:induction false} StepKeepsReadable(
      w: World, sv: Services, here: Services, c: Checkpoint, resume: Option<Resolution>)
    requires Readable(w, sv, c)
    ensures Readable(w, sv, Superstep(w, here, c, resume).c)
  {
    hide Validated, ValidExtracted, ValidRisk, ValidResolution, FactsOf, Event, RunHumanEscalation, RunRiskScoring,
      RunPolicyCompliance, RunExplainability, RunDecisionOutput;
    MovingAdvances(w, here, c, resume);
    if Validated(w.u, c.values.application).Some? { ValidatedIsStable(w.u, c.values.application); }
  }

  lemma {:induction false} ReadableHasAnswer(w: World, sv: Services, c: Checkpoint)
    requires Readable(w, sv, c) && Willing(sv)
    ensures HasAnswer(sv, Asked(w, c))
  {
    hide Validated, ValidExtracted, ValidRisk, ValidResolution, FactsOf;
  }

  /** A question that has an answer gets it, at once and without a trace, from breakers that are closed. */
  lemma {:induction false} AnsweredAtOnce(sv: Services, q: Question, n: Node, p: Process, tempo: Node -> Pace)
    requires Steady(tempo) && Ready(p.llm) && Ready(p.bureau) && HasAnswer(sv, q) && (q.Credit? <==> n.RiskScoring?)
    ensures var after := Next(sv, q, p, tempo(n));
            after.llm == p.llm && after.bureau == p.bureau && SameAnswer(Behind(sv, p, tempo(n)), sv, q)
  {
    hide Through, StillOpen;
    var pace := tempo(n);
    Retry.ShippedConstantsMatch();
    if q.Credit? {
      OneCall(Retry.BUREAU, p.bureau, p.now + pace.idle, true, pace, Retry.BUREAU_MAX_WAIT);
      ClosedIsNotOpen(Retry.BUREAU, p.bureau, p.now + pace.idle, pace.tries);
    } else {
      OneCall(Retry.LLM, p.llm, p.now + pace.idle, true, pace, Retry.LLM_MAX_WAIT);
      ClosedIsNotOpen(Retry.LLM, p.llm, p.now + pace.idle, pace.tries);
    }
  }

  lemma {:induction false} ClosedIsNotOpen(c: Config, f: Fields, at: real, tries: seq<Try>)
    requires f.state.Closed? && tries != []
    ensures !StillOpen(c, f, at, tries)
  {
  }

  lemma {:induction false} AskedAt(w: World, c: Checkpoint)
    ensures Asked(w, c).Credit? ==> c.next == Some(RiskScoring)
    ensures c.next == Some(RiskScoring) ==> Asked(w, c).Credit? || Asked(w, c).Nobody?
  {
    hide Validated, ValidExtracted, ValidRisk, ValidResolution, FactsOf;
  }

  /** With closed breakers and a readable document, a run is what it is without breakers, and leaves them so. */
  lemma {:induction false} Unhindered(
      w: World, sv: Services, c: Checkpoint, resume: Option<Resolution>, p: Process, tempo: Node -> Pace)
    requires Steady(tempo) && Willing(sv) && Readable(w, sv, c) && Ready(p.llm) && Ready(p.bureau)
    ensures var (t, after) := InvokeBehind(w, sv, c, resume, p, tempo);
            t == Invoke(w, sv, c, resume) && after.llm == p.llm && after.bureau == p.bureau
    decreases 7 - Stage(c.next)
  {
    hide Superstep, Asked, SameAnswer, HasAnswer, Readable, Next, Behind, Ready;
    if c.next.Some? {
      var n := c.next.value;
      var here, q := Behind(sv, p, tempo(n)), Asked(w, c);
      ReadableHasAnswer(w, sv, c);
      AskedAt(w, c);
      if q.Nobody? { NobodyNotices(sv, p, tempo(n)); } else { AnsweredAtOnce(sv, q, n, p, tempo); }
      NodeAsksOneThing(w, here, sv, c, resume);
      MovingAdvances(w, sv, c, resume);
      var t := Superstep(w, sv, c, resume);
      if t.how.Moved? {
        StepKeepsReadable(w, sv, sv, c, resume);
        Unhindered(w, sv, t.c, resume, Next(sv, q, p, tempo(n)), tempo);
      }
    }
  }

  lemma {:induction false} NobodyNotices(sv: Services, p: Process, pace: Pace)
    requires pace.tries != []
    ensures var after := Next(sv, Nobody, p, pace); after.llm == p.llm && after.bureau == p.bureau
    ensures SameAnswer(Behind(sv, p, pace), sv, Nobody)
  {
  }

  // ----- Runs that the breakers may hinder -----

  /** The run is in front of extraction, and its call will be made while the breaker of the model is open. */
  predicate Shut(c: Checkpoint, p: Process, tempo: Node -> Pace)
    requires tempo(DocumentExtraction).tries != []
  {
    var lead := if c.next == Some(Intake) then tempo(Intake).idle else 0.0;
    StillOpen(Retry.LLM, p.llm, p.now + lead + tempo(DocumentExtraction).idle, tempo(DocumentExtraction).tries)
  }

  /** A process between runs, when the bureau has always answered. */
  predicate Rested(p: Process) { Ready(p.bureau) && Retry.Settled(Retry.LLM, p.llm) }

  /** The outcome of a run that asks for an extraction. */
  ghost predicate Extracting(
      w: World, sv: Services, c: Checkpoint, a: Application, resume: Option<Resolution>, p: Process,
      tempo: Node -> Pace)
    requires Steady(tempo)
  {
    var (t, after) := InvokeBehind(w, sv, c, resume, p, tempo);
    && after.bureau == p.bureau
    && if Shut(c, p, tempo) then
         t.how.Raised? && t.c.next == Some(DocumentExtraction) && after.llm == p.llm
       else
         && t == Invoke(w, sv, c, resume)
         && if sv.extract(w.sanitize(a.document)).Some? then Ready(after.llm)
            else Retry.Tripped(Retry.LLM, after.llm, after.now)
                 && (p.llm.state.Closed? ==> after.llm.openedAt == after.now)
  }

  lemma {:induction false} NoExtraction(w: World, sv: Services, c: Checkpoint, resume: Option<Resolution>)
    requires c.next == Some(DocumentExtraction) && Validated(w.u, c.values.application).Some?
    requires sv.extract(w.sanitize(Validated(w.u, c.values.application).value.document)).None?
    ensures Superstep(w, sv, c, resume) == Turn(c, [], Raised)
  {
    hide Validated;
  }

  lemma {:induction false} AtExtraction(
      w: World, sv: Services, c: Checkpoint, resume: Option<Resolution>, p: Process, tempo: Node -> Pace)
    requires Steady(tempo) && Willing(sv) && Rested(p)
    requires c.next == Some(DocumentExtraction) && Validated(w.u, c.values.application).Some?
    ensures Extracting(w, sv, c, Validated(w.u, c.values.application).value, resume, p, tempo)
  {
    hide Superstep, Through, StillOpen, Validated;
    var pace := tempo(DocumentExtraction);
    var text := w.sanitize(Validated(w.u, c.values.application).value.document);
    var here, q := Behind(sv, p, pace), Asked(w, c);
    assert q == Document(text);
    Retry.ShippedConstantsMatch();
    OneCall(Retry.LLM, p.llm, p.now + pace.idle, HasAnswer(sv, q), pace, Retry.LLM_MAX_WAIT);
    if !Shut(c, p, tempo) { NodeAsksOneThing(w, here, sv, c, resume); }
    if here.extract(text).None? {
      NoExtraction(w, here, c, resume);
    } else {
      var t, after := Superstep(w, here, c, resume), Next(sv, q, p, pace);
      MovingAdvances(w, here, c, resume);
      if t.how.Moved? { Unhindered(w, sv, t.c, resume, after, tempo); }
    }
  }

  lemma {:induction false} IntakeStep(w: World, sv: Services, c: Checkpoint, resume: Option<Resolution>)
    requires c.next == Some(Intake)
    ensures Asked(w, c).Nobody?
    ensures var t := Superstep(w, sv, c, resume);
            match Validated(w.u, c.values.application)
            case None => t.how.Raised?
            case Some(a) =>
              t.how.Moved? && t.c.next == Some(DocumentExtraction) && Validated(w.u, t.c.values.application) == Some(a)
  {
    hide Validated, Event;
    if Validated(w.u, c.values.application).Some? { ValidatedIsStable(w.u, c.values.application); }
  }

  /** An invalid application is turned away before the model is asked. */
  lemma {:induction false} InvalidBehind(
      w: World, sv: Services, a: Application, correlationId: string, resume: Option<Resolution>, p: Process,
      tempo: Node -> Pace)
    requires Steady(tempo) && Validated(w.u, a).None?
    ensures var (t, after) := InvokeBehind(w, sv, Fresh(a, correlationId), resume, p, tempo);
            && t == Invoke(w, sv, Fresh(a, correlationId), resume) && t.how.Raised?
            && after.llm == p.llm && after.bureau == p.bureau
  {
    hide Superstep, Asked, Validated;
    var c := Fresh(a, correlationId);
    IntakeStep(w, sv, c, resume);
    NodeAsksOneThing(w, Behind(sv, p, tempo(Intake)), sv, c, resume);
    NobodyNotices(sv, p, tempo(Intake));
  }

  /**
   Starting a valid application: if the breaker of the model is open and still is at the last attempt, the run
   is stuck in front of extraction, whatever its document. If not, it is the run without breakers, and leaves the
   breaker closed when the document was read and tripped when it was not.
   */
  lemma {:induction false} StartBehind(
      w: World, sv: Services, a: Application, correlationId: string, resume: Option<Resolution>, p: Process,
      tempo: Node -> Pace)
    requires Steady(tempo) && Willing(sv) && Rested(p) && Validated(w.u, a).Some?
    ensures Extracting(w, sv, Fresh(a, correlationId), Validated(w.u, a).value, resume, p, tempo)
  {
    hide Superstep, Asked, Validated, StillOpen;
    var c, here := Fresh(a, correlationId), Behind(sv, p, tempo(Intake));
    IntakeStep(w, sv, c, resume);
    NodeAsksOneThing(w, here, sv, c, resume);
    MovingAdvances(w, sv, c, resume);
    NobodyNotices(sv, p, tempo(Intake));
    var t, after := Superstep(w, sv, c, resume), Next(sv, Nobody, p, tempo(Intake));
    AtExtraction(w, sv, t.c, resume, after, tempo);
  }

  /**
   The offline configuration behind the shared breaker: no node raises if and only if the application is valid,
   its document parses, and the breaker is not open through the last attempt. A breaker that is closed is
   tripped by the run exactly if the application is valid and its document does not parse.
   */
  lemma {:induction false} OfflineBehindIff(
      w: World, digest: string -> nat, render: Facts -> string, a: Application, correlationId: string,
      resume: Option<Resolution>, p: Process, tempo: Node -> Pace)
    requires Renders(render) && (resume.Some? ==> ValidResolution(resume.value))
    requires Steady(tempo) && Rested(p)
    ensures var c := Fresh(a, correlationId);
            var (t, after) := InvokeBehind(w, Offline(w.u, digest, render), c, resume, p, tempo);
            var parses := Parses(w.u, w.sanitize(a.document));
            && (!t.how.Raised? <==> Validated(w.u, a).Some? && parses && !Shut(c, p, tempo))
            && (p.llm.state.Closed? ==> (after.llm.state.Open? <==> Validated(w.u, a).Some? && !parses))
            && Rested(after)
  {
    hide Invoke, InvokeBehind, Validated, Extract, CreditReport, StillOpen;
    var sv, c := Offline(w.u, digest, render), Fresh(a, correlationId);
    OfflineRunsThroughIff(w, digest, render, a, correlationId, resume);
    ValidationKeepsDocument(w.u, a);
    if Validated(w.u, a).None? {
      InvalidBehind(w, sv, a, correlationId, resume, p, tempo);
    } else {
      StartBehind(w, sv, a, correlationId, resume, p, tempo);
      if p.llm.state.Closed? { ClosedIsNotShut(c, p, tempo); }
    }
  }

  lemma {:induction false} ClosedIsNotShut(c: Checkpoint, p: Process, tempo: Node -> Pace)
    requires p.llm.state.Closed? && tempo(DocumentExtraction).tries != []
    ensures !Shut(c, p, tempo)
  {
  }

  lemma {:induction false} QuestionKeepsRested(sv: Services, q: Question, n: Node, p: Process, tempo: Node -> Pace)
    requires Steady(tempo) && Willing(sv) && Rested(p) && (q.Credit? ==> n.RiskScoring?)
    requires n.RiskScoring? ==> q.Credit? || q.Nobody?
    ensures Rested(Next(sv, q, p, tempo(n)))
  {
    hide Through, StillOpen;
    var pace := tempo(n);
    Retry.ShippedConstantsMatch();
    if q.Nobody? {
      NobodyNotices(sv, p, pace);
    } else if q.Credit? {
      OneCall(Retry.BUREAU, p.bureau, p.now + pace.idle, true, pace, Retry.BUREAU_MAX_WAIT);
      ClosedIsNotOpen(Retry.BUREAU, p.bureau, p.now + pace.idle, pace.tries);
    } else {
      OneCall(Retry.LLM, p.llm, p.now + pace.idle, HasAnswer(sv, q), pace, Retry.LLM_MAX_WAIT);
    }
  }

  /** Whatever run is started or resumed, the bureau's breaker stays closed and the model's between calls. */
  lemma {:induction false} RunsKeepRested(
      w: World, sv: Services, c: Checkpoint, resume: Option<Resolution>, p: Process, tempo: Node -> Pace)
    requires Steady(tempo) && Willing(sv) && Rested(p)
    ensures Rested(InvokeBehind(w, sv, c, resume, p, tempo).1)
    decreases 7 - Stage(c.next)
  {
    hide Superstep, Asked, Next, Rested, Behind;
    if c.next.Some? {
      var n := c.next.value;
      var here := Behind(sv, p, tempo(n));
      AskedAt(w, c);
      QuestionKeepsRested(sv, Asked(w, c), n, p, tempo);
      MovingAdvances(w, here, c, resume);
      var t := Superstep(w, here, c, resume);
      if t.how.Moved? { RunsKeepRested(w, sv, t.c, resume, Next(sv, Asked(w, c), p, tempo(n)), tempo); }
    }
  }

  // ----- Resolutions behind the breakers -----

  /** What the model is asked after a valid resolution. */
  function ToExplain(s: State, r: Resolution): Facts
    requires s.risk.Some? && s.policy.Some?
  {
    FactsOf(s.application, s.risk.value, s.policy.value, Some(r))
  }

  lemma {:induction false} ReviewStep(w: World, sv: Services, c: Checkpoint, r: Resolution)
    requires Sound(w, c) && AtPause(c)
    ensures Asked(w, c).Nobody?
    ensures var t := Superstep(w, sv, c, Some(r));
            if !ValidResolution(r) then t.how.Raised?
            else
              && t.how.Moved? && t.c.next == Some(Explainability) && t.c.values.resolution == Some(r)
              && Asked(w, t.c) == Rationale(ToExplain(c.values, r))
  {
    hide GoodTrail, Causes, RequestDetails, Event, PolicyOf, Assess, Validated, DetermineOutcome, FactsOf,
      ValidRisk, ValidResolution, PayloadOf, RequestEvent, DecisionFollows;
  }

  lemma {:induction false} NoExplanation(
      w: World, sv: Services, c: Checkpoint, facts: Facts, resume: Option<Resolution>)
    requires c.next == Some(Explainability) && Asked(w, c) == Rationale(facts) && sv.explain(facts).None?
    ensures Superstep(w, sv, c, resume) == Turn(c, [], Raised)
  {
    hide Validated, ValidRisk, ValidResolution, Event;
  }

  lemma {:induction false} AtExplanation(
      w: World, sv: Services, c: Checkpoint, facts: Facts, resume: Option<Resolution>, p: Process,
      tempo: Node -> Pace)
    requires Steady(tempo) && Willing(sv) && Rested(p)
    requires c.next == Some(Explainability) && Asked(w, c) == Rationale(facts)
    ensures var (t, after) := InvokeBehind(w, sv, c, resume, p, tempo);
            var pace := tempo(Explainability);
            if StillOpen(Retry.LLM, p.llm, p.now + pace.idle, pace.tries) then
              t == Turn(c, [], Raised) && after.llm == p.llm
            else
              t == Invoke(w, sv, c, resume) && Ready(after.llm)
  {
    hide Superstep, Asked, StillOpen, Through;
    var pace := tempo(Explainability);
    var here, q := Behind(sv, p, pace), Rationale(facts);
    Retry.ShippedConstantsMatch();
    OneCall(Retry.LLM, p.llm, p.now + pace.idle, true, pace, Retry.LLM_MAX_WAIT);
    if StillOpen(Retry.LLM, p.llm, p.now + pace.idle, pace.tries) {
      NoExplanation(w, here, c, facts, resume);
    } else {
      NodeAsksOneThing(w, here, sv, c, resume);
      MovingAdvances(w, sv, c, resume);
      var t, after := Superstep(w, sv, c, resume), Next(sv, q, p, pace);
      if t.how.Moved? { Unhindered(w, sv, t.c, resume, after, tempo); }
    }
  }

  /** The breaker of the model is open when the call that explains a resolved run is made. */
  predicate ShutLater(p: Process, tempo: Node -> Pace)
    requires tempo(Explainability).tries != []
  {
    StillOpen(Retry.LLM, p.llm, p.now + tempo(HumanEscalation).idle + tempo(Explainability).idle,
              tempo(Explainability).tries)
  }

  /**
   Resolving a paused run: a valid resolution is committed, but the run is then stuck in front of the
   explanation if the breaker of the model is open through its last attempt. If not, the run is the run without
   breakers.
   */
  lemma {:induction false} ResolveBehind(
      w: World, sv: Services, c: Checkpoint, r: Resolution, p: Process, tempo: Node -> Pace)
    requires Steady(tempo) && Willing(sv) && Rested(p)
    requires Sound(w, c) && AtPause(c) && ValidResolution(r)
    ensures var (t, after) := InvokeBehind(w, sv, c, Some(r), p, tempo);
            && t.c.values.resolution == Some(r)
            && if ShutLater(p, tempo) then
                 t.how.Raised? && t.c.next == Some(Explainability) && after.llm == p.llm
               else
                 t == Invoke(w, sv, c, Some(r)) && Ready(after.llm)
  {
    hide Superstep, Asked, Sound, PayloadOf, StillOpen, ToExplain, Behind, ValidResolution;
    var answer := Some(r);
    var first := Behind(sv, p, tempo(HumanEscalation));
    ReviewStep(w, sv, c, r);
    NodeAsksOneThing(w, first, sv, c, answer);
    MovingAdvances(w, sv, c, answer);
    NobodyNotices(sv, p, tempo(HumanEscalation));
    var t, between := Superstep(w, sv, c, answer), Next(sv, Nobody, p, tempo(HumanEscalation));
    AtExplanation(w, sv, t.c, ToExplain(c.values, r), answer, between, tempo);
    StepKeepsSound(w, sv, c, answer);
    InvokeKeepsSound(w, sv, t.c, answer);
  }
}
