/**
 The service in a process whose runs share the breakers: when runs are isolated from one another, and what one
 document can do to the runs of others.
 */
module SharedService {
  import opened Wrappers
  import opened CharTable
  import opened Regex
  import opened Audit
  import opened Domain
  import opened Extraction
  import opened Workflow
  import opened OfflineRuns
  import opened PauseResume
  import opened Resilience
  import opened Service
  import opened SharedBreakers
  import opened Underwriting
  import PayStub
  import PromptGuard
  import Retry
  import Wording

  // ----- Calls in a process -----

  /** A call, with the services behind the breakers, and the pace of the run it starts or resumes. */
  datatype Timed = Timed(call: Call, tempo: Node -> Pace)

  ghost predicate AllSteady(xs: seq<Timed>) {
    forall k | 0 <= k < |xs| :: Steady(xs[k].tempo)
  }

  function ServicesOf(call: Call): Option<Services> {
    match call
    case Start(sv, _, _) => Some(sv)
    case Resolve(sv, _, _) => Some(sv)
    case _ => None
  }

  /** The bureau and the explaining task answer in all the calls. */
  ghost predicate AllWilling(xs: seq<Timed>) {
    forall k | 0 <= k < |xs| :: ServicesOf(xs[k].call).Some? ==> Willing(ServicesOf(xs[k].call).value)
  }

  function Plain(xs: seq<Timed>): seq<Call> {
    if xs == [] then [] else [xs[0].call] + Plain(xs[1..])
  }

  /** The call as the graph gets it, with the services as its run sees them, and the process afterwards. */
  function Perceived(w: World, store: Store, p: Process, x: Timed): (Call, Process)
    requires Steady(x.tempo)
  {
    match x.call
    case Start(sv, a, correlationId) =>
      var c := Fresh(a, correlationId);
      (Start(Seen(w, sv, c, None, p, x.tempo), a, correlationId), InvokeBehind(w, sv, c, None, p, x.tempo).1)
    case Resolve(sv, id, r) =>
      if Refusal(store, x.call).Some? then (x.call, p)
      else
        var c := store[id];
        (Resolve(Seen(w, sv, c, Some(r), p, x.tempo), id, r), InvokeBehind(w, sv, c, Some(r), p, x.tempo).1)
    case _ => (x.call, p)
  }

  /** The store and the process after calls in a row. */
  function Served(w: World, store: Store, p: Process, xs: seq<Timed>): (Store, Process)
    requires AllSteady(xs)
    decreases |xs|
  {
    if xs == [] then (store, p)
    else
      var (call, after) := Perceived(w, store, p, xs[0]);
      Served(w, Stored(w, store, call), after, xs[1..])
  }

  function PerceivedCalls(w: World, store: Store, p: Process, xs: seq<Timed>): seq<Call>
    requires AllSteady(xs)
    decreases |xs|
  {
    if xs == [] then []
    else
      var (call, after) := Perceived(w, store, p, xs[0]);
      [call] + PerceivedCalls(w, Stored(w, store, call), after, xs[1..])
  }

  /** What a process serves is what the service does on calls with other services: its theorems apply. */
  lemma {:induction false} ServedIsService(w: World, store: Store, p: Process, xs: seq<Timed>)
    requires AllSteady(xs)
    ensures Served(w, store, p, xs).0 == StoreAfter(w, store, PerceivedCalls(w, store, p, xs))
    decreases |xs|
  {
    hide Stored, Perceived;
    if xs != [] {
      var (call, after) := Perceived(w, store, p, xs[0]);
      var rest := PerceivedCalls(w, Stored(w, store, call), after, xs[1..]);
      ServedIsService(w, Stored(w, store, call), after, xs[1..]);
      assert ([call] + rest)[1..] == rest;
    }
  }

  // ----- When the breakers are not noticed -----

  /** The checkpoint a call starts or resumes from. */
  function Begins(store: Store, call: Call): Option<Checkpoint> {
    match call
    case Start(_, a, correlationId) => Some(Fresh(a, correlationId))
    case Resolve(_, id, _) => if Refusal(store, call).Some? then None else Some(store[id])
    case _ => None
  }

  /** The run of the call gets to extraction, and its document makes the model raise. */
  predicate Poisons(w: World, store: Store, call: Call) {
    && Begins(store, call).Some? && ServicesOf(call).Some?
    && !Readable(w, ServicesOf(call).value, Begins(store, call).value)
  }

  predicate NonePoisons(w: World, store: Store, calls: seq<Call>)
    decreases |calls|
  {
    calls == [] || (!Poisons(w, store, calls[0]) && NonePoisons(w, Stored(w, store, calls[0]), calls[1..]))
  }

  lemma {:induction false} HarmlessCall(w: World, store: Store, p: Process, x: Timed)
    requires Steady(x.tempo) && Ready(p.llm) && Ready(p.bureau) && !Poisons(w, store, x.call)
    requires ServicesOf(x.call).Some? ==> Willing(ServicesOf(x.call).value)
    ensures var (call, after) := Perceived(w, store, p, x);
            && Stored(w, store, call) == Stored(w, store, x.call)
            && after.llm == p.llm && after.bureau == p.bureau
  {
    hide InvokeBehind, Invoke, Seen, Readable, Willing, Steady;
    match x.call
    case Start(sv, a, correlationId) =>
      var c := Fresh(a, correlationId);
      BreakersOnlyWithhold(w, sv, c, None, p, x.tempo);
      Unhindered(w, sv, c, None, p, x.tempo);
    case Resolve(sv, id, r) =>
      if Refusal(store, x.call).None? {
        BreakersOnlyWithhold(w, sv, store[id], Some(r), p, x.tempo);
        Unhindered(w, sv, store[id], Some(r), p, x.tempo);
      }
    case _ =>
  }

  /**
   From closed breakers, as long as no document makes the model raise, the breakers stay closed and everything
   is stored as if there were none.
   */
  lemma {:induction false} HarmlessCalls(w: World, store: Store, p: Process, xs: seq<Timed>)
    requires AllSteady(xs) && AllWilling(xs) && NonePoisons(w, store, Plain(xs)) && Ready(p.llm) && Ready(p.bureau)
    ensures var (served, after) := Served(w, store, p, xs);
            && served == StoreAfter(w, store, Plain(xs))
            && after.llm == p.llm && after.bureau == p.bureau
    decreases |xs|
  {
    hide Perceived, Stored, Poisons, Ready, Willing, Steady;
    if xs != [] {
      HarmlessCall(w, store, p, xs[0]);
      var (call, after) := Perceived(w, store, p, xs[0]);
      assert Plain(xs)[1..] == Plain(xs[1..]);
      HarmlessCalls(w, Stored(w, store, call), after, xs[1..]);
    }
  }

  /** So then runs are isolated: what is stored for an id is what the calls on that id alone would have stored. */
  lemma {:induction false} IsolatedWithoutPoison(
      w: World, store: Store, other: Store, p: Process, xs: seq<Timed>, id: string)
    requires AllSteady(xs) && AllWilling(xs) && NonePoisons(w, store, Plain(xs)) && Ready(p.llm) && Ready(p.bureau)
    requires AgreeOn(store, other, id)
    ensures AgreeOn(Served(w, store, p, xs).0, StoreAfter(w, other, CallsOn(Plain(xs), id)), id)
  {
    hide AgreeOn, StoreAfter, Served;
    HarmlessCalls(w, store, p, xs);
    RunsAreIsolated(w, store, other, Plain(xs), id);
  }

  lemma {:induction false} CallKeepsRested(w: World, store: Store, p: Process, x: Timed)
    requires Steady(x.tempo) && Rested(p) && (ServicesOf(x.call).Some? ==> Willing(ServicesOf(x.call).value))
    ensures Rested(Perceived(w, store, p, x).1)
  {
    hide Rested, InvokeBehind, Seen, Willing, Steady;
    match x.call
    case Start(sv, a, correlationId) => RunsKeepRested(w, sv, Fresh(a, correlationId), None, p, x.tempo);
    case Resolve(sv, id, r) =>
      if Refusal(store, x.call).None? { RunsKeepRested(w, sv, store[id], Some(r), p, x.tempo); }
    case _ =>
  }

  /**
   Whatever is called, documents that make the model raise included: the bureau's breaker stays closed, and the
   model's is closed with a clean count or not closed with a full one.
   */
  lemma {:induction false} CallsKeepRested(w: World, store: Store, p: Process, xs: seq<Timed>)
    requires AllSteady(xs) && AllWilling(xs) && Rested(p)
    ensures Rested(Served(w, store, p, xs).1)
    decreases |xs|
  {
    hide Rested, Perceived, Stored, Willing, Steady;
    if xs != [] {
      var (call, after) := Perceived(w, store, p, xs[0]);
      CallKeepsRested(w, store, p, xs[0]);
      CallsKeepRested(w, Stored(w, store, call), after, xs[1..]);
    }
  }

  // ----- What one document does to another run -----

  /** The time from a start to the last attempt to have its document extracted. */
  function Delay(tempo: Node -> Pace): real
    requires tempo(DocumentExtraction).tries != []
  {
    tempo(Intake).idle + tempo(DocumentExtraction).idle + PauseBeforeLast(tempo(DocumentExtraction).tries)
  }

  /** A process that has just been started. */
  function FreshProcess(now: real): Process { Process(INITIAL, INITIAL, now) }

  lemma {:induction false} TwoServed(w: World, p: Process, x: Timed, y: Timed)
    requires Steady(x.tempo) && Steady(y.tempo)
    ensures var (first, between) := Perceived(w, map[], p, x);
            var store := Stored(w, map[], first);
            AllSteady([x, y]) &&
            Served(w, map[], p, [x, y]).0 == Stored(w, store, Perceived(w, store, between, y).0)
  {
    hide Perceived, Stored, Steady;
    assert [x, y][1..] == [y] && [y][1..] == [];
    var (first, between) := Perceived(w, map[], p, x);
    var store := Stored(w, map[], first);
    var (second, end) := Perceived(w, store, between, y);
    assert Served(w, Stored(w, store, second), end, []) == (Stored(w, store, second), end);
    assert Served(w, store, between, [y]).0 == Stored(w, store, second);
  }

  lemma {:induction false} OneStored(w: World, call: Call)
    ensures StoreAfter(w, map[], [call]) == Stored(w, map[], call)
  {
    hide Stored;
    assert [call][1..] == [];
  }

  /** What a start stores, behind breakers. */
  lemma {:induction false} StartStores(w: World, store: Store, p: Process, sv: Services, a: Application,
                                       correlationId: string, tempo: Node -> Pace)
    requires Steady(tempo)
    ensures var x := Timed(Start(sv, a, correlationId), tempo);
            Stored(w, store, Perceived(w, store, p, x).0)
            == store[a.id := InvokeBehind(w, sv, Fresh(a, correlationId), None, p, tempo).0.c]
  {
    hide Steady, InvokeBehind, Invoke, Seen;
    BreakersOnlyWithhold(w, sv, Fresh(a, correlationId), None, p, tempo);
  }

  /** The two runs in a fresh process, one after the other: the second is stuck exactly if it comes in time. */
  lemma {:induction false} SecondRun(
      w: World, sv: Services, bad: Application, good: Application, now: real, one: Node -> Pace, two: Node -> Pace)
    requires Steady(one) && Steady(two) && Willing(sv)
    requires Validated(w.u, bad).Some? && sv.extract(w.sanitize(Validated(w.u, bad).value.document)).None?
    requires Validated(w.u, good).Some? && sv.extract(w.sanitize(Validated(w.u, good).value.document)).Some?
    ensures var p := FreshProcess(now);
            var between := InvokeBehind(w, sv, Fresh(bad, "1"), None, p, one).1;
            var t := InvokeBehind(w, sv, Fresh(good, "2"), None, between, two).0;
            if Delay(two) < 15.0 then t.how.Raised? && t.c.next == Some(DocumentExtraction)
            else t == Invoke(w, sv, Fresh(good, "2"), None)
  {
    hide InvokeBehind, Invoke, Validated, PauseBeforeLast, Willing;
    var p := FreshProcess(now);
    ClosedIsNotShut(Fresh(bad, "1"), p, one);
    StartBehind(w, sv, bad, "1", None, p, one);
    var between := InvokeBehind(w, sv, Fresh(bad, "1"), None, p, one).1;
    StartBehind(w, sv, good, "2", None, between, two);
  }

  lemma {:induction false} MocksAreWilling(u: Table, digest: string -> nat, render: Facts -> string)
    ensures Willing(Offline(u, digest, render))
  {
    hide Extract, CreditReport;
  }

  /** Alone, the second run gets past extraction. */
  lemma {:induction false} AloneItGetsThrough(
      w: World, digest: string -> nat, render: Facts -> string, good: Application, correlationId: string)
    requires Renders(render) && Validated(w.u, good).Some? && Parses(w.u, w.sanitize(good.document))
    ensures var t := Invoke(w, Offline(w.u, digest, render), Fresh(good, correlationId), None);
            !t.how.Raised? && t.c.next != Some(DocumentExtraction)
  {
    hide Invoke, Validated, Parses, PayloadOf;
    OfflineRunsThroughIff(w, digest, render, good, correlationId, None);
    InvokeLogs(w, Offline(w.u, digest, render), Fresh(good, correlationId), None);
  }

  /** The start of an application with the mocks. */
  function OfflineStart(
      u: Table, digest: string -> nat, render: Facts -> string, a: Application, correlationId: string): Call
  {
    Start(Offline(u, digest, render), a, correlationId)
  }

  /**
   Runs are not isolated. In a fresh process, start any valid application whose document does not parse, and
   then any valid one whose document does: the second is stored as it would be alone if and only if its last
   attempt at extraction comes no earlier than 15 seconds after it. If it comes earlier, its run is stuck.
   */
  lemma {:induction false} IsolatedIffLate(
      w: World, digest: string -> nat, render: Facts -> string, bad: Application, good: Application, now: real,
      one: Node -> Pace, two: Node -> Pace)
    requires Renders(render) && Steady(one) && Steady(two) && bad.id != good.id
    requires Validated(w.u, bad).Some? && !Parses(w.u, w.sanitize(bad.document))
    requires Validated(w.u, good).Some? && Parses(w.u, w.sanitize(good.document))
    ensures var first := OfflineStart(w.u, digest, render, bad, "1");
            var second := OfflineStart(w.u, digest, render, good, "2");
            var xs := [Timed(first, one), Timed(second, two)];
            && AllSteady(xs)
            && var store := Served(w, map[], FreshProcess(now), xs).0;
               var late := Delay(two) >= 15.0;
               && (AgreeOn(store, StoreAfter(w, map[], [second]), good.id) <==> late)
               && (!late ==> good.id in store && store[good.id].next == Some(DocumentExtraction))
  {
    hide InvokeBehind, Invoke, Validated, Extract, CreditReport, Steady, Willing, Renders, Served, StoreAfter;
    var sv, p := Offline(w.u, digest, render), FreshProcess(now);
    var first, second := OfflineStart(w.u, digest, render, bad, "1"), OfflineStart(w.u, digest, render, good, "2");
    MocksAreWilling(w.u, digest, render);
    ValidationKeepsDocument(w.u, bad);
    ValidationKeepsDocument(w.u, good);
    TwoServed(w, p, Timed(first, one), Timed(second, two));
    StartStores(w, map[], p, sv, bad, "1", one);
    var (call, between) := Perceived(w, map[], p, Timed(first, one));
    StartStores(w, Stored(w, map[], call), between, sv, good, "2", two);
    SecondRun(w, sv, bad, good, now, one, two);
    AloneItGetsThrough(w, digest, render, good, "2");
    OneStored(w, second);
  }

  // ----- Two documents with which it happens -----

  const LABEL := "NET_PAY_PER_PERIOD"

  /** "NET_PAY_PER_PERIOD:," */
  const COMMA := LABEL + ":,"

  /** A document without any labelled field. */
  const PLAIN := "stub"

  /** The characters of both. */
  const USED: set<char> := {'N', 'E', 'T', '_', 'P', 'A', 'Y', 'R', 'I', 'O', 'D', ':', ',', 's', 't', 'u', 'b'}

  lemma {:induction false} DocumentShapes()
    ensures |LABEL| == 18 && |COMMA| == 20 && COMMA[..18] == LABEL && COMMA[18] == ':' && COMMA[19] == ','
    ensures PayStub.IsLabel(LABEL)
    ensures forall c | c in COMMA :: c in USED
    ensures forall c | c in PLAIN :: c in {'s', 't', 'u', 'b'} && c in USED
  {
  }

  predicate IsMissing(c: char) { c == 'g' || c == 'w' || c == 'm' || c == 'c' || c == 'v' }

  lemma {:induction false} MissingWord(u: Table, w: string, k: nat)
    requires u.Valid() && k < |w| && IsMissing(w[k])
    ensures Demands(Word(u, w), USED)
  {
    hide Demands, Word, Table.Valid;
    var c := w[k];
    forall d | d in USED ensures IsAscii(d) && AsciiLower(d) != AsciiLower(c) {
    }
    LetterDemands(u, w, k, USED);
  }

  /** Each of the seven patterns of the sanitizer has a letter that is in neither document. */
  lemma {:induction false} PhrasesAreForeign(u: Table)
    requires u.Valid()
    ensures Demands(PromptGuard.IgnoreInstructions(u), USED) && Demands(PromptGuard.Disregard(u), USED)
    ensures Demands(PromptGuard.NewInstructions(u), USED) && Demands(PromptGuard.RevealPrompt(u), USED)
  {
    hide Word, Demands, PromptGuard.Target, PromptGuard.Colon, Table.Valid;
    MissingWord(u, "ignore ", 1);
    MissingWord(u, "disregard ", 5);
    MissingWord(u, "new instructions", 2);
    MissingWord(u, "reveal your ", 2);
    CatDemands(Word(u, "ignore "), Cat(PromptGuard.Target(u), Word(u, " instructions")), USED);
    CatDemands(Word(u, "disregard "), PromptGuard.Target(u), USED);
    CatDemands(Word(u, "new instructions"), PromptGuard.Colon(u), USED);
    CatDemands(Word(u, "reveal your "), Cat(Maybe(Word(u, "system ")), Word(u, "prompt")), USED);
  }

  lemma {:induction false} BoundedAreForeign(u: Table)
    requires u.Valid()
    ensures Demands(PromptGuard.YouAreNow(u), USED) && Demands(PromptGuard.ActAs(u), USED)
    ensures Demands(PromptGuard.SystemRole(u), USED)
  {
    hide Word, Demands, PromptGuard.Colon, Table.Valid;
    MissingWord(u, "you are now", 10);
    MissingWord(u, "act as ", 1);
    MissingWord(u, "system", 5);
    CatDemands(Word(u, "act as "), Or(Cat(Word(u, "a"), Maybe(Word(u, "n"))), Word(u, "the")), USED);
    AnchoredDemands(PromptGuard.YouAreNowCore(u));
    AnchoredDemands(PromptGuard.ActAsCore(u));
    var role := Cat(Word(u, "system"), PromptGuard.Colon(u));
    CatDemands(Word(u, "system"), PromptGuard.Colon(u), USED);
    CatDemands(Many(u.spaces, 0), role, USED);
    CatDemands(LineStart, Cat(Many(u.spaces, 0), role), USED);
  }

  lemma {:induction false} AnchoredDemands(core: Pattern)
    requires Demands(core, USED)
    ensures Demands(Anchored(core), USED)
  {
    CatDemands(core, Bound, USED);
  }

  lemma {:induction false} SanitizerKeepsDocument(u: Table, text: string)
    requires u.Valid() && forall c | c in text :: c in USED
    ensures PromptGuard.Sanitized(u, text) == text
  {
    hide Demands, Clean, PromptGuard.Sanitized, PromptGuard.IgnoreInstructions, PromptGuard.Disregard,
      PromptGuard.YouAreNow, PromptGuard.SystemRole, PromptGuard.NewInstructions, PromptGuard.ActAs,
      PromptGuard.RevealPrompt;
    PhrasesAreForeign(u);
    BoundedAreForeign(u);
    forall n | 0 <= n < 7 ensures Clean(u, PromptGuard.Patterns(u)[n], text) {
      DemandsRefuse(u, PromptGuard.Patterns(u)[n], USED, text);
    }
    PromptGuard.UnchangedIffNothingMatches(u, text);
  }

  /** The amount of the first document is read as a comma, and `float` raises on what is left of it. */
  lemma {:induction false} CommaDoesNotParse(u: Table)
    requires u.Valid()
    ensures !Parses(u, COMMA)
  {
    hide Matches, Word, Ends, MatchEnd, SearchGroup, Frequency;
    DocumentShapes();
    assert IsAscii(':') && IsAscii(',') && !IsAsciiSpace(':') && !IsAsciiSpace(',');
    PayStub.NameMatches(u, LABEL, COMMA, 0);
    PayStub.WordMatchEnd(u, LABEL, COMMA, 0);
    NoSpaces(u, COMMA, 18);
    PayStub.OneMatchEnd(u, {':'}, COMMA, 18);
    CatMatchEnd(u, Many(u.spaces, 0), One({':'}), COMMA, 18);
    CatMatchEnd(u, Word(u, LABEL), Cat(Many(u.spaces, 0), One({':'})), COMMA, 0);
    NoSpaces(u, COMMA, 19);
    NoDollar(u, COMMA, 19);
    var dollar := Cat(Maybe(One({'$'})), Many(u.spaces, 0));
    CatMatchEnd(u, Maybe(One({'$'})), Many(u.spaces, 0), COMMA, 19);
    CatMatchEnd(u, Many(u.spaces, 0), dollar, COMMA, 19);
    CatMatchEnd(u, LabelColon(u, LABEL), Cat(Many(u.spaces, 0), dollar), COMMA, 0);
    OneComma(u);
    PayStub.GroupAt(u, MoneyPrefix(u, LABEL), MoneyBody(u), COMMA, 0, 19, 20);
    assert COMMA[19..20] == ",";
    assert Without(',', ",") == "" && ParseFloat(u, "").None?;
  }

  lemma {:induction false} NoSpaces(u: Table, s: string, i: nat)
    requires i < |s| && s[i] !in u.spaces
    ensures MatchEnd(u, Many(u.spaces, 0), s, i) == Some(i)
  {
    PayStub.ManyMatchEnd(u, u.spaces, 0, s, i, 0);
  }

  lemma {:induction false} NoDollar(u: Table, s: string, i: nat)
    requires i < |s| && s[i] != '$'
    ensures MatchEnd(u, Maybe(One({'$'})), s, i) == Some(i)
  {
  }

  lemma {:induction false} OneComma(u: Table)
    ensures |COMMA| == 20 && MatchEnd(u, MoneyBody(u), COMMA, 19) == Some(20)
  {
    hide Matches;
    DocumentShapes();
    PayStub.ManyMatchEnd(u, u.digits.Keys + {','}, 1, COMMA, 19, 1);
    NothingFollows(u, Many(u.digits.Keys, 1));
    CatMatchEnd(u, Many(u.digits.Keys + {','}, 1), Maybe(Cat(One({'.'}), Many(u.digits.Keys, 1))), COMMA, 19);
  }

  lemma {:induction false} NothingFollows(u: Table, p: Pattern)
    ensures |COMMA| == 20 && MatchEnd(u, Maybe(Cat(One({'.'}), p)), COMMA, 20) == Some(20)
  {
    DocumentShapes();
  }

  /** The second document has none of the labels, which is no reason to raise. */
  lemma {:induction false} PlainParses(u: Table)
    requires u.Valid()
    ensures Parses(u, PLAIN)
  {
    hide ParseMoneyField, Frequency, ParseTextField, Collect;
    NoAmount(u, "GROSS_PAY_PER_PERIOD", 0);
    NoAmount(u, "NET_PAY_PER_PERIOD", 0);
    NoAmount(u, "EXISTING_MONTHLY_DEBT", 0);
  }

  lemma {:induction false} NoAmount(u: Table, field: string, k: nat)
    requires u.Valid() && k < |field| && field[k] in {'G', 'N', 'E'}
    ensures ParseMoneyField(u, PLAIN, field).Missing?
  {
    hide Demands, Clean, ParseMoneyField, Word;
    DocumentShapes();
    var used := {'s', 't', 'u', 'b'};
    forall c | c in used ensures IsAscii(c) && AsciiLower(c) != AsciiLower(field[k]) {
    }
    hide Table.Valid;
    var colon, rest := Cat(Many(u.spaces, 0), One({':'})), Cat(Maybe(One({'$'})), Many(u.spaces, 0));
    LetterDemands(u, field, k, used);
    CatDemands(Word(u, field), colon, used);
    CatDemands(LabelColon(u, field), Cat(Many(u.spaces, 0), rest), used);
    CatDemands(MoneyPrefix(u, field), MoneyBody(u), used);
    DemandsRefuse(u, Cat(MoneyPrefix(u, field), MoneyBody(u)), used, PLAIN);
    MoneyFieldFailsIff(u, PLAIN, field);
  }

  const BAD := Wording.APPLICANT.(id := "bad", document := COMMA)

  const GOOD := Wording.APPLICANT

  lemma {:induction false} BadIsValid(u: Table)
    requires u.Valid()
    ensures Validated(u, BAD) == Some(BAD)
  {
    DocumentShapes();
    Wording.ApplicantIsValid(u);
  }

  /** Nothing waits and nothing takes time. */
  const AT_ONCE := (n: Node) => Pace(0.0, [Try(0.0, 0.0), Try(0.0, 0.0), Try(0.0, 0.0)])

  lemma {:induction false} AtOnceIsSteady()
    ensures Steady(AT_ONCE) && Delay(AT_ONCE) == 0.0
  {
    var tries := AT_ONCE(DocumentExtraction).tries;
    assert tries[1..] == [Try(0.0, 0.0), Try(0.0, 0.0)] && tries[1..][1..] == [Try(0.0, 0.0)];
    assert PauseBeforeLast(tries[1..]) == 0.0;
  }

  /** One application with a comma for an amount, and the next one, which alone would get through, is stuck. */
  lemma {:induction false} NotIsolated(w: World, digest: string -> nat, render: Facts -> string, now: real)
    requires w.Shipped() && Renders(render)
    ensures var first := OfflineStart(w.u, digest, render, BAD, "1");
            var second := OfflineStart(w.u, digest, render, GOOD, "2");
            var xs := [Timed(first, AT_ONCE), Timed(second, AT_ONCE)];
            && AllSteady(xs)
            && !AgreeOn(Served(w, map[], FreshProcess(now), xs).0, StoreAfter(w, map[], [second]), GOOD.id)
  {
    hide Validated, Parses, PromptGuard.Sanitized, Served, StoreAfter, AllSteady, Steady, Delay, Renders, AgreeOn;
    DocumentShapes();
    Wording.ApplicantIsValid(w.u);
    BadIsValid(w.u);
    SanitizerKeepsDocument(w.u, COMMA);
    SanitizerKeepsDocument(w.u, PLAIN);
    CommaDoesNotParse(w.u);
    PlainParses(w.u);
    AtOnceIsSteady();
    IsolatedIffLate(w, digest, render, BAD, GOOD, now, AT_ONCE, AT_ONCE);
  }
}
