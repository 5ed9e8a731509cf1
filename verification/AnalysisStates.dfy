/**
 * The analysis state of a conversation: condition signatures, evidence checks, patches, and the state a new turn begins
 * with (apps/worker/src/analysis/analysis-state.ts, analysis-state.repository.ts).
 */
module AnalysisStates {
  import opened Common
  import opened Events

  type ArtifactId = string

  datatype MemoryRef = MemoryRef(id: nat, version: nat)
  datatype Memory = Memory(id: nat, version: nat, active: bool)
  datatype Note = Note(name: string, description: string, source: MessageId)
  datatype Range = Range(start: int, endExclusive: int, timezone: string)
  datatype Operator = Eq | Neq | Gt | Gte | Lt | Lte | In
  datatype Filter = Filter(field: string, operator: Operator, value: seq<string>)
  datatype Freshness = ReuseAllowed | CurrentGeneration
  datatype Verdict = Open | Supported | Refuted | Unresolved
  datatype Hypothesis = Hypothesis(id: string, statement: string, verdict: Verdict, evidenceIds: seq<ArtifactId>)
  datatype Progress = InProgress | Complete | Partial | AwaitingClarification | UnableToComplete

  datatype AnalysisState = AnalysisState(
    taskId: nat,
    conversation: ConversationId,
    datasource: nat,
    revision: nat,
    question: string,
    status: Progress,
    memoryRefs: seq<MemoryRef>,
    temporaryNotes: seq<Note>,
    timeRange: Option<Range>,
    comparisonRange: Option<Range>,
    filters: seq<Filter>,
    grain: Option<string>,
    freshness: Freshness,
    hypotheses: seq<Hypothesis>,
    openQuestions: seq<string>)

  // A stored query result; `context` is the analysis state recorded with it, if any.
  datatype Artifact = Artifact(
    generation: GenerationId,
    conversation: ConversationId,
    datasource: nat,
    limited: bool,
    context: Option<AnalysisState>)

  function NewState(conversation: ConversationId, datasource: nat, question: string, revision: nat,
      taskId: nat): AnalysisState {
    AnalysisState(taskId, conversation, datasource, revision, question, InProgress,
                  [], [], None, None, [], None, ReuseAllowed, [], [])
  }

  // ---------- Condition signature ----------

  // The conditions under which evidence was gathered. The source serialises this record with sorted keys.
  datatype Signature = Signature(
    taskId: nat,
    datasource: nat,
    memoryRefs: seq<MemoryRef>,
    temporaryNotes: seq<Note>,
    timeRange: Option<Range>,
    comparisonRange: Option<Range>,
    filters: seq<Filter>,
    grain: Option<string>)

  function InsertRef(r: MemoryRef, sorted: seq<MemoryRef>): seq<MemoryRef> {
    if sorted == [] || r.id < sorted[0].id then [r] + sorted else [sorted[0]] + InsertRef(r, sorted[1..])
  }

  // Stable sort by id.
  function SortRefs(refs: seq<MemoryRef>): seq<MemoryRef> {
    if refs == [] then [] else InsertRef(refs[|refs| - 1], SortRefs(refs[..|refs| - 1]))
  }

  function ConditionSignature(s: AnalysisState): Signature {
    Signature(s.taskId, s.datasource, SortRefs(s.memoryRefs), s.temporaryNotes, s.timeRange, s.comparisonRange,
        s.filters, s.grain)
  }

  predicate DistinctIds(refs: seq<MemoryRef>) {
    forall i, j :: 0 <= i < j < |refs| ==> refs[i].id != refs[j].id
  }

  predicate Ascending(refs: seq<MemoryRef>) {
    forall i, j :: 0 <= i < j < |refs| ==> refs[i].id <= refs[j].id
  }

  // The references to one memory, in the order in which they are listed.
  function RefsTo(refs: seq<MemoryRef>, id: nat): seq<MemoryRef> {
    if refs == [] then [] else (if refs[0].id == id then [refs[0]] else []) + RefsTo(refs[1..], id)
  }

  lemma {:induction false} RefsToConcat(a: seq<MemoryRef>, b: seq<MemoryRef>, id: nat)
    ensures RefsTo(a + b, id) == RefsTo(a, id) + RefsTo(b, id)
  {
    if a == [] {
      assert a + b == b;
    } else {
      var head := if a[0].id == id then [a[0]] else [];
      assert (a + b)[0] == a[0] && (a + b)[1..] == a[1..] + b;
      RefsToConcat(a[1..], b, id);
      var x, y := RefsTo(a[1..], id), RefsTo(b, id);
      assert RefsTo(a + b, id) == head + (x + y) && RefsTo(a, id) == head + x;
      hide RefsTo;
      assert head + (x + y) == (head + x) + y;
    }
  }

  lemma {:induction false} InsertRefContents(r: MemoryRef, sorted: seq<MemoryRef>)
    ensures forall x :: x in InsertRef(r, sorted) <==> x == r || x in sorted
  {
    if sorted != [] && r.id >= sorted[0].id {
      InsertRefContents(r, sorted[1..]);
      assert sorted == [sorted[0]] + sorted[1..];
    }
  }

  lemma {:induction false} NoRefsTo(refs: seq<MemoryRef>, id: nat)
    requires forall x :: x in refs ==> x.id != id
    ensures RefsTo(refs, id) == []
  {
    if refs != [] {
      NoRefsTo(refs[1..], id);
    }
  }

  lemma {:induction false} InsertRefSorted(r: MemoryRef, sorted: seq<MemoryRef>)
    requires Ascending(sorted)
    ensures Ascending(InsertRef(r, sorted))
  {
    if sorted != [] && r.id >= sorted[0].id {
      var rest := InsertRef(r, sorted[1..]);
      InsertRefSorted(r, sorted[1..]);
      InsertRefContents(r, sorted[1..]);
      forall k | 0 <= k < |rest| ensures sorted[0].id <= rest[k].id {
        assert rest[k] in rest;
      }
    }
  }

  // Insertion puts a reference behind all others to the same memory.
  lemma {:induction false} InsertRefIsStable(r: MemoryRef, sorted: seq<MemoryRef>, id: nat)
    requires Ascending(sorted)
    ensures RefsTo(InsertRef(r, sorted), id) == RefsTo(sorted, id) + if r.id == id then [r] else []
  {
    if sorted == [] || r.id < sorted[0].id {
      assert ([r] + sorted)[1..] == sorted;
      if r.id == id {
        NoRefsTo(sorted, id);
      }
    } else {
      var rest := InsertRef(r, sorted[1..]);
      InsertRefIsStable(r, sorted[1..], id);
      assert ([sorted[0]] + rest)[1..] == rest;
    }
  }

  lemma RefsToLast(front: seq<MemoryRef>, last: MemoryRef, id: nat)
    ensures RefsTo(front + [last], id) == RefsTo(front, id) + if last.id == id then [last] else []
  {
    RefsToConcat(front, [last], id);
    assert [last][1..] == [] && RefsTo([], id) == [];
  }

  lemma {:induction false} SortRefsIsStable(refs: seq<MemoryRef>, id: nat)
    ensures Ascending(SortRefs(refs)) && RefsTo(SortRefs(refs), id) == RefsTo(refs, id)
  {
    if refs != [] {
      var front, last := refs[..|refs| - 1], refs[|refs| - 1];
      hide InsertRef, Ascending, RefsTo;
      SortRefsIsStable(front, id);
      InsertRefSorted(last, SortRefs(front));
      InsertRefIsStable(last, SortRefs(front), id);
      assert refs == front + [last];
      RefsToLast(front, last, id);
    }
  }

  lemma {:induction false} RefsToMember(refs: seq<MemoryRef>, x: MemoryRef, id: nat)
    ensures x in RefsTo(refs, id) <==> x in refs && x.id == id
  {
    if refs != [] {
      RefsToMember(refs[1..], x, id);
      assert refs == [refs[0]] + refs[1..];
    }
  }

  // The same references to each memory, in the same order.
  ghost predicate SameByMemory(a: seq<MemoryRef>, b: seq<MemoryRef>) {
    forall id :: RefsTo(a, id) == RefsTo(b, id)
  }

  // A sorted list is determined by its references to each memory.
  lemma {:induction false} SortedByMemory(a: seq<MemoryRef>, b: seq<MemoryRef>)
    requires Ascending(a) && Ascending(b) && SameByMemory(a, b)
    ensures a == b
  {
    if a == [] {
      if b != [] {
        RefsToMember(a, b[0], b[0].id);
        RefsToMember(b, b[0], b[0].id);
      }
    } else {
      RefsToMember(b, a[0], a[0].id);
      RefsToMember(a, a[0], a[0].id);
      RefsToMember(a, b[0], b[0].id);
      RefsToMember(b, b[0], b[0].id);
      assert a[0] in b && b[0] in a;
      assert a[0].id == b[0].id;
      assert RefsTo(a, a[0].id)[0] == a[0] && RefsTo(b, a[0].id)[0] == b[0];
      forall id ensures RefsTo(a[1..], id) == RefsTo(b[1..], id) {
        assert RefsTo(a[1..], id) == RefsTo(a, id)[if a[0].id == id then 1 else 0..];
        assert RefsTo(b[1..], id) == RefsTo(b, id)[if b[0].id == id then 1 else 0..];
      }
      SortedByMemory(a[1..], b[1..]);
    }
  }

  lemma SortKeepsMemories(refs: seq<MemoryRef>)
    ensures Ascending(SortRefs(refs)) && SameByMemory(SortRefs(refs), refs)
  {
    hide RefsTo, Ascending, SortRefs;
    SortRefsIsStable(refs, 0);
    forall id ensures RefsTo(SortRefs(refs), id) == RefsTo(refs, id) {
      SortRefsIsStable(refs, id);
    }
  }

  lemma SameByMemoryChains(a: seq<MemoryRef>, b: seq<MemoryRef>, c: seq<MemoryRef>)
    requires SameByMemory(a, b)
    ensures SameByMemory(a, c) <==> SameByMemory(b, c)
    ensures SameByMemory(b, a)
  {
    hide RefsTo;
  }

  // The signature forgets the order between references to different memories, and nothing else.
  lemma SignatureForgetsOrderBetweenMemories(s: AnalysisState, t: AnalysisState)
    requires t == s.(memoryRefs := t.memoryRefs)
    ensures ConditionSignature(s) == ConditionSignature(t) <==> SameByMemory(s.memoryRefs, t.memoryRefs)
  {
    var a, b := SortRefs(s.memoryRefs), SortRefs(t.memoryRefs);
    SortKeepsMemories(s.memoryRefs);
    SortKeepsMemories(t.memoryRefs);
    SameByMemoryChains(a, s.memoryRefs, b);
    SameByMemoryChains(b, t.memoryRefs, s.memoryRefs);
    SameByMemoryChains(t.memoryRefs, b, s.memoryRefs);
    if a == b {
      assert SameByMemory(a, b);
    } else if SameByMemory(s.memoryRefs, t.memoryRefs) {
      SameByMemoryChains(s.memoryRefs, t.memoryRefs, b);
      SortedByMemory(a, b);
    }
  }

  // No two references name one memory in two versions.
  predicate OneVersionEach(refs: seq<MemoryRef>) {
    forall i, j :: 0 <= i < |refs| && 0 <= j < |refs| && refs[i].id == refs[j].id ==> refs[i] == refs[j]
  }

  lemma {:induction false} RefsToContents(refs: seq<MemoryRef>, id: nat, x: MemoryRef)
    ensures multiset(RefsTo(refs, id))[x] == if x.id == id then multiset(refs)[x] else 0
  {
    if refs != [] {
      RefsToContents(refs[1..], id, x);
      assert refs == [refs[0]] + refs[1..];
    }
  }

  lemma SameRefsTo(a: seq<MemoryRef>, b: seq<MemoryRef>, id: nat)
    requires multiset(a) == multiset(b) && OneVersionEach(a)
    ensures RefsTo(a, id) == RefsTo(b, id)
  {
    var x, y := RefsTo(a, id), RefsTo(b, id);
    forall r ensures multiset(x)[r] == multiset(y)[r] {
      RefsToContents(a, id, r);
      RefsToContents(b, id, r);
    }
    assert multiset(x) == multiset(y);
    assert |multiset(x)| == |x| && |multiset(y)| == |y|;
    forall k | 0 <= k < |x| ensures x[k] == y[k] {
      assert x[k] in x && y[k] in multiset(x);
      RefsToMember(a, x[k], id);
      RefsToMember(a, y[k], id);
    }
  }

  function Moved(refs: seq<MemoryRef>, i: nat): (r: seq<MemoryRef>)
    requires i < |refs|
    ensures multiset(r) == multiset(refs)
  {
    assert refs == refs[..i] + [refs[i]] + refs[i + 1..];
    [refs[i]] + refs[..i] + refs[i + 1..]
  }

  lemma MovedComesFirst(refs: seq<MemoryRef>, i: nat)
    requires i < |refs|
    ensures RefsTo(Moved(refs, i), refs[i].id) != [] && RefsTo(Moved(refs, i), refs[i].id)[0] == refs[i]
  {
    assert Moved(refs, i)[0] == refs[i];
  }

  ghost predicate OrderIsIrrelevant(s: AnalysisState) {
    forall refs :: multiset(refs) == multiset(s.memoryRefs)
        ==> ConditionSignature(s.(memoryRefs := refs)) == ConditionSignature(s)
  }

  lemma OneVersionIsEnough(s: AnalysisState)
    requires OneVersionEach(s.memoryRefs)
    ensures OrderIsIrrelevant(s)
  {
    var refs := s.memoryRefs;
    hide RefsTo, ConditionSignature, OneVersionEach;
    forall other | multiset(other) == multiset(refs) ensures ConditionSignature(s.(memoryRefs := other))
        == ConditionSignature(s) {
      assert SameByMemory(refs, other) by {
        forall id ensures RefsTo(refs, id) == RefsTo(other, id) {
          SameRefsTo(refs, other, id);
        }
      }
      SignatureForgetsOrderBetweenMemories(s, s.(memoryRefs := other));
    }
  }

  lemma TwoVersionsMatter(s: AnalysisState, i: nat, j: nat)
    requires i < |s.memoryRefs| && j < |s.memoryRefs|
    requires s.memoryRefs[i].id == s.memoryRefs[j].id && s.memoryRefs[i] != s.memoryRefs[j]
    ensures !OrderIsIrrelevant(s)
  {
    hide RefsTo, ConditionSignature;
    var refs := s.memoryRefs;
    var one, two := s.(memoryRefs := Moved(refs, i)), s.(memoryRefs := Moved(refs, j));
    MovedComesFirst(refs, i);
    MovedComesFirst(refs, j);
    SignatureForgetsOrderBetweenMemories(one, two);
    assert RefsTo(one.memoryRefs, refs[i].id) != RefsTo(two.memoryRefs, refs[i].id);
  }

  // So the references of a state can be listed in any order exactly if none of them disagree about a version.
  lemma OrderIsIrrelevantIffOneVersionEach(s: AnalysisState)
    ensures OrderIsIrrelevant(s) <==> OneVersionEach(s.memoryRefs)
    ensures DistinctIds(s.memoryRefs) ==> OneVersionEach(s.memoryRefs)
  {
    hide OrderIsIrrelevant;
    var refs := s.memoryRefs;
    if OneVersionEach(refs) {
      OneVersionIsEnough(s);
    } else {
      var i, j :| 0 <= i < |refs| && 0 <= j < |refs| && refs[i].id == refs[j].id && refs[i] != refs[j];
      TwoVersionsMatter(s, i, j);
    }
  }

  // ---------- Evidence ----------

  datatype Mismatch = OtherDatasource | NoContext | OtherTask | Stale | ConditionsChanged

  function EvidenceMismatch(a: Artifact, s: AnalysisState, g: GenerationId): Option<Mismatch> {
    if a.datasource != s.datasource then Some(OtherDatasource)
    else if a.context.None? then Some(NoContext)
    else if a.context.value.taskId != s.taskId then Some(OtherTask)
    else if s.freshness.CurrentGeneration? && a.generation != g then Some(Stale)
    else if ConditionSignature(a.context.value) != ConditionSignature(s) then Some(ConditionsChanged)
    else None
  }

  // Evidence id `e` was gathered under exactly the conditions of `s`.
  predicate Backs(artifacts: map<ArtifactId, Artifact>, e: ArtifactId, s: AnalysisState) {
    && e in artifacts
    && artifacts[e].context.Some?
    && ConditionSignature(artifacts[e].context.value) == ConditionSignature(s)
  }

  // Every piece of evidence that a hypothesis of `s` cites was gathered under the conditions of `s`.
  predicate Grounded(s: AnalysisState, artifacts: map<ArtifactId, Artifact>) {
    forall h, e :: h in s.hypotheses && e in h.evidenceIds ==> Backs(artifacts, e, s)
  }

  // Only these parts of a state decide whether it is grounded.
  lemma GroundedByConditions(s: AnalysisState, t: AnalysisState, artifacts: map<ArtifactId, Artifact>)
    requires Grounded(s, artifacts) && ConditionSignature(s) == ConditionSignature(t)
    requires forall h :: h in t.hypotheses ==> h in s.hypotheses
    ensures Grounded(t, artifacts)
  {
    forall h, e | h in t.hypotheses && e in h.evidenceIds ensures Backs(artifacts, e, t) {
      assert h in s.hypotheses;
      assert Backs(artifacts, e, s);
    }
  }

  // ---------- Patching ----------

  datatype PatchError =
    | RevisionConflict | BadText | TooMany | UnknownMemory | DuplicateReference | BadRange
    | FieldNotAllowed | BadFilterValue | FilterExpired | NeedsEvidence | EvidenceRejected | DuplicateHypothesis

  datatype StatePatch = StatePatch(
    question: Option<string>,
    memoryRefs: Option<seq<MemoryRef>>,
    temporaryNotes: Option<seq<Note>>,
    timeRange: Option<Option<Range>>,
    comparisonRange: Option<Option<Range>>,
    filters: Option<seq<Filter>>,
    grain: Option<Option<string>>,
    freshness: Option<Freshness>,
    hypotheses: Option<seq<Hypothesis>>,
    openQuestions: Option<seq<string>>)

  datatype PatchArgs = PatchArgs(expectedRevision: nat, startNewTask: bool, reason: string, patch: StatePatch)

  // What the tool handler lends to a patch: this turn's memories, the readable and the observed evidence, the evidence
  // with a blocking quality warning, and a fresh task id.
  datatype Deps = Deps(
    memories: seq<Memory>,
    sourceMessage: MessageId,
    allowedFields: set<string>,
    artifacts: map<ArtifactId, Artifact>,
    readable: set<ArtifactId>,
    observed: set<ArtifactId>,
    blocking: set<ArtifactId>,
    generation: GenerationId,
    freshTask: nat)

  function CleanText(v: string): Result<string, PatchError> {
    if Trim(v) == "" || |v| > 4000 then Failure(BadText) else Success(Trim(v))
  }

  function CleanTexts(vs: seq<string>): Result<seq<string>, PatchError> {
    if vs == [] then Success([]) else
      var front :- CleanTexts(vs[..|vs| - 1]);
      var last :- CleanText(vs[|vs| - 1]);
      Success(front + [last])
  }

  function CleanList<T>(vs: seq<T>): Result<seq<T>, PatchError> {
    if |vs| > 30 then Failure(TooMany) else Success(vs)
  }

  function CleanRange(r: Option<Range>): Result<Option<Range>, PatchError> {
    if r.None? then Success(None) else
      var timezone :- CleanText(r.value.timezone);
      if r.value.start >= r.value.endExclusive then Failure(BadRange)
      else Success(Some(r.value.(timezone := timezone)))
  }

  function CleanNotes(vs: seq<Note>, source: MessageId): Result<seq<Note>, PatchError> {
    if vs == [] then Success([]) else
      var front :- CleanNotes(vs[..|vs| - 1], source);
      var name :- CleanText(vs[|vs| - 1].name);
      var description :- CleanText(vs[|vs| - 1].description);
      Success(front + [Note(name, description, source)])
  }

  predicate KnownMemory(r: MemoryRef, memories: seq<Memory>) {
    Memory(r.id, r.version, true) in memories
  }

  function CleanRefs(refs: seq<MemoryRef>, memories: seq<Memory>): Result<seq<MemoryRef>, PatchError> {
    if exists r :: r in refs && !KnownMemory(r, memories) then Failure(UnknownMemory)
    else if !DistinctIds(refs) then Failure(DuplicateReference)
    else Success(refs)
  }

  predicate ValidFilterValue(f: Filter) {
    if f.operator.In? then 0 < |f.value| <= 100 && forall v :: v in f.value ==> |v| <= 1000
    else |f.value| <= 1 && forall v :: v in f.value ==> |v| <= 1000
  }

  function CleanFilter(f: Filter, allowed: set<string>): Result<Filter, PatchError> {
    var field :- CleanText(f.field);
    if field !in allowed then Failure(FieldNotAllowed)
    else if !ValidFilterValue(f) then Failure(BadFilterValue)
    else Success(f.(field := field))
  }

  function CleanFilters(fs: seq<Filter>, allowed: set<string>): Result<seq<Filter>, PatchError> {
    if fs == [] then Success([]) else
      var front :- CleanFilters(fs[..|fs| - 1], allowed);
      var last :- CleanFilter(fs[|fs| - 1], allowed);
      Success(front + [last])
  }

  predicate AcceptsEvidence(id: ArtifactId, s: AnalysisState, deps: Deps) {
    && id in deps.readable && id in deps.artifacts
    && id in deps.observed
    && EvidenceMismatch(deps.artifacts[id], s, deps.generation).None?
    && !deps.artifacts[id].limited && id !in deps.blocking
  }

  function CleanHypothesis(h: Hypothesis, s: AnalysisState, deps: Deps): Result<Hypothesis, PatchError> {
    var listed :- CleanList(h.evidenceIds);
    var evidenceIds :- CleanTexts(listed);
    if (h.verdict.Supported? || h.verdict.Refuted?) && evidenceIds == [] then Failure(NeedsEvidence)
    else if exists e :: e in evidenceIds && !AcceptsEvidence(e, s, deps) then Failure(EvidenceRejected)
    else
      var id :- CleanText(h.id);
      var statement :- CleanText(h.statement);
      Success(Hypothesis(id, statement, h.verdict, evidenceIds))
  }

  function CleanHypotheses(hs: seq<Hypothesis>, s: AnalysisState, deps: Deps): Result<seq<Hypothesis>, PatchError> {
    if hs == [] then Success([]) else
      var front :- CleanHypotheses(hs[..|hs| - 1], s, deps);
      var last :- CleanHypothesis(hs[|hs| - 1], s, deps);
      Success(front + [last])
  }

  predicate DistinctHypotheses(hs: seq<Hypothesis>) {
    forall i, j :: 0 <= i < j < |hs| ==> hs[i].id != hs[j].id
  }

  function PatchReferences(s: AnalysisState, p: StatePatch, deps: Deps): Result<AnalysisState, PatchError> {
    var question :- if p.question.Some? then CleanText(p.question.value) else Success(s.question);
    var refs :- if p.memoryRefs.Some? then
        (var listed :- CleanList(p.memoryRefs.value); CleanRefs(listed, deps.memories))
      else Success(s.memoryRefs);
    var notes :- if p.temporaryNotes.Some? then
        (var listed :- CleanList(p.temporaryNotes.value); CleanNotes(listed, deps.sourceMessage))
      else Success(s.temporaryNotes);
    Success(s.(question := question, memoryRefs := refs, temporaryNotes := notes))
  }

  function PatchPeriod(s: AnalysisState, p: StatePatch): Result<AnalysisState, PatchError> {
    var timeRange :- if p.timeRange.Some? then CleanRange(p.timeRange.value) else Success(s.timeRange);
    var comparison :- if p.comparisonRange.Some? then CleanRange(p.comparisonRange.value)
        else Success(s.comparisonRange);
    var grain :- if p.grain.Some? && p.grain.value.Some? then
        (var t :- CleanText(p.grain.value.value); Success(Some(t)))
      else Success(if p.grain.Some? then None else s.grain);
    Success(s.(timeRange := timeRange, comparisonRange := comparison, grain := grain,
        freshness := p.freshness.GetOr(s.freshness)))
  }

  function PatchFilters(s: AnalysisState, p: StatePatch, deps: Deps): Result<AnalysisState, PatchError> {
    var filters :- if p.filters.Some? then
        (var listed :- CleanList(p.filters.value); CleanFilters(listed, deps.allowedFields))
      else Success(s.filters);
    if exists f :: f in filters && f.field !in deps.allowedFields then Failure(FilterExpired)
        else Success(s.(filters := filters))
  }

  // The part of a patch that changes conditions; hypotheses are still those of the state patched.
  function PatchConditions(current: AnalysisState, args: PatchArgs, deps: Deps): Result<AnalysisState, PatchError> {
    var start := if args.startNewTask
                 then NewState(current.conversation, current.datasource, current.question, current.revision,
                     deps.freshTask)
                 else current;
    var referring :- PatchReferences(start, args.patch, deps);
    var timed :- PatchPeriod(referring, args.patch);
    PatchFilters(timed, args.patch, deps)
  }

  // The rest of a patch, on a state whose conditions are settled.
  function PatchConclusions(s: AnalysisState, p: StatePatch, deps: Deps): Result<AnalysisState, PatchError> {
    var questions :- if p.openQuestions.Some? then
        (var listed :- CleanList(p.openQuestions.value); CleanTexts(listed))
      else Success(s.openQuestions);
    if p.hypotheses.None? then Success(s.(openQuestions := questions))
    else
      var listed :- CleanList(p.hypotheses.value);
      var hypotheses :- CleanHypotheses(listed, s, deps);
      if !DistinctHypotheses(hypotheses) then Failure(DuplicateHypothesis)
      else Success(s.(openQuestions := questions, hypotheses := hypotheses))
  }

  function DropHypotheses(s: AnalysisState, current: AnalysisState): AnalysisState {
    if ConditionSignature(s) != ConditionSignature(current) then s.(hypotheses := []) else s
  }

  function PatchState(current: AnalysisState, args: PatchArgs, deps: Deps): Result<AnalysisState, PatchError> {
    if args.expectedRevision != current.revision then Failure(RevisionConflict) else
      var _ :- CleanText(args.reason);
      var conditions :- PatchConditions(current, args, deps);
      var s :- PatchConclusions(DropHypotheses(conditions, current), args.patch, deps);
      Success(s.(revision := current.revision + 1, status := InProgress))
  }

  lemma {:induction false} CleanHypothesesBacked(hs: seq<Hypothesis>, s: AnalysisState, deps: Deps)
    ensures var r := CleanHypotheses(hs, s, deps);
            r.Success? ==> forall h, e :: h in r.value && e in h.evidenceIds ==> Backs(deps.artifacts, e, s)
    ensures var r := CleanHypotheses(hs, s, deps);
            r.Success? ==> forall h :: h in r.value && (h.verdict.Supported? || h.verdict.Refuted?) ==>
                             h.evidenceIds != []
  {
    if hs != [] {
      CleanHypothesesBacked(hs[..|hs| - 1], s, deps);
    }
  }

  lemma PatchConditionsFrame(current: AnalysisState, args: PatchArgs, deps: Deps)
    requires PatchConditions(current, args, deps).Success?
    ensures var s := PatchConditions(current, args, deps).value;
            && s.conversation == current.conversation
            && s.datasource == current.datasource
            && s.hypotheses == (if args.startNewTask then [] else current.hypotheses)
            && (forall f :: f in s.filters ==> f.field in deps.allowedFields)
  {
  }

  lemma PatchConclusionsGrounded(s: AnalysisState, p: StatePatch, deps: Deps)
    requires Grounded(s, deps.artifacts) && PatchConclusions(s, p, deps).Success?
    ensures var t := PatchConclusions(s, p, deps).value;
            && Grounded(t, deps.artifacts)
            && t == s.(openQuestions := t.openQuestions, hypotheses := t.hypotheses)
            && (p.hypotheses.None? ==> t.hypotheses == s.hypotheses)
  {
    var t := PatchConclusions(s, p, deps).value;
    assert ConditionSignature(t) == ConditionSignature(s);
    if p.hypotheses.Some? {
      CleanHypothesesBacked(p.hypotheses.value, s, deps);
      forall h, e | h in t.hypotheses && e in h.evidenceIds ensures Backs(deps.artifacts, e, t) {
        assert Backs(deps.artifacts, e, s);
      }
    } else {
      GroundedByConditions(s, t, deps.artifacts);
    }
  }

  // A patch never leaves a hypothesis citing evidence from other conditions, whatever it changes.
  lemma PatchKeepsGrounded(current: AnalysisState, args: PatchArgs, deps: Deps)
    requires Grounded(current, deps.artifacts)
    requires PatchState(current, args, deps).Success?
    ensures var next := PatchState(current, args, deps).value;
            && Grounded(next, deps.artifacts)
            && next.revision == current.revision + 1
            && next.conversation == current.conversation
            && next.datasource == current.datasource
            && (ConditionSignature(next) != ConditionSignature(current) && args.patch.hypotheses.None?
                ==> next.hypotheses == [])
            && (forall f :: f in next.filters ==> f.field in deps.allowedFields)
  {
    hide PatchConditions, PatchConclusions;
    var conditions := PatchConditions(current, args, deps).value;
    PatchConditionsFrame(current, args, deps);
    var dropped := DropHypotheses(conditions, current);
    if dropped.hypotheses != [] {
      GroundedByConditions(current, dropped, deps.artifacts);
    }
    PatchConclusionsGrounded(dropped, args.patch, deps);
    var s := PatchConclusions(dropped, args.patch, deps).value;
    GroundedByConditions(s, s.(revision := current.revision + 1, status := InProgress), deps.artifacts);
  }

  // Evidence is checked against conditions only, so the state may be half built while hypotheses are checked.
  lemma HypothesisUsesConditions(h: Hypothesis, s: AnalysisState, t: AnalysisState, deps: Deps)
    requires ConditionSignature(s) == ConditionSignature(t) && s.freshness == t.freshness
    ensures CleanHypothesis(h, s, deps) == CleanHypothesis(h, t, deps)
  {
    assert forall id :: AcceptsEvidence(id, s, deps) == AcceptsEvidence(id, t, deps);
  }

  lemma {:induction false} HypothesesPrefixFails(hs: seq<Hypothesis>, i: nat, s: AnalysisState, deps: Deps)
    requires i <= |hs| && CleanHypotheses(hs[..i], s, deps).Failure?
    ensures CleanHypotheses(hs, s, deps) == Failure(CleanHypotheses(hs[..i], s, deps).error)
    decreases |hs|
  {
    if i == |hs| {
      assert hs[..i] == hs;
    } else {
      var front := hs[..|hs| - 1];
      assert front[..i] == hs[..i];
      HypothesesPrefixFails(front, i, s, deps);
    }
  }

  /** The hypothesis loop: each one is checked against, and then pushed onto, the state under construction. */
  method PushHypotheses(given: seq<Hypothesis>, start: AnalysisState, deps: Deps)
      returns (r: Result<AnalysisState, PatchError>)
    ensures var all := CleanHypotheses(given, start, deps);
            if all.Failure? then r == Failure(all.error) else r == Success(start.(hypotheses := all.value))
  {
    var state := start.(hypotheses := []);
    var i := 0;
    while i < |given|
      invariant 0 <= i <= |given|
      invariant CleanHypotheses(given[..i], start, deps) == Success(state.hypotheses)
      invariant state == start.(hypotheses := state.hypotheses)
    {
      var h := CleanHypothesis(given[i], state, deps);
      HypothesisUsesConditions(given[i], state, start, deps);
      assert given[..i + 1][..i] == given[..i];
      if h.Failure? {
        HypothesesPrefixFails(given, i + 1, start, deps);
        return Failure(h.error);
      }
      state := state.(hypotheses := state.hypotheses + [h.value]);
      i := i + 1;
    }
    assert given[..i] == given;
    return Success(state);
  }

  lemma {:induction false} FiltersPrefixFails(fs: seq<Filter>, i: nat, allowed: set<string>)
    requires i <= |fs| && CleanFilters(fs[..i], allowed).Failure?
    ensures CleanFilters(fs, allowed) == Failure(CleanFilters(fs[..i], allowed).error)
    decreases |fs|
  {
    if i == |fs| {
      assert fs[..i] == fs;
    } else {
      var front := fs[..|fs| - 1];
      assert front[..i] == fs[..i];
      FiltersPrefixFails(front, i, allowed);
    }
  }

  /** The filter loop: each one is checked and then pushed onto the state under construction. */
  method PushFilters(given: seq<Filter>, start: AnalysisState, allowed: set<string>)
      returns (r: Result<AnalysisState, PatchError>)
    ensures var all := CleanFilters(given, allowed);
            if all.Failure? then r == Failure(all.error) else r == Success(start.(filters := all.value))
  {
    hide CleanFilter;
    var state := start.(filters := []);
    for i := 0 to |given|
      invariant CleanFilters(given[..i], allowed) == Success(state.filters)
      invariant state == start.(filters := state.filters)
    {
      var f := CleanFilter(given[i], allowed);
      assert given[..i + 1][..i] == given[..i];
      if f.Failure? {
        FiltersPrefixFails(given, i + 1, allowed);
        return Failure(f.error);
      }
      state := state.(filters := state.filters + [f.value]);
    }
    assert given[..|given|] == given;
    return Success(state);
  }

  /** Filters that were kept may have lost their fields since. */
  method CheckFilters(filters: seq<Filter>, allowed: set<string>) returns (ok: bool)
    ensures ok <==> forall f :: f in filters ==> f.field in allowed
  {
    for i := 0 to |filters|
      invariant forall k :: 0 <= k < i ==> filters[k].field in allowed
    {
      if filters[i].field !in allowed {
        return false;
      }
    }
    return true;
  }

  method ApplyReferences(start: AnalysisState, p: StatePatch, deps: Deps) returns (r: Result<AnalysisState, PatchError>)
    ensures r == PatchReferences(start, p, deps)
  {
    hide CleanText, CleanRefs, CleanNotes;
    var state := start;
    if p.question.Some? {
      var question :- CleanText(p.question.value);
      state := state.(question := question);
    }
    if p.memoryRefs.Some? {
      var listed :- CleanList(p.memoryRefs.value);
      var refs :- CleanRefs(listed, deps.memories);
      state := state.(memoryRefs := refs);
    }
    if p.temporaryNotes.Some? {
      var listed :- CleanList(p.temporaryNotes.value);
      var notes :- CleanNotes(listed, deps.sourceMessage);
      state := state.(temporaryNotes := notes);
    }
    return Success(state);
  }

  method ApplyPeriod(start: AnalysisState, p: StatePatch) returns (r: Result<AnalysisState, PatchError>)
    ensures r == PatchPeriod(start, p)
  {
    hide CleanText, CleanRange;
    var state := start;
    if p.timeRange.Some? {
      var range :- CleanRange(p.timeRange.value);
      state := state.(timeRange := range);
    }
    if p.comparisonRange.Some? {
      var range :- CleanRange(p.comparisonRange.value);
      state := state.(comparisonRange := range);
    }
    if p.grain.Some? {
      var grain: Option<string> := None;
      if p.grain.value.Some? {
        var text :- CleanText(p.grain.value.value);
        grain := Some(text);
      }
      state := state.(grain := grain);
    }
    if p.freshness.Some? {
      state := state.(freshness := p.freshness.value);
    }
    return Success(state);
  }

  method ApplyFilters(start: AnalysisState, p: StatePatch, deps: Deps) returns (r: Result<AnalysisState, PatchError>)
    ensures r == PatchFilters(start, p, deps)
  {
    hide CleanFilters;
    var state := start;
    if p.filters.Some? {
      var given :- CleanList(p.filters.value);
      state :- PushFilters(given, state, deps.allowedFields);
    }
    var ok := CheckFilters(state.filters, deps.allowedFields);
    return if ok then Success(state) else Failure(FilterExpired);
  }

  /** The first half of the patch, field by field on the state under construction. */
  method ApplyConditions(current: AnalysisState, args: PatchArgs, deps: Deps)
      returns (r: Result<AnalysisState, PatchError>)
    ensures r == PatchConditions(current, args, deps)
  {
    hide PatchReferences, PatchPeriod, PatchFilters;
    var state := current;
    if args.startNewTask {
      state := NewState(current.conversation, current.datasource, current.question, current.revision, deps.freshTask);
    }
    state :- ApplyReferences(state, args.patch, deps);
    state :- ApplyPeriod(state, args.patch);
    r := ApplyFilters(state, args.patch, deps);
  }

  /** The second half of the patch, on the state under construction. */
  method ApplyConclusions(start: AnalysisState, p: StatePatch, deps: Deps)
      returns (r: Result<AnalysisState, PatchError>)
    ensures r == PatchConclusions(start, p, deps)
  {
    var state := start;
    if p.openQuestions.Some? {
      var listed :- CleanList(p.openQuestions.value);
      var cleaned :- CleanTexts(listed);
      state := state.(openQuestions := cleaned);
    }
    if p.hypotheses.Some? {
      var given :- CleanList(p.hypotheses.value);
      HypothesesUseConditions(given, state, start, deps);
      state :- PushHypotheses(given, state, deps);
      if !DistinctHypotheses(state.hypotheses) {
        return Failure(DuplicateHypothesis);
      }
    }
    return Success(state);
  }

  /** The patch as the source runs it, field by field on a state under construction. */
  method PatchAnalysisState(current: AnalysisState, args: PatchArgs, deps: Deps)
      returns (r: Result<AnalysisState, PatchError>)
    ensures r == PatchState(current, args, deps)
  {
    hide PatchConditions, PatchConclusions;
    if args.expectedRevision != current.revision {
      return Failure(RevisionConflict);
    }
    var _ :- CleanText(args.reason);
    var state :- ApplyConditions(current, args, deps);
    if ConditionSignature(state) != ConditionSignature(current) {
      state := state.(hypotheses := []);
    }
    state :- ApplyConclusions(state, args.patch, deps);
    return Success(state.(revision := current.revision + 1, status := InProgress));
  }

  lemma {:induction false} HypothesesUseConditions(hs: seq<Hypothesis>, s: AnalysisState, t: AnalysisState, deps: Deps)
    requires ConditionSignature(s) == ConditionSignature(t) && s.freshness == t.freshness
    ensures CleanHypotheses(hs, s, deps) == CleanHypotheses(hs, t, deps)
  {
    if hs != [] {
      HypothesesUseConditions(hs[..|hs| - 1], s, t, deps);
      HypothesisUsesConditions(hs[|hs| - 1], s, t, deps);
    }
  }

  // ---------- A new turn, and the end of one ----------

  function UnavailableNotice(r: MemoryRef): string {
    "记忆 " + Decimal(r.id) + " v" + Decimal(r.version) + " 已变更或不可用，请重新选择"
  }

  // The state a generation starts from: the committed one of the same datasource, or a new task.
  function BeginState(
    previous: Option<AnalysisState>, base: nat, conversation: ConversationId, datasource: nat, question: string,
    memories: seq<Memory>, freshTask: nat): AnalysisState
  {
    var start := if previous.Some? && previous.value.datasource == datasource then previous.value
                 else NewState(conversation, datasource, question, 1, freshTask);
    var kept := KeepRefs(start.memoryRefs, memories);
    var s := start.(revision := base + 1, status := InProgress, memoryRefs := kept);
    if |kept| == |start.memoryRefs| then s
    else
      var notices := DroppedNotices(start.memoryRefs, memories) + s.openQuestions;
      s.(hypotheses := [], openQuestions := if |notices| > 30 then notices[..30] else notices)
  }

  predicate HasVersion(r: MemoryRef, memories: seq<Memory>) {
    exists m :: m in memories && m.id == r.id && m.version == r.version
  }

  function KeepRefs(refs: seq<MemoryRef>, memories: seq<Memory>): (kept: seq<MemoryRef>)
    ensures |kept| <= |refs|
    ensures |kept| == |refs| ==> kept == refs
  {
    if refs == [] then []
    else if HasVersion(refs[0], memories) then [refs[0]] + KeepRefs(refs[1..], memories)
    else KeepRefs(refs[1..], memories)
  }

  function DroppedNotices(refs: seq<MemoryRef>, memories: seq<Memory>): seq<string> {
    if refs == [] then []
    else
      (if HasVersion(refs[0], memories) then [] else [UnavailableNotice(refs[0])])
      + DroppedNotices(refs[1..], memories)
  }

  // Carrying a state into the next turn keeps it grounded: a lost memory drops the hypotheses with it.
  lemma BeginKeepsGrounded(
    previous: Option<AnalysisState>, base: nat, conversation: ConversationId, datasource: nat, question: string,
    memories: seq<Memory>, freshTask: nat, artifacts: map<ArtifactId, Artifact>)
    requires previous.Some? ==> Grounded(previous.value, artifacts)
    ensures var s := BeginState(previous, base, conversation, datasource, question, memories, freshTask);
            && Grounded(s, artifacts)
            && s.datasource == datasource
            && s.revision == base + 1
            && (forall r :: r in s.memoryRefs ==> HasVersion(r, memories))
  {
    var s := BeginState(previous, base, conversation, datasource, question, memories, freshTask);
    var start := if previous.Some? && previous.value.datasource == datasource then previous.value
                 else NewState(conversation, datasource, question, 1, freshTask);
    KeptRefsHaveVersions(start.memoryRefs, memories);
    assert Grounded(start, artifacts);
    if s.hypotheses != [] {
      GroundedByConditions(start, s, artifacts);
    }
  }

  lemma {:induction false} KeptRefsHaveVersions(refs: seq<MemoryRef>, memories: seq<Memory>)
    ensures forall r :: r in KeepRefs(refs, memories) ==> HasVersion(r, memories)
  {
    if refs != [] {
      KeptRefsHaveVersions(refs[1..], memories);
    }
  }

  // ---------- No memory is listed twice ----------

  lemma {:induction false} KeptRefsAreListed(refs: seq<MemoryRef>, memories: seq<Memory>)
    requires DistinctIds(refs)
    ensures DistinctIds(KeepRefs(refs, memories)) && forall r :: r in KeepRefs(refs, memories) ==> r in refs
  {
    if refs != [] {
      KeptRefsAreListed(refs[1..], memories);
      assert refs == [refs[0]] + refs[1..];
      assert forall r :: r in refs[1..] ==> r.id != refs[0].id;
    }
  }

  lemma BeginKeepsRefsDistinct(
    previous: Option<AnalysisState>, base: nat, conversation: ConversationId, datasource: nat, question: string,
    memories: seq<Memory>, freshTask: nat)
    requires previous.Some? ==> DistinctIds(previous.value.memoryRefs)
    ensures DistinctIds(BeginState(previous, base, conversation, datasource, question, memories, freshTask).memoryRefs)
  {
    var start := if previous.Some? && previous.value.datasource == datasource then previous.value
                 else NewState(conversation, datasource, question, 1, freshTask);
    KeptRefsAreListed(start.memoryRefs, memories);
  }

  lemma ConditionsKeepRefsDistinct(current: AnalysisState, args: PatchArgs, deps: Deps)
    requires DistinctIds(current.memoryRefs) && PatchConditions(current, args, deps).Success?
    ensures DistinctIds(PatchConditions(current, args, deps).value.memoryRefs)
  {
    hide CleanText, CleanNotes, CleanRange, CleanFilters;
  }

  // The guard of a patch lets no id through twice, and everything else keeps the list or shortens it.
  lemma PatchKeepsRefsDistinct(current: AnalysisState, args: PatchArgs, deps: Deps)
    requires DistinctIds(current.memoryRefs) && PatchState(current, args, deps).Success?
    ensures DistinctIds(PatchState(current, args, deps).value.memoryRefs)
  {
    hide PatchConditions, CleanHypotheses, CleanTexts;
    ConditionsKeepRefsDistinct(current, args, deps);
  }

  // What the run saves when the agent returns.
  function FinalState(s: AnalysisState, status: Progress, missing: seq<string>): AnalysisState {
    s.(revision := s.revision + 1, status := status, openQuestions := if missing != [] then missing
        else s.openQuestions)
  }
}
