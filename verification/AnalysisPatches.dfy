/**
 * What an accepted patch of an analysis state does, field by field, and which patches are accepted
 * (apps/worker/src/analysis/analysis-state.ts); and what a new turn takes over from the one before
 * (apps/worker/src/analysis/analysis-state.repository.ts).
 */
module AnalysisPatches {
  import opened Common
  import opened AnalysisStates
  import opened Events

  // ---------- Fields ----------

  // A text is accepted if it has something but white space and is not too long; it is kept without the space around it.
  ghost predicate TextTaken(given: string, kept: string) {
    Trimmed(given, kept) && kept != "" && |given| <= 4000
  }

  ghost predicate TextsTaken(given: seq<string>, kept: seq<string>) {
    |kept| == |given| && forall i :: 0 <= i < |given| ==> TextTaken(given[i], kept[i])
  }

  ghost predicate RangeTaken(given: Option<Range>, kept: Option<Range>) {
    if given.None? then kept.None?
    else
      && given.value.start < given.value.endExclusive
      && kept.Some? && kept.value.start == given.value.start && kept.value.endExclusive == given.value.endExclusive
      && TextTaken(given.value.timezone, kept.value.timezone)
  }

  // References name active memories of this turn, each memory once.
  ghost predicate RefsTaken(given: seq<MemoryRef>, kept: seq<MemoryRef>, memories: seq<Memory>) {
    && kept == given && |given| <= 30
    && (forall r :: r in given ==> exists m :: m in memories && m.id == r.id && m.version == r.version && m.active)
    && (forall i, j :: 0 <= i < j < |given| ==> given[i].id != given[j].id)
  }

  ghost predicate NotesTaken(given: seq<Note>, kept: seq<Note>, source: MessageId) {
    |kept| == |given| <= 30 && forall i :: 0 <= i < |given| ==> NoteTaken(given[i], kept[i], source)
  }

  ghost predicate NoteTaken(given: Note, kept: Note, source: MessageId) {
    && TextTaken(given.name, kept.name) && TextTaken(given.description, kept.description)
    && kept.source == source
  }

  // A filter on an allowed field, with a list of values for `in` and at most one value otherwise.
  ghost predicate FilterTaken(given: Filter, kept: Filter, allowed: set<string>) {
    && TextTaken(given.field, kept.field) && kept.field in allowed
    && kept.operator == given.operator && kept.value == given.value
    && (if given.operator.In? then 1 <= |given.value| <= 100 else |given.value| <= 1)
    && (forall v :: v in given.value ==> |v| <= 1000)
  }

  ghost predicate FiltersTaken(given: seq<Filter>, kept: seq<Filter>, allowed: set<string>) {
    |kept| == |given| <= 30 && forall i :: 0 <= i < |given| ==> FilterTaken(given[i], kept[i], allowed)
  }

  // The conditions under which evidence counts for a state.
  ghost predicate SameConditions(s: AnalysisState, t: AnalysisState) {
    && s.taskId == t.taskId && s.datasource == t.datasource && SameByMemory(s.memoryRefs, t.memoryRefs)
    && s.temporaryNotes == t.temporaryNotes && s.timeRange == t.timeRange && s.comparisonRange == t.comparisonRange
    && s.filters == t.filters && s.grain == t.grain
  }

  // Evidence is accepted if it was read or made in this run, is complete and has no blocking warning, and was recorded
  // under the same conditions, in this generation if the state asks for that.
  ghost predicate EvidenceTaken(id: ArtifactId, s: AnalysisState, deps: Deps) {
    && id in deps.readable && id in deps.observed && id !in deps.blocking
    && id in deps.artifacts
    && var a := deps.artifacts[id];
       && !a.limited && a.datasource == s.datasource
       && a.context.Some? && SameConditions(a.context.value, s)
       && (s.freshness.CurrentGeneration? ==> a.generation == deps.generation)
  }

  ghost predicate HypothesisTaken(given: Hypothesis, kept: Hypothesis, s: AnalysisState, deps: Deps) {
    && TextTaken(given.id, kept.id) && TextTaken(given.statement, kept.statement) && kept.verdict == given.verdict
    && |given.evidenceIds| <= 30 && TextsTaken(given.evidenceIds, kept.evidenceIds)
    && (forall e :: e in kept.evidenceIds ==> EvidenceTaken(e, s, deps))
    && (given.verdict.Supported? || given.verdict.Refuted? ==> given.evidenceIds != [])
  }

  ghost predicate HypothesesTaken(given: seq<Hypothesis>, kept: seq<Hypothesis>, s: AnalysisState, deps: Deps) {
    && |kept| == |given| <= 30
    && (forall i :: 0 <= i < |given| ==> HypothesisTaken(given[i], kept[i], s, deps))
    && (forall i, j :: 0 <= i < j < |kept| ==> kept[i].id != kept[j].id)
  }

  // ---------- The whole patch ----------

  // What the conditions are built on: the current state, or a blank one that keeps only where it belongs and what was
  // asked.
  ghost predicate StartsFrom(current: AnalysisState, args: PatchArgs, freshTask: nat, start: AnalysisState) {
    if args.startNewTask then
      && start.taskId == freshTask && start.conversation == current.conversation
      && start.datasource == current.datasource && start.revision == current.revision
      && start.question == current.question && start.memoryRefs == [] && start.temporaryNotes == []
      && start.timeRange == None && start.comparisonRange == None && start.filters == [] && start.grain == None
      && start.freshness == ReuseAllowed && start.hypotheses == [] && start.openQuestions == []
    else start == current
  }

  // Each condition that the patch gives is taken, and each that it leaves out stays.
  ghost predicate ReferencesTaken(start: AnalysisState, p: StatePatch, deps: Deps, next: AnalysisState) {
    && (if p.question.Some? then TextTaken(p.question.value, next.question) else next.question == start.question)
    && (if p.memoryRefs.Some? then RefsTaken(p.memoryRefs.value, next.memoryRefs, deps.memories)
        else next.memoryRefs == start.memoryRefs)
    && (if p.temporaryNotes.Some? then NotesTaken(p.temporaryNotes.value, next.temporaryNotes, deps.sourceMessage)
        else next.temporaryNotes == start.temporaryNotes)
  }

  ghost predicate PeriodTaken(start: AnalysisState, p: StatePatch, next: AnalysisState) {
    && (if p.timeRange.Some? then RangeTaken(p.timeRange.value, next.timeRange) else next.timeRange == start.timeRange)
    && (if p.comparisonRange.Some? then RangeTaken(p.comparisonRange.value, next.comparisonRange)
        else next.comparisonRange == start.comparisonRange)
    && (if p.grain.None? then next.grain == start.grain
        else if p.grain.value.None? then next.grain == None
        else next.grain.Some? && TextTaken(p.grain.value.value, next.grain.value))
    && next.freshness == (if p.freshness.Some? then p.freshness.value else start.freshness)
  }

  // Filters that stay must still be allowed.
  ghost predicate FiltersChosen(start: AnalysisState, p: StatePatch, deps: Deps, next: AnalysisState) {
    && (if p.filters.Some? then FiltersTaken(p.filters.value, next.filters, deps.allowedFields)
        else next.filters == start.filters)
    && (forall f :: f in next.filters ==> f.field in deps.allowedFields)
  }

  ghost predicate ConditionsTaken(start: AnalysisState, p: StatePatch, deps: Deps, next: AnalysisState) {
    && next.taskId == start.taskId && next.conversation == start.conversation && next.datasource == start.datasource
    && ReferencesTaken(start, p, deps, next) && PeriodTaken(start, p, next) && FiltersChosen(start, p, deps, next)
  }

  ghost predicate QuestionsTaken(start: AnalysisState, p: StatePatch, next: AnalysisState) {
    if p.openQuestions.Some? then
      |p.openQuestions.value| <= 30 && TextsTaken(p.openQuestions.value, next.openQuestions)
    else next.openQuestions == start.openQuestions
  }

  // Hypotheses that the patch leaves out stay only under the conditions of the current state.
  ghost predicate ConclusionsTaken(start: AnalysisState, current: AnalysisState, p: StatePatch, deps: Deps,
      next: AnalysisState) {
    && QuestionsTaken(start, p, next)
    && (if p.hypotheses.Some? then HypothesesTaken(p.hypotheses.value, next.hypotheses, next, deps)
        else next.hypotheses == if SameConditions(next, current) then start.hypotheses else [])
  }

  // The patch names the current revision and a reason, and what it gives is accepted.
  ghost predicate Patched(current: AnalysisState, args: PatchArgs, deps: Deps, next: AnalysisState) {
    && args.expectedRevision == current.revision && (exists reason :: TextTaken(args.reason, reason))
    && next.revision == current.revision + 1 && next.status == InProgress
    && exists start ::
         && StartsFrom(current, args, deps.freshTask, start)
         && ConditionsTaken(start, args.patch, deps, next)
         && ConclusionsTaken(start, current, args.patch, deps, next)
  }

  // ---------- Texts ----------

  lemma TextIsTaken(given: string, kept: string)
    ensures CleanText(given) == Success(kept) <==> TextTaken(given, kept)
  {
    TrimIsExact(given, kept);
    TrimIsExact(given, Trim(given));
  }

  lemma {:induction false} TextsAreTaken(given: seq<string>, kept: seq<string>)
    ensures CleanTexts(given) == Success(kept) <==> TextsTaken(given, kept)
    decreases |given|
  {
    hide CleanText, TextTaken;
    if given == [] {
      assert kept == [] <==> |kept| == 0;
    } else if kept != [] {
      var n, m := |given| - 1, |kept| - 1;
      TextsAreTaken(given[..n], kept[..m]);
      TextIsTaken(given[n], kept[m]);
      assert kept == kept[..m] + [kept[m]];
    }
  }

  lemma RangeIsTaken(given: Option<Range>, kept: Option<Range>)
    ensures CleanRange(given) == Success(kept) <==> RangeTaken(given, kept)
  {
    hide CleanText, TextTaken;
    if given.Some? && kept.Some? {
      TextIsTaken(given.value.timezone, kept.value.timezone);
    }
    if given.Some? && CleanRange(given).Success? {
      TextIsTaken(given.value.timezone, CleanRange(given).value.value.timezone);
    }
  }

  lemma RefsAreTaken(given: seq<MemoryRef>, kept: seq<MemoryRef>, memories: seq<Memory>)
    ensures |given| <= 30 && CleanRefs(given, memories) == Success(kept) <==> RefsTaken(given, kept, memories)
  {
    forall r ensures KnownMemory(r, memories)
        <==> exists m :: m in memories && m.id == r.id && m.version == r.version && m.active {
      if m :| m in memories && m.id == r.id && m.version == r.version && m.active {
        assert m == Memory(r.id, r.version, true);
      }
    }
  }

  lemma {:induction false} NotesAreTaken(given: seq<Note>, kept: seq<Note>, source: MessageId)
    ensures CleanNotes(given, source) == Success(kept)
         <==> |kept| == |given| && forall i :: 0 <= i < |given| ==> NoteTaken(given[i], kept[i], source)
    decreases |given|
  {
    hide CleanText, TextTaken;
    if given == [] {
      assert kept == [] <==> |kept| == 0;
    } else if kept != [] {
      var n, m := |given| - 1, |kept| - 1;
      NotesAreTaken(given[..n], kept[..m], source);
      TextIsTaken(given[n].name, kept[m].name);
      TextIsTaken(given[n].description, kept[m].description);
      assert kept == kept[..m] + [kept[m]];
    }
  }

  lemma FilterIsTaken(given: Filter, kept: Filter, allowed: set<string>)
    ensures CleanFilter(given, allowed) == Success(kept) <==> FilterTaken(given, kept, allowed)
  {
    hide CleanText, TextTaken;
    TextIsTaken(given.field, kept.field);
  }

  lemma {:induction false} FiltersAreTaken(given: seq<Filter>, kept: seq<Filter>, allowed: set<string>)
    ensures CleanFilters(given, allowed) == Success(kept)
         <==> |kept| == |given| && forall i :: 0 <= i < |given| ==> FilterTaken(given[i], kept[i], allowed)
    decreases |given|
  {
    hide CleanFilter, FilterTaken;
    if given == [] {
      assert kept == [] <==> |kept| == 0;
    } else if kept != [] {
      var n, m := |given| - 1, |kept| - 1;
      FiltersAreTaken(given[..n], kept[..m], allowed);
      FilterIsTaken(given[n], kept[m], allowed);
      assert kept == kept[..m] + [kept[m]];
    }
  }

  // ---------- Evidence and hypotheses ----------

  // The signature of a state says exactly what its conditions are.
  lemma SignatureIsExact(s: AnalysisState, t: AnalysisState)
    ensures ConditionSignature(s) == ConditionSignature(t) <==> SameConditions(s, t)
  {
    hide SortRefs, SameByMemory;
    SignatureForgetsOrderBetweenMemories(s, s.(memoryRefs := t.memoryRefs));
  }

  lemma EvidenceIsTaken(id: ArtifactId, s: AnalysisState, deps: Deps)
    ensures AcceptsEvidence(id, s, deps) <==> EvidenceTaken(id, s, deps)
  {
    hide ConditionSignature, SameByMemory;
    if id in deps.artifacts && deps.artifacts[id].context.Some? {
      SignatureIsExact(deps.artifacts[id].context.value, s);
    }
  }

  lemma HypothesisIsTaken(given: Hypothesis, kept: Hypothesis, s: AnalysisState, deps: Deps)
    ensures CleanHypothesis(given, s, deps) == Success(kept) <==> HypothesisTaken(given, kept, s, deps)
  {
    hide CleanText, TextTaken, CleanTexts, TextsTaken, AcceptsEvidence, EvidenceTaken;
    TextsAreTaken(given.evidenceIds, kept.evidenceIds);
    TextIsTaken(given.id, kept.id);
    TextIsTaken(given.statement, kept.statement);
    forall e ensures AcceptsEvidence(e, s, deps) <==> EvidenceTaken(e, s, deps) {
      EvidenceIsTaken(e, s, deps);
    }
    if TextsTaken(given.evidenceIds, kept.evidenceIds) {
      TakenLength(given.evidenceIds, kept.evidenceIds);
    }
  }

  lemma TakenLength(given: seq<string>, kept: seq<string>)
    requires TextsTaken(given, kept)
    ensures |kept| == |given|
  {
  }

  lemma {:induction false} HypothesesAreTaken(given: seq<Hypothesis>, kept: seq<Hypothesis>, s: AnalysisState, deps: Deps)
    ensures CleanHypotheses(given, s, deps) == Success(kept)
         <==> |kept| == |given| && forall i :: 0 <= i < |given| ==> HypothesisTaken(given[i], kept[i], s, deps)
    decreases |given|
  {
    hide CleanHypothesis, HypothesisTaken;
    if given == [] {
      assert kept == [] <==> |kept| == 0;
    } else if kept != [] {
      var n, m := |given| - 1, |kept| - 1;
      HypothesesAreTaken(given[..n], kept[..m], s, deps);
      HypothesisIsTaken(given[n], kept[m], s, deps);
      assert kept == kept[..m] + [kept[m]];
    }
  }

  // ---------- The two halves ----------

  lemma ReferencesAreTaken(s: AnalysisState, p: StatePatch, deps: Deps, t: AnalysisState)
    ensures PatchReferences(s, p, deps) == Success(t) <==>
              && t == s.(question := t.question, memoryRefs := t.memoryRefs, temporaryNotes := t.temporaryNotes)
              && ReferencesTaken(s, p, deps, t)
  {
    hide CleanText, TextTaken, CleanRefs, RefsTaken, CleanNotes, NoteTaken;
    if p.question.Some? {
      TextIsTaken(p.question.value, t.question);
    }
    if p.memoryRefs.Some? {
      RefsAreTaken(p.memoryRefs.value, t.memoryRefs, deps.memories);
    }
    if p.temporaryNotes.Some? {
      NotesAreTaken(p.temporaryNotes.value, t.temporaryNotes, deps.sourceMessage);
    }
  }

  lemma PeriodIsTaken(s: AnalysisState, p: StatePatch, t: AnalysisState)
    ensures PatchPeriod(s, p) == Success(t) <==>
              && t == s.(timeRange := t.timeRange, comparisonRange := t.comparisonRange, grain := t.grain,
                         freshness := t.freshness)
              && PeriodTaken(s, p, t)
  {
    hide CleanText, TextTaken, CleanRange, RangeTaken;
    if p.timeRange.Some? {
      RangeIsTaken(p.timeRange.value, t.timeRange);
    }
    if p.comparisonRange.Some? {
      RangeIsTaken(p.comparisonRange.value, t.comparisonRange);
    }
    if p.grain.Some? && p.grain.value.Some? {
      TextIsTaken(p.grain.value.value, t.grain.GetOr(""));
      if PatchPeriod(s, p).Success? {
        TextIsTaken(p.grain.value.value, PatchPeriod(s, p).value.grain.value);
      }
    }
  }

  lemma FiltersAreChosen(s: AnalysisState, p: StatePatch, deps: Deps, t: AnalysisState)
    ensures PatchFilters(s, p, deps) == Success(t) <==> t == s.(filters := t.filters) && FiltersChosen(s, p, deps, t)
  {
    hide CleanFilters, FilterTaken;
    if p.filters.Some? {
      FiltersAreTaken(p.filters.value, t.filters, deps.allowedFields);
    }
  }

  // The conditions of a patch, on the state that it builds on.
  ghost function PatchFrom(start: AnalysisState, p: StatePatch, deps: Deps): Result<AnalysisState, PatchError> {
    var referring :- PatchReferences(start, p, deps);
    var timed :- PatchPeriod(referring, p);
    PatchFilters(timed, p, deps)
  }

  // One state with the conditions of another.
  function Blend(s: AnalysisState, t: AnalysisState): AnalysisState {
    s.(question := t.question, memoryRefs := t.memoryRefs, temporaryNotes := t.temporaryNotes,
       timeRange := t.timeRange, comparisonRange := t.comparisonRange, grain := t.grain, freshness := t.freshness,
       filters := t.filters)
  }

  lemma ConditionsAreTaken(start: AnalysisState, p: StatePatch, deps: Deps, c: AnalysisState)
    ensures PatchFrom(start, p, deps) == Success(c) <==> c == Blend(start, c) && ConditionsTaken(start, p, deps, c)
  {
    hide PatchReferences, PatchPeriod, PatchFilters, ReferencesTaken, PeriodTaken, FiltersChosen;
    var a := start.(question := c.question, memoryRefs := c.memoryRefs, temporaryNotes := c.temporaryNotes);
    var b := a.(timeRange := c.timeRange, comparisonRange := c.comparisonRange, grain := c.grain,
                freshness := c.freshness);
    ReferencesAreTaken(start, p, deps, a);
    PeriodIsTaken(a, p, b);
    FiltersAreChosen(b, p, deps, c);
    ReferencesOnly(start, p, deps, a, c);
    PeriodOnly(a, start, p, b, c);
    FiltersOnly(b, start, p, deps, c, c);
    if PatchFrom(start, p, deps).Success? {
      var x := PatchReferences(start, p, deps).value;
      var y := PatchPeriod(x, p).value;
      ReferencesAreTaken(start, p, deps, x);
      PeriodIsTaken(x, p, y);
      FiltersAreChosen(y, p, deps, PatchFrom(start, p, deps).value);
    }
  }

  lemma ReferencesOnly(s: AnalysisState, p: StatePatch, deps: Deps, t: AnalysisState, u: AnalysisState)
    requires t.question == u.question && t.memoryRefs == u.memoryRefs && t.temporaryNotes == u.temporaryNotes
    ensures ReferencesTaken(s, p, deps, t) <==> ReferencesTaken(s, p, deps, u)
  {
  }

  lemma PeriodOnly(s: AnalysisState, r: AnalysisState, p: StatePatch, t: AnalysisState, u: AnalysisState)
    requires s.timeRange == r.timeRange && s.comparisonRange == r.comparisonRange && s.grain == r.grain
    requires s.freshness == r.freshness
    requires t.timeRange == u.timeRange && t.comparisonRange == u.comparisonRange && t.grain == u.grain
    requires t.freshness == u.freshness
    ensures PeriodTaken(s, p, t) <==> PeriodTaken(r, p, u)
  {
  }

  lemma FiltersOnly(s: AnalysisState, r: AnalysisState, p: StatePatch, deps: Deps, t: AnalysisState, u: AnalysisState)
    requires s.filters == r.filters && t.filters == u.filters
    ensures FiltersChosen(s, p, deps, t) <==> FiltersChosen(r, p, deps, u)
  {
  }

  lemma ConclusionsAreTaken(s: AnalysisState, p: StatePatch, deps: Deps, t: AnalysisState)
    ensures PatchConclusions(s, p, deps) == Success(t) <==>
              && t == s.(openQuestions := t.openQuestions, hypotheses := t.hypotheses)
              && QuestionsTaken(s, p, t)
              && (if p.hypotheses.Some? then HypothesesTaken(p.hypotheses.value, t.hypotheses, s, deps)
                  else t.hypotheses == s.hypotheses)
  {
    hide CleanTexts, TextsTaken, CleanHypotheses, HypothesisTaken;
    if p.openQuestions.Some? {
      TextsAreTaken(p.openQuestions.value, t.openQuestions);
      if PatchConclusions(s, p, deps).Success? {
        TextsAreTaken(p.openQuestions.value, PatchConclusions(s, p, deps).value.openQuestions);
      }
    }
    if p.hypotheses.Some? {
      HypothesesAreTaken(p.hypotheses.value, t.hypotheses, s, deps);
      if PatchConclusions(s, p, deps).Success? {
        HypothesesAreTaken(p.hypotheses.value, PatchConclusions(s, p, deps).value.hypotheses, s, deps);
      }
    }
  }

  // Evidence looks at conditions only.
  lemma HypothesesLookAtConditions(given: seq<Hypothesis>, kept: seq<Hypothesis>, s: AnalysisState, t: AnalysisState,
      deps: Deps)
    requires t == Blend(t, s) && t.taskId == s.taskId && t.datasource == s.datasource
    ensures HypothesesTaken(given, kept, s, deps) <==> HypothesesTaken(given, kept, t, deps)
  {
    hide TextTaken, TextsTaken;
    assert forall e :: EvidenceTaken(e, s, deps) == EvidenceTaken(e, t, deps);
  }

  lemma ConditionsOnly(start: AnalysisState, p: StatePatch, deps: Deps, t: AnalysisState, u: AnalysisState)
    requires t == Blend(t, u) && t.taskId == u.taskId && t.conversation == u.conversation
          && t.datasource == u.datasource
    ensures ConditionsTaken(start, p, deps, t) <==> ConditionsTaken(start, p, deps, u)
  {
    hide ReferencesTaken, PeriodTaken, FiltersChosen;
    ReferencesOnly(start, p, deps, t, u);
    PeriodOnly(start, start, p, t, u);
    FiltersOnly(start, start, p, deps, t, u);
  }

  // ---------- The theorem ----------

  function StartOf(current: AnalysisState, args: PatchArgs, freshTask: nat): AnalysisState {
    if args.startNewTask
    then NewState(current.conversation, current.datasource, current.question, current.revision, freshTask)
    else current
  }

  lemma StartIsBlank(current: AnalysisState, args: PatchArgs, freshTask: nat, start: AnalysisState)
    ensures StartsFrom(current, args, freshTask, StartOf(current, args, freshTask))
    ensures StartsFrom(current, args, freshTask, start) ==>
              start == StartOf(current, args, freshTask).(status := start.status)
  {
  }

  lemma StatusIsNoCondition(start: AnalysisState, other: AnalysisState, current: AnalysisState, p: StatePatch, deps: Deps,
      next: AnalysisState)
    requires other == start.(status := other.status)
    ensures ConditionsTaken(start, p, deps, next) <==> ConditionsTaken(other, p, deps, next)
    ensures ConclusionsTaken(start, current, p, deps, next) <==> ConclusionsTaken(other, current, p, deps, next)
  {
    hide TextTaken, RefsTaken, NotesTaken, RangeTaken, FiltersTaken, HypothesesTaken, TextsTaken, SameConditions;
  }

  lemma AcceptedIsPatched(current: AnalysisState, args: PatchArgs, deps: Deps, next: AnalysisState)
    requires PatchState(current, args, deps) == Success(next)
    ensures Patched(current, args, deps, next)
  {
    hide CleanText, PatchConclusions, PatchReferences, PatchPeriod, PatchFilters, ConditionSignature, SameConditions,
        ConditionsTaken, QuestionsTaken, HypothesesTaken, StartsFrom, TextTaken;
    var start := StartOf(current, args, deps.freshTask);
    StartIsBlank(current, args, deps.freshTask, start);
    TextIsTaken(args.reason, CleanText(args.reason).value);
    var c := PatchConditions(current, args, deps).value;
    assert PatchFrom(start, args.patch, deps) == Success(c);
    ConditionsAreTaken(start, args.patch, deps, c);
    var d := DropHypotheses(c, current);
    var t := PatchConclusions(d, args.patch, deps).value;
    ConclusionsAreTaken(d, args.patch, deps, t);
    ConditionsOnly(start, args.patch, deps, next, c);
    SignatureIsExact(c, current);
    SameConditionsOf(c, next, current);
    if args.patch.hypotheses.Some? {
      HypothesesLookAtConditions(args.patch.hypotheses.value, next.hypotheses, d, next, deps);
    }
    QuestionsOnly(d, start, args.patch, t, next);
    assert ConclusionsTaken(start, current, args.patch, deps, next);
  }

  lemma QuestionsOnly(s: AnalysisState, r: AnalysisState, p: StatePatch, t: AnalysisState, u: AnalysisState)
    requires s.openQuestions == r.openQuestions && t.openQuestions == u.openQuestions
    ensures QuestionsTaken(s, p, t) <==> QuestionsTaken(r, p, u)
  {
  }

  lemma SameConditionsOf(s: AnalysisState, t: AnalysisState, current: AnalysisState)
    requires t == Blend(t, s) && t.taskId == s.taskId && t.datasource == s.datasource
    ensures SameConditions(s, current) <==> SameConditions(t, current)
  {
  }

  lemma PatchedIsAccepted(current: AnalysisState, args: PatchArgs, deps: Deps, next: AnalysisState)
    requires Patched(current, args, deps, next)
    ensures PatchState(current, args, deps) == Success(next)
  {
    hide CleanText, PatchConclusions, PatchReferences, PatchPeriod, PatchFilters, ConditionSignature, SameConditions,
        ConditionsTaken, QuestionsTaken, HypothesesTaken, StartsFrom, TextTaken;
    var given :| StartsFrom(current, args, deps.freshTask, given) && ConditionsTaken(given, args.patch, deps, next)
        && ConclusionsTaken(given, current, args.patch, deps, next);
    var reason :| TextTaken(args.reason, reason);
    TextIsTaken(args.reason, reason);
    var start := StartOf(current, args, deps.freshTask);
    StartIsBlank(current, args, deps.freshTask, given);
    StatusIsNoCondition(start, given, current, args.patch, deps, next);
    var c := Blend(start, next);
    FieldsOfTaken(start, args.patch, deps, next);
    ConditionsOnly(start, args.patch, deps, next, c);
    ConditionsAreTaken(start, args.patch, deps, c);
    assert PatchConditions(current, args, deps) == Success(c);
    var d := DropHypotheses(c, current);
    var t := d.(openQuestions := next.openQuestions, hypotheses := next.hypotheses);
    SignatureIsExact(c, current);
    SameConditionsOf(c, next, current);
    if args.patch.hypotheses.Some? {
      HypothesesLookAtConditions(args.patch.hypotheses.value, next.hypotheses, d, next, deps);
    }
    QuestionsOnly(d, start, args.patch, t, next);
    ConclusionsAreTaken(d, args.patch, deps, t);
  }

  lemma FieldsOfTaken(start: AnalysisState, p: StatePatch, deps: Deps, next: AnalysisState)
    requires ConditionsTaken(start, p, deps, next)
    ensures next.taskId == start.taskId && next.conversation == start.conversation
          && next.datasource == start.datasource
  {
  }

  // A patch is accepted with some result exactly if it may be, and the result is exactly what it asks for.
  lemma PatchIsExact(current: AnalysisState, args: PatchArgs, deps: Deps, next: AnalysisState)
    ensures PatchState(current, args, deps) == Success(next) <==> Patched(current, args, deps, next)
  {
    hide PatchState, Patched;
    if PatchState(current, args, deps) == Success(next) {
      AcceptedIsPatched(current, args, deps, next);
    }
    if Patched(current, args, deps, next) {
      PatchedIsAccepted(current, args, deps, next);
    }
  }

  // ---------- A new turn ----------

  // References that name a version of this turn are kept, in their order.
  ghost predicate CurrentKept(refs: seq<MemoryRef>, memories: seq<Memory>, kept: seq<MemoryRef>) {
    exists ps :: Picked(refs, kept, ps) && forall k :: 0 <= k < |refs| ==> (k in ps <==> IsCurrent(refs[k], memories))
  }

  // For each of the others there is a notice.
  ghost predicate OthersNoticed(refs: seq<MemoryRef>, memories: seq<Memory>, notices: seq<string>) {
    exists ps ::
      && Picked(Notices(refs), notices, ps)
      && forall k :: 0 <= k < |refs| ==> (k in ps <==> !IsCurrent(refs[k], memories))
  }

  function Notices(refs: seq<MemoryRef>): (r: seq<string>)
    ensures |r| == |refs| && forall k :: 0 <= k < |refs| ==> r[k] == UnavailableNotice(refs[k])
  {
    if refs == [] then [] else [UnavailableNotice(refs[0])] + Notices(refs[1..])
  }

  ghost predicate IsCurrent(r: MemoryRef, memories: seq<Memory>) {
    exists m :: m in memories && m.id == r.id && m.version == r.version
  }

  lemma VersionIsCurrent(r: MemoryRef, memories: seq<Memory>)
    ensures HasVersion(r, memories) <==> IsCurrent(r, memories)
  {
  }

  lemma {:induction false} KeepIsExact(refs: seq<MemoryRef>, memories: seq<Memory>)
    ensures CurrentKept(refs, memories, KeepRefs(refs, memories))
  {
    if refs == [] {
      assert Picked(refs, KeepRefs(refs, memories), []);
    } else {
      var rest, take := refs[1..], HasVersion(refs[0], memories);
      VersionIsCurrent(refs[0], memories);
      KeepIsExact(rest, memories);
      var kept := KeepRefs(rest, memories);
      assert KeepRefs(refs, memories) == (if take then [refs[0]] else []) + kept;
      hide KeepRefs, HasVersion, IsCurrent;
      var ps :| Picked(rest, kept, ps) && forall k :: 0 <= k < |rest| ==> (k in ps <==> IsCurrent(rest[k], memories));
      var qs := PickMore(refs[0], rest, kept, ps, take);
      hide Picked;
      assert [refs[0]] + rest == refs;
      forall k | 0 <= k < |refs| ensures k in qs <==> IsCurrent(refs[k], memories) {
        assert k > 0 ==> refs[k] == rest[k - 1] && (k - 1) + 1 == k;
      }
    }
  }

  lemma {:induction false} DropIsExact(refs: seq<MemoryRef>, memories: seq<Memory>)
    ensures OthersNoticed(refs, memories, DroppedNotices(refs, memories))
  {
    if refs == [] {
      assert Picked(Notices(refs), DroppedNotices(refs, memories), []);
    } else {
      var rest, take := refs[1..], !HasVersion(refs[0], memories);
      var x := UnavailableNotice(refs[0]);
      VersionIsCurrent(refs[0], memories);
      DropIsExact(rest, memories);
      var lost := DroppedNotices(rest, memories);
      assert DroppedNotices(refs, memories) == (if take then [x] else []) + lost;
      assert Notices(refs) == [x] + Notices(rest);
      hide DroppedNotices, UnavailableNotice, HasVersion, IsCurrent;
      var ps :| Picked(Notices(rest), lost, ps)
          && forall k :: 0 <= k < |rest| ==> (k in ps <==> !IsCurrent(rest[k], memories));
      var qs := PickMore(x, Notices(rest), lost, ps, take);
      hide Picked, Notices;
      forall k | 0 <= k < |refs| ensures k in qs <==> !IsCurrent(refs[k], memories) {
        assert k > 0 ==> refs[k] == rest[k - 1] && (k - 1) + 1 == k;
      }
    }
  }

  // The conditions of the next turn are those of the last committed state of the same datasource, or blank.
  ghost predicate CarriesOver(previous: Option<AnalysisState>, conversation: ConversationId, datasource: nat,
      question: string, freshTask: nat, start: AnalysisState) {
    if previous.Some? && previous.value.datasource == datasource then start == previous.value
    else
      && start.taskId == freshTask && start.conversation == conversation && start.datasource == datasource
      && start.question == question && start.memoryRefs == [] && start.temporaryNotes == []
      && start.timeRange == None && start.comparisonRange == None && start.filters == [] && start.grain == None
      && start.freshness == ReuseAllowed && start.hypotheses == [] && start.openQuestions == []
  }

  // A turn begins with the carried state one revision further. References that are no longer current drop out; if there
  // are any, the hypotheses go with them and the notices come before the open questions, thirty in all.
  lemma BeginIsExact(previous: Option<AnalysisState>, base: nat, conversation: ConversationId, datasource: nat,
      question: string, memories: seq<Memory>, freshTask: nat)
    ensures var s := BeginState(previous, base, conversation, datasource, question, memories, freshTask);
            exists start, notices ::
              && CarriesOver(previous, conversation, datasource, question, freshTask, start)
              && CurrentKept(start.memoryRefs, memories, s.memoryRefs)
              && OthersNoticed(start.memoryRefs, memories, notices)
              && s == start.(revision := base + 1, status := InProgress, memoryRefs := s.memoryRefs,
                             hypotheses := if notices == [] then start.hypotheses else [],
                             openQuestions := if notices == [] then start.openQuestions
                                              else FirstOf(notices + start.openQuestions, 30))
  {
    var start := if previous.Some? && previous.value.datasource == datasource then previous.value
                 else NewState(conversation, datasource, question, 1, freshTask);
    var notices := DroppedNotices(start.memoryRefs, memories);
    KeepIsExact(start.memoryRefs, memories);
    DropIsExact(start.memoryRefs, memories);
    DroppedAreTheRest(start.memoryRefs, memories);
    assert CarriesOver(previous, conversation, datasource, question, freshTask, start);
    hide CurrentKept, OthersNoticed, DroppedNotices, CarriesOver;
    assert |notices| == 0 <==> notices == [];
    assert OthersNoticed(start.memoryRefs, memories, notices);
  }

  function FirstOf<T>(s: seq<T>, n: nat): seq<T> {
    if |s| > n then s[..n] else s
  }

  lemma {:induction false} DroppedAreTheRest(refs: seq<MemoryRef>, memories: seq<Memory>)
    ensures |KeepRefs(refs, memories)| + |DroppedNotices(refs, memories)| == |refs|
  {
    if refs != [] {
      DroppedAreTheRest(refs[1..], memories);
    }
  }
}
