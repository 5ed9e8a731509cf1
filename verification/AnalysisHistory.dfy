/**
 * Analysis sessions over the life of a conversation: begin, patches, evidence reads, the final save, promotion, and the
 * next turn that starts from what was promoted. Other transactions run in between
 * (apps/worker/src/analysis/analysis-tools.ts, analysis-runtime-adapter.ts).
 */
module AnalysisHistory {
  import opened Common
  import opened Events
  import opened AnalysisStates
  import opened Lifecycle
  import opened LifecycleProofs
  import opened LifecycleHistory

  // What a worker holds in memory while it analyses; `pending` is a state that is computed but not saved yet.
  datatype Analysis = Analysis(
    generation: GenerationId,
    token: Token,
    memories: seq<Memory>,
    state: AnalysisState,
    observed: set<ArtifactId>,
    prepared: bool,
    pending: Option<AnalysisState>)

  datatype Sys = Sys(db: Db, analyses: map<nat, Analysis>)

  datatype HistoryStep =
    | Other(step: Step)
    | StartStep(who: nat, id: GenerationId, token: Token, datasource: nat, question: string, memories: seq<Memory>,
        freshTask: nat)
    | PatchStep(who: nat, args: PatchArgs, source: MessageId, allowedFields: set<string>, readable: set<ArtifactId>,
        blocking: set<ArtifactId>, freshTask: nat)
    | ReadStep(who: nat, evidence: ArtifactId, comparison: bool)
    | QueryStep(who: nat, evidence: ArtifactId)
    | FinishStep(who: nat, status: Progress, missing: seq<string>)
    | StoreStep(who: nat)

  // Drafts change only through a session; every other transaction may happen at any time.
  predicate Foreign(s: Step) {
    !s.BeginStep? && !s.SaveStep?
  }

  function PatchDeps(sys: Sys, a: Analysis, s: HistoryStep): Deps
    requires s.PatchStep?
  {
    Deps(a.memories, s.source, s.allowedFields, sys.db.artifacts, s.readable, a.observed, s.blocking, a.generation,
        s.freshTask)
  }

  // read_query_artifact: evidence from other conditions is shown only in comparison mode, and then still observed.
  predicate MayRead(sys: Sys, a: Analysis, id: ArtifactId, comparison: bool) {
    && a.prepared && id in sys.db.artifacts
    && var e := sys.db.artifacts[id];
       || EvidenceMismatch(e, a.state, a.generation).None?
       || (comparison && e.datasource == a.state.datasource && e.context.Some?
           && e.context.value.taskId == a.state.taskId
           && !a.state.freshness.CurrentGeneration?)
  }

  // A query's own artifact is observed as soon as the query returns.
  predicate Queried(sys: Sys, a: Analysis, id: ArtifactId) {
    id in sys.db.artifacts && sys.db.artifacts[id].generation == a.generation
  }

  function Start(sys: Sys, s: HistoryStep): Sys
    requires s.StartStep?
  {
    var (db, r) := Begin(sys.db, s.id, s.token, s.datasource, s.question, s.memories, s.freshTask);
    if s.who in sys.analyses || r.OwnershipLost? then sys
    else Sys(db, sys.analyses[s.who := Analysis(s.id, s.token, s.memories, r.state, {}, false, None)])
  }

  function WithAnalysis(sys: Sys, who: nat, a: Analysis): Sys {
    sys.(analyses := sys.analyses[who := a])
  }

  // The save that follows a patch, or ends the run. A refused save raises, and the run goes no further with this state.
  function Store(sys: Sys, who: nat, a: Analysis): Sys {
    if a.pending.None? then sys
    else
      var (db, r) := Save(sys.db, a.generation, a.token, a.state.revision, a.pending.value);
      if r.Saved? then Sys(db, sys.analyses[who := a.(state := a.pending.value, pending := None, prepared := true)])
      else Sys(db, sys.analyses[who := a.(pending := None)])
  }

  function Patch(sys: Sys, s: HistoryStep): Sys
    requires s.PatchStep? && s.who in sys.analyses
  {
    var a := sys.analyses[s.who];
    var r := PatchState(a.state, s.args, PatchDeps(sys, a, s));
    if a.pending.None? && r.Success? then WithAnalysis(sys, s.who, a.(pending := Some(r.value))) else sys
  }

  function Observe(sys: Sys, who: nat, a: Analysis, id: ArtifactId, allowed: bool): Sys {
    if allowed then WithAnalysis(sys, who, a.(observed := a.observed + {id})) else sys
  }

  function Turn(sys: Sys, s: HistoryStep): Sys {
    match s
    case Other(step) => if Foreign(step) then sys.(db := Apply(sys.db, step)) else sys
    case StartStep(_, _, _, _, _, _, _) => Start(sys, s)
    case PatchStep(who, _, _, _, _, _, _) => if who in sys.analyses then Patch(sys, s) else sys
    case ReadStep(who, id, comparison) =>
      if who in sys.analyses then Observe(sys, who, sys.analyses[who], id,
          MayRead(sys, sys.analyses[who], id, comparison)) else sys
    case QueryStep(who, id) =>
      if who in sys.analyses then Observe(sys, who, sys.analyses[who], id, Queried(sys, sys.analyses[who], id)) else sys
    case FinishStep(who, status, missing) =>
      if who in sys.analyses && sys.analyses[who].pending.None?
      then WithAnalysis(sys, who, sys.analyses[who].(pending :=
          Some(FinalState(sys.analyses[who].state, status, missing))))
      else sys
    case StoreStep(who) => if who in sys.analyses then Store(sys, who, sys.analyses[who]) else sys
  }

  function Turns(sys: Sys, steps: seq<HistoryStep>): Sys {
    if steps == [] then sys else Turn(Turns(sys, steps[..|steps| - 1]), steps[|steps| - 1])
  }

  // ---------- The invariant ----------

  ghost predicate StoredGrounded(db: Db) {
    && (forall g :: g in db.drafts ==> Grounded(db.drafts[g].state, db.artifacts))
    && (forall c :: c in db.committed ==> Grounded(db.committed[c].state, db.artifacts))
  }

  ghost predicate HeldGrounded(sys: Sys) {
    forall who :: who in sys.analyses ==>
      && Grounded(sys.analyses[who].state, sys.db.artifacts)
      && (sys.analyses[who].pending.Some? ==> Grounded(sys.analyses[who].pending.value, sys.db.artifacts))
  }

  ghost predicate HistoryInv(sys: Sys) {
    Inv(sys.db) && StoredGrounded(sys.db) && HeldGrounded(sys)
  }

  ghost predicate ArtifactsKept(a: Db, b: Db) {
    forall id :: id in a.artifacts ==> id in b.artifacts && b.artifacts[id] == a.artifacts[id]
  }

  lemma GroundedStays(s: AnalysisState, a: Db, b: Db)
    requires Grounded(s, a.artifacts) && ArtifactsKept(a, b)
    ensures Grounded(s, b.artifacts)
  {
    forall h, e | h in s.hypotheses && e in h.evidenceIds ensures Backs(b.artifacts, e, s) {
      assert Backs(a.artifacts, e, s);
    }
  }

  lemma HeldStays(sys: Sys, db: Db)
    requires HeldGrounded(sys) && ArtifactsKept(sys.db, db)
    ensures HeldGrounded(sys.(db := db))
  {
    hide Grounded, ArtifactsKept;
    forall who | who in sys.analyses
      ensures Grounded(sys.analyses[who].state, db.artifacts)
      ensures sys.analyses[who].pending.Some? ==> Grounded(sys.analyses[who].pending.value, db.artifacts)
    {
      GroundedStays(sys.analyses[who].state, sys.db, db);
      if sys.analyses[who].pending.Some? {
        GroundedStays(sys.analyses[who].pending.value, sys.db, db);
      }
    }
  }

  lemma StoredStays(a: Db, b: Db)
    requires StoredGrounded(a) && ArtifactsKept(a, b) && b.drafts == a.drafts && b.committed == a.committed
    ensures StoredGrounded(b)
  {
    hide Grounded, ArtifactsKept;
    forall g | g in b.drafts ensures Grounded(b.drafts[g].state, b.artifacts) {
      GroundedStays(b.drafts[g].state, a, b);
    }
    forall c | c in b.committed ensures Grounded(b.committed[c].state, b.artifacts) {
      GroundedStays(b.committed[c].state, a, b);
    }
  }

  // ---------- Transactions outside sessions ----------

  lemma CloseKeepsDraftRows(db: Db, closing: map<GenerationId, Closing>)
    requires closing.Keys <= db.generations.Keys
    ensures Close(db, closing).drafts == db.drafts
  {
  }

  lemma FinalizeKeepsDraftRows(db: Db, g: GenerationId, writer: Option<Token>, status: TerminalStatus)
    ensures Finalize(db, g, writer, status).0.drafts == db.drafts
  {
    hide Close;
    if Finalize(db, g, writer, status).1.Finalized? {
      if status.Completed? {
        CloseKeepsDraftRows(Promote(db, g), Completing(g));
      } else {
        CloseKeepsDraftRows(db, map[g := Closing(status, TerminalEvent(status))]);
      }
    }
  }

  lemma ForeignKeepsDraftRows(db: Db, s: Step)
    requires Foreign(s)
    ensures Apply(db, s).drafts == db.drafts
  {
    hide Close, Finalize;
    match s
    case FinalizeStep(id, w, status) => FinalizeKeepsDraftRows(db, id, w, status);
    case FailQueuedStep(id) =>
      if FailQueued(db, id) != db {
        CloseKeepsDraftRows(db, map[id := Closing(Failed, TerminalEvent(Failed))]);
      }
    case FailStaleStep(aged) => CloseKeepsDraftRows(db, StaleClosing(db, aged));
    case _ =>
  }

  lemma ArtifactsStay(db: Db, s: Step)
    requires Inv(db)
    ensures ArtifactsKept(db, Apply(db, s))
  {
    hide Apply, Inv, RowsEvolve, LogsGrow, StatesGrow;
    ApplyEvolves(db, s);
  }

  lemma PromotedGrounded(a: Db, b: Db, g: GenerationId)
    requires StoredGrounded(a) && ArtifactsKept(a, b) && b.drafts == a.drafts && g in a.drafts
    requires b.committed == a.committed[a.drafts[g].conversation :=
          Committed(a.drafts[g].revision, a.drafts[g].state, g)]
    ensures StoredGrounded(b)
  {
    hide Grounded, ArtifactsKept;
    forall h | h in b.drafts ensures Grounded(b.drafts[h].state, b.artifacts) {
      GroundedStays(b.drafts[h].state, a, b);
    }
    forall c | c in b.committed ensures Grounded(b.committed[c].state, b.artifacts) {
      GroundedStays(b.committed[c].state, a, b);
    }
  }

  lemma ForeignKeepsInv(sys: Sys, s: Step)
    requires HistoryInv(sys) && Foreign(s)
    ensures HistoryInv(sys.(db := Apply(sys.db, s)))
  {
    var a, b := sys.db, Apply(sys.db, s);
    hide Inv, Apply, StoredGrounded, HeldGrounded, ArtifactsKept;
    ApplyKeepsInv(a, s);
    ArtifactsStay(a, s);
    HeldStays(sys, b);
    ForeignKeepsDraftRows(a, s);
    if b.committed == a.committed {
      StoredStays(a, b);
    } else {
      CommittedStatesOnlyGrow(a, s);
      PromotedGrounded(a, b, s.id);
    }
  }

  // ---------- Sessions ----------

  lemma DraftWritten(a: Db, b: Db, g: GenerationId)
    requires StoredGrounded(a) && b.artifacts == a.artifacts && b.committed == a.committed
    requires g in b.drafts && b.drafts == a.drafts[g := b.drafts[g]] && Grounded(b.drafts[g].state, a.artifacts)
    ensures StoredGrounded(b)
  {
    hide Grounded;
  }

  lemma BegunGrounded(db: Db, g: GenerationId, t: Token, ds: nat, q: string, ms: seq<Memory>, task: nat)
    requires StoredGrounded(db) && Begin(db, g, t, ds, q, ms, task).1.Begun?
    ensures var (n, r) := Begin(db, g, t, ds, q, ms, task);
            StoredGrounded(n) && n.artifacts == db.artifacts && Grounded(r.state, db.artifacts)
  {
    hide Grounded, BeginState;
    if g !in db.drafts {
      var c := db.generations[g].conversation;
      var previous := if c in db.committed then Some(db.committed[c].state) else None;
      BeginKeepsGrounded(previous, CommittedRevision(db, c), c, ds, q, ms, task, db.artifacts);
      DraftWritten(db, Begin(db, g, t, ds, q, ms, task).0, g);
    }
  }

  lemma StartKeepsInv(sys: Sys, s: HistoryStep)
    requires HistoryInv(sys) && s.StartStep?
    ensures HistoryInv(Start(sys, s))
  {
    hide Inv, StoredGrounded, Begin, Grounded;
    var (n, r) := Begin(sys.db, s.id, s.token, s.datasource, s.question, s.memories, s.freshTask);
    if r.Begun? {
      BegunGrounded(sys.db, s.id, s.token, s.datasource, s.question, s.memories, s.freshTask);
      BeginKeepsInv(sys.db, s.id, s.token, s.datasource, s.question, s.memories, s.freshTask);
    }
  }

  lemma SavedGrounded(db: Db, g: GenerationId, t: Token, expected: nat, state: AnalysisState)
    requires StoredGrounded(db) && Grounded(state, db.artifacts)
    ensures StoredGrounded(Save(db, g, t, expected, state).0)
          && Save(db, g, t, expected, state).0.artifacts == db.artifacts
  {
    hide Grounded, StoredGrounded;
    var (n, r) := Save(db, g, t, expected, state);
    if r.Saved? {
      DraftWritten(db, n, g);
    }
  }

  // Replacing what one worker holds.
  lemma HeldUpdated(sys: Sys, db: Db, who: nat, a: Analysis)
    requires HeldGrounded(sys) && db.artifacts == sys.db.artifacts
    requires Grounded(a.state, db.artifacts) && (a.pending.Some? ==> Grounded(a.pending.value, db.artifacts))
    ensures HeldGrounded(Sys(db, sys.analyses[who := a]))
  {
    hide Grounded;
  }

  lemma StoreKeepsInv(sys: Sys, who: nat)
    requires HistoryInv(sys) && who in sys.analyses
    ensures HistoryInv(Store(sys, who, sys.analyses[who]))
  {
    var a := sys.analyses[who];
    hide Inv, StoredGrounded, Save, Grounded;
    if a.pending.Some? {
      assert Grounded(a.state, sys.db.artifacts) && Grounded(a.pending.value, sys.db.artifacts);
      hide HeldGrounded;
      var n := Save(sys.db, a.generation, a.token, a.state.revision, a.pending.value).0;
      SavedGrounded(sys.db, a.generation, a.token, a.state.revision, a.pending.value);
      SaveKeepsInv(sys.db, a.generation, a.token, a.state.revision, a.pending.value);
      HeldUpdated(sys, n, who, a.(state := a.pending.value, pending := None, prepared := true));
      HeldUpdated(sys, sys.db, who, a.(pending := None));
    }
  }

  lemma PatchKeepsInv(sys: Sys, s: HistoryStep)
    requires HistoryInv(sys) && s.PatchStep? && s.who in sys.analyses
    ensures HistoryInv(Patch(sys, s))
  {
    var a := sys.analyses[s.who];
    hide Inv, StoredGrounded, Grounded, PatchState;
    if a.pending.None? && PatchState(a.state, s.args, PatchDeps(sys, a, s)).Success? {
      PatchKeepsGrounded(a.state, s.args, PatchDeps(sys, a, s));
      HeldUpdated(sys, sys.db, s.who, a.(pending := Some(PatchState(a.state, s.args, PatchDeps(sys, a, s)).value)));
    }
  }

  lemma FinishKeepsInv(sys: Sys, who: nat, status: Progress, missing: seq<string>)
    requires HistoryInv(sys) && who in sys.analyses
    ensures HistoryInv(WithAnalysis(sys, who, sys.analyses[who].(pending :=
          Some(FinalState(sys.analyses[who].state, status, missing)))))
  {
    hide Inv, StoredGrounded, Grounded, FinalState;
    FinalGrounded(sys.analyses[who].state, status, missing, sys.db.artifacts);
  }

  lemma ObserveKeepsInv(sys: Sys, who: nat, id: ArtifactId, allowed: bool)
    requires HistoryInv(sys) && who in sys.analyses
    ensures HistoryInv(Observe(sys, who, sys.analyses[who], id, allowed))
  {
    hide Inv, StoredGrounded, Grounded;
  }

  lemma TurnKeepsInv(sys: Sys, s: HistoryStep)
    requires HistoryInv(sys)
    ensures HistoryInv(Turn(sys, s))
  {
    hide HistoryInv, Apply, Start, Store, Patch, Observe, WithAnalysis, FinalState, MayRead, Queried;
    match s
    case Other(step) =>
      if Foreign(step) {
        ForeignKeepsInv(sys, step);
      }
    case StartStep(_, _, _, _, _, _, _) => StartKeepsInv(sys, s);
    case PatchStep(who, _, _, _, _, _, _) =>
      if who in sys.analyses {
        PatchKeepsInv(sys, s);
      }
    case ReadStep(who, id, comparison) =>
      if who in sys.analyses {
        ObserveKeepsInv(sys, who, id, MayRead(sys, sys.analyses[who], id, comparison));
      }
    case QueryStep(who, id) =>
      if who in sys.analyses {
        ObserveKeepsInv(sys, who, id, Queried(sys, sys.analyses[who], id));
      }
    case FinishStep(who, status, missing) =>
      if who in sys.analyses {
        FinishKeepsInv(sys, who, status, missing);
      }
    case StoreStep(who) =>
      if who in sys.analyses {
        StoreKeepsInv(sys, who);
      }
  }

  lemma FinalGrounded(s: AnalysisState, status: Progress, missing: seq<string>, artifacts: map<ArtifactId, Artifact>)
    requires Grounded(s, artifacts)
    ensures Grounded(FinalState(s, status, missing), artifacts)
  {
    GroundedByConditions(s, FinalState(s, status, missing), artifacts);
  }

  lemma {:induction false} TurnsKeepInv(sys: Sys, steps: seq<HistoryStep>)
    requires HistoryInv(sys)
    ensures HistoryInv(Turns(sys, steps))
  {
    hide HistoryInv, Turn;
    if steps != [] {
      TurnsKeepInv(sys, steps[..|steps| - 1]);
      TurnKeepsInv(Turns(sys, steps[..|steps| - 1]), steps[|steps| - 1]);
    }
  }

  // A state that some table or some worker holds.
  ghost predicate Occurs(sys: Sys, s: AnalysisState) {
    || (exists g :: g in sys.db.drafts && sys.db.drafts[g].state == s)
    || (exists c :: c in sys.db.committed && sys.db.committed[c].state == s)
    || (exists who :: who in sys.analyses && (sys.analyses[who].state == s || sys.analyses[who].pending == Some(s)))
  }

  lemma OccursGrounded(sys: Sys, s: AnalysisState)
    requires HistoryInv(sys) && Occurs(sys, s)
    ensures Grounded(s, sys.db.artifacts)
  {
    hide Inv, Grounded;
  }

  // In every reachable state of every conversation, whatever was patched, lost, promoted and carried over: each piece
  // of evidence that a hypothesis cites, in a draft, in a committed state or in a worker's memory, is a stored result
  // whose recorded conditions have the signature of the state that cites it.
  lemma EveryHypothesisIsBacked(userLimit: nat, steps: seq<HistoryStep>, sys: Sys, s: AnalysisState, h: Hypothesis,
      e: ArtifactId)
    requires sys == Turns(Sys(Empty(userLimit), map[]), steps)
    requires Occurs(sys, s) && h in s.hypotheses && e in h.evidenceIds
    ensures Backs(sys.db.artifacts, e, s)
  {
    EmptyInv(userLimit);
    hide Inv, Turns;
    TurnsKeepInv(Sys(Empty(userLimit), map[]), steps);
    hide HistoryInv, Occurs;
    OccursGrounded(sys, s);
  }

  // ---------- The order of memory references ----------

  ghost predicate ListsDistinct(sys: Sys) {
    forall s :: Occurs(sys, s) ==> DistinctIds(s.memoryRefs)
  }

  lemma ForeignKeepsLists(sys: Sys, step: Step, s: AnalysisState)
    requires Inv(sys.db) && Foreign(step) && Occurs(sys.(db := Apply(sys.db, step)), s)
    ensures Occurs(sys, s)
  {
    var a, b := sys.db, Apply(sys.db, step);
    hide Inv, Apply;
    ForeignKeepsDraftRows(a, step);
    if b.committed != a.committed {
      CommittedStatesOnlyGrow(a, step);
    }
  }

  function BegunState(db: Db, step: HistoryStep): AnalysisState
    requires step.StartStep? && step.id in db.generations
  {
    var c := db.generations[step.id].conversation;
    var previous := if c in db.committed then Some(db.committed[c].state) else None;
    BeginState(previous, CommittedRevision(db, c), c, step.datasource, step.question, step.memories, step.freshTask)
  }

  lemma StartBringsIn(sys: Sys, step: HistoryStep, s: AnalysisState)
    requires step.StartStep? && Occurs(Start(sys, step), s)
    ensures Occurs(sys, s) || (step.id in sys.db.generations && s == BegunState(sys.db, step))
  {
    hide BeginState;
    if step.id in sys.db.drafts {
      assert Occurs(sys, sys.db.drafts[step.id].state);
    }
  }

  lemma StartKeepsLists(sys: Sys, step: HistoryStep, s: AnalysisState)
    requires ListsDistinct(sys) && step.StartStep? && Occurs(Start(sys, step), s)
    ensures DistinctIds(s.memoryRefs)
  {
    StartBringsIn(sys, step, s);
    hide BeginState, DistinctIds, Start;
    if !Occurs(sys, s) {
      var db, c := sys.db, sys.db.generations[step.id].conversation;
      var previous := if c in db.committed then Some(db.committed[c].state) else None;
      assert previous.Some? ==> Occurs(sys, previous.value);
      BeginKeepsRefsDistinct(previous, CommittedRevision(db, c), c, step.datasource, step.question, step.memories,
          step.freshTask);
    }
  }

  // Replacing what one worker holds brings in its new state and its new pending state, and nothing else.
  lemma UpdateBringsIn(sys: Sys, who: nat, a: Analysis, s: AnalysisState)
    requires Occurs(WithAnalysis(sys, who, a), s)
    ensures Occurs(sys, s) || s == a.state || a.pending == Some(s)
  {
  }

  lemma PatchKeepsLists(sys: Sys, step: HistoryStep, s: AnalysisState)
    requires ListsDistinct(sys) && step.PatchStep? && step.who in sys.analyses && Occurs(Patch(sys, step), s)
    ensures DistinctIds(s.memoryRefs)
  {
    var a := sys.analyses[step.who];
    assert Occurs(sys, a.state);
    var r := PatchState(a.state, step.args, PatchDeps(sys, a, step));
    hide PatchState, DistinctIds, Occurs, WithAnalysis;
    if a.pending.None? && r.Success? {
      PatchKeepsRefsDistinct(a.state, step.args, PatchDeps(sys, a, step));
      UpdateBringsIn(sys, step.who, a.(pending := Some(r.value)), s);
    }
  }

  lemma FinishKeepsLists(sys: Sys, who: nat, status: Progress, missing: seq<string>, s: AnalysisState)
    requires ListsDistinct(sys) && who in sys.analyses
    requires Occurs(WithAnalysis(sys, who, sys.analyses[who].(pending :=
          Some(FinalState(sys.analyses[who].state, status, missing)))), s)
    ensures DistinctIds(s.memoryRefs)
  {
    var a := sys.analyses[who];
    assert Occurs(sys, a.state);
    hide DistinctIds, Occurs, WithAnalysis;
    UpdateBringsIn(sys, who, a.(pending := Some(FinalState(a.state, status, missing))), s);
  }

  lemma StoreKeepsLists(sys: Sys, who: nat, s: AnalysisState)
    requires who in sys.analyses && Occurs(Store(sys, who, sys.analyses[who]), s)
    ensures Occurs(sys, s)
  {
    hide Owned;
  }

  lemma ObserveKeepsLists(sys: Sys, who: nat, id: ArtifactId, allowed: bool, s: AnalysisState)
    requires who in sys.analyses && Occurs(Observe(sys, who, sys.analyses[who], id, allowed), s)
    ensures Occurs(sys, s)
  {
  }

  lemma TurnKeepsLists(sys: Sys, step: HistoryStep, s: AnalysisState)
    requires Inv(sys.db) && ListsDistinct(sys) && Occurs(Turn(sys, step), s)
    ensures DistinctIds(s.memoryRefs)
  {
    hide Inv, Apply, Start, Patch, Store, Observe, WithAnalysis, FinalState, MayRead, Queried, DistinctIds, Occurs;
    match step
    case Other(t) =>
      if Foreign(t) {
        ForeignKeepsLists(sys, t, s);
      }
    case StartStep(_, _, _, _, _, _, _) => StartKeepsLists(sys, step, s);
    case PatchStep(who, _, _, _, _, _, _) =>
      if who in sys.analyses {
        PatchKeepsLists(sys, step, s);
      }
    case ReadStep(who, id, comparison) =>
      if who in sys.analyses {
        ObserveKeepsLists(sys, who, id, MayRead(sys, sys.analyses[who], id, comparison), s);
      }
    case QueryStep(who, id) =>
      if who in sys.analyses {
        ObserveKeepsLists(sys, who, id, Queried(sys, sys.analyses[who], id), s);
      }
    case FinishStep(who, status, missing) =>
      if who in sys.analyses {
        if sys.analyses[who].pending.None? {
          FinishKeepsLists(sys, who, status, missing, s);
        }
      }
    case StoreStep(who) =>
      if who in sys.analyses {
        StoreKeepsLists(sys, who, s);
      }
  }

  lemma {:induction false} TurnsKeepLists(sys: Sys, steps: seq<HistoryStep>, s: AnalysisState)
    requires HistoryInv(sys) && ListsDistinct(sys) && Occurs(Turns(sys, steps), s)
    ensures DistinctIds(s.memoryRefs)
    decreases |steps|
  {
    hide HistoryInv, Turn, DistinctIds, Occurs;
    if steps != [] {
      var front := steps[..|steps| - 1];
      var before := Turns(sys, front);
      TurnsKeepInv(sys, front);
      InvOfHistory(before);
      forall t | Occurs(before, t) ensures DistinctIds(t.memoryRefs) {
        TurnsKeepLists(sys, front, t);
      }
      TurnKeepsLists(before, steps[|steps| - 1], s);
    }
  }

  lemma InvOfHistory(sys: Sys)
    requires HistoryInv(sys)
    ensures Inv(sys.db)
  {
  }

  // No state of any conversation ever lists a memory twice, so the order in which a state lists its references never
  // matters to its condition signature.
  lemma OrderNeverMatters(userLimit: nat, steps: seq<HistoryStep>, s: AnalysisState)
    requires Occurs(Turns(Sys(Empty(userLimit), map[]), steps), s)
    ensures DistinctIds(s.memoryRefs) && OrderIsIrrelevant(s)
  {
    var start := Sys(Empty(userLimit), map[]);
    EmptyInv(userLimit);
    assert HistoryInv(start) by {
      hide Inv;
    }
    assert ListsDistinct(start);
    hide HistoryInv, Turns, Occurs, OrderIsIrrelevant, ListsDistinct, Inv;
    TurnsKeepLists(start, steps, s);
    OrderIsIrrelevantIffOneVersionEach(s);
  }
}
