/**
 * Facts about whole runs of the lifecycle: how rows may change from any earlier state to any later one, and what
 * follows about claims, fencing, cancellation, promotion and idempotent requests.
 */
module LifecycleHistory {
  import opened Common
  import opened Events
  import opened AnalysisStates
  import opened Lifecycle
  import opened LifecycleProofs

  // ---------- From any state to any later state ----------

  ghost predicate RowEvolves(x: Generation, y: Generation) {
    && y == x.(status := y.status, token := y.token, lastSequence := y.lastSequence)
    && x.lastSequence <= y.lastSequence
    && (Terminal(x.status) ==> y == x)
    && (!x.status.Pending? ==> !y.status.Pending?)
    && (x.status.CancelRequested? ==> y.status.CancelRequested? || y.status.Cancelled? || y.status.Failed?)
    && (x.token.Some? ==> y.token == x.token || Terminal(y.status))
    && (!x.status.Pending? && x.token.None? ==> y.token.None?)
  }

  ghost predicate RowsEvolve(a: Db, b: Db) {
    forall g :: g in a.generations ==> g in b.generations && RowEvolves(a.generations[g], b.generations[g])
  }

  ghost predicate LogsGrow(a: Db, b: Db) {
    forall g :: g in a.generations ==> LogOf(a, g) <= LogOf(b, g)
  }

  ghost predicate KeysAndArtifactsGrow(a: Db, b: Db) {
    && (forall k :: k in a.keys ==> k in b.keys && b.keys[k] == a.keys[k])
    && (forall id :: id in a.artifacts ==> id in b.artifacts && b.artifacts[id] == a.artifacts[id])
  }

  // Committed revisions never decrease, and the draft of a finished generation is frozen.
  ghost predicate StatesGrow(a: Db, b: Db) {
    && (forall c :: CommittedRevision(a, c) <= CommittedRevision(b, c))
    && (forall g :: g in a.drafts && g in a.generations && !ActiveIn(a, g) ==>
          g in b.drafts && b.drafts[g] == a.drafts[g])
  }

  ghost predicate Evolves(a: Db, b: Db) {
    RowsEvolve(a, b) && LogsGrow(a, b) && KeysAndArtifactsGrow(a, b) && StatesGrow(a, b)
  }

  lemma RowsEvolveTransitive(a: Db, b: Db, c: Db)
    requires RowsEvolve(a, b) && RowsEvolve(b, c)
    ensures RowsEvolve(a, c)
  {
  }

  lemma LogsGrowTransitive(a: Db, b: Db, c: Db)
    requires RowsEvolve(a, b) && LogsGrow(a, b) && LogsGrow(b, c)
    ensures LogsGrow(a, c)
  {
    forall g | g in a.generations ensures LogOf(a, g) <= LogOf(c, g) {
      assert LogOf(a, g) <= LogOf(b, g) <= LogOf(c, g);
    }
  }

  lemma StatesGrowTransitive(a: Db, b: Db, c: Db)
    requires RowsEvolve(a, b) && StatesGrow(a, b) && StatesGrow(b, c)
    ensures StatesGrow(a, c)
  {
    forall k ensures CommittedRevision(a, k) <= CommittedRevision(c, k) {
      assert CommittedRevision(a, k) <= CommittedRevision(b, k) <= CommittedRevision(c, k);
    }
    forall g | g in a.drafts && g in a.generations && !ActiveIn(a, g)
        ensures g in c.drafts && c.drafts[g] == a.drafts[g] {
      assert RowEvolves(a.generations[g], b.generations[g]);
      assert !ActiveIn(b, g);
    }
  }

  lemma EvolvesTransitive(a: Db, b: Db, c: Db)
    requires Evolves(a, b) && Evolves(b, c)
    ensures Evolves(a, c)
  {
    RowsEvolveTransitive(a, b, c);
    LogsGrowTransitive(a, b, c);
    StatesGrowTransitive(a, b, c);
    assert KeysAndArtifactsGrow(a, c) by { assert KeysAndArtifactsGrow(a, b) && KeysAndArtifactsGrow(b, c); }
  }

  lemma SetStatusEvolves(db: Db, g: GenerationId, status: Status, token: Option<Token>)
    requires g in db.generations
    requires RowEvolves(db.generations[g], db.generations[g].(status := status, token := token))
    ensures Evolves(db, SetStatus(db, g, status, token))
  {
  }

  lemma InsertEvolves(db: Db, row: Generation, id: GenerationId)
    requires id !in db.generations && (row.user, row.key) !in db.keys
    ensures Evolves(db, Insert(db, row, id))
  {
  }

  lemma EnqueueEvolves(db: Db, g: GenerationId, e: Event)
    requires ActiveIn(db, g)
    ensures Evolves(db, Enqueue(db, g, e))
  {
  }

  lemma CloseRowsEvolve(db: Db, closing: map<GenerationId, Closing>)
    requires Closable(db, closing)
    requires forall g :: g in closing && db.generations[g].status.CancelRequested? ==> !closing[g].status.Completed?
    ensures RowsEvolve(db, Close(db, closing))
  {
    var n := Close(db, closing);
    forall g | g in db.generations ensures RowEvolves(db.generations[g], n.generations[g]) {
      if g in closing {
        assert ActiveIn(db, g);
      }
    }
  }

  lemma CloseLogsGrow(db: Db, closing: map<GenerationId, Closing>)
    requires closing.Keys <= db.generations.Keys
    ensures LogsGrow(db, Close(db, closing))
  {
    var n := Close(db, closing);
    forall g | g in db.generations ensures LogOf(db, g) <= LogOf(n, g) {
      if g in closing {
        assert LogOf(n, g) == LogOf(db, g) + [NextPayload(db, g, closing[g].event)];
      }
    }
  }

  lemma CloseEvolves(db: Db, closing: map<GenerationId, Closing>)
    requires Closable(db, closing)
    requires forall g :: g in closing && db.generations[g].status.CancelRequested? ==> !closing[g].status.Completed?
    ensures Evolves(db, Close(db, closing))
  {
    CloseRowsEvolve(db, closing);
    CloseLogsGrow(db, closing);
    CloseKeepsStores(db, closing);
  }

  lemma CloseKeepsStores(db: Db, closing: map<GenerationId, Closing>)
    requires closing.Keys <= db.generations.Keys
    ensures KeysAndArtifactsGrow(db, Close(db, closing)) && StatesGrow(db, Close(db, closing))
  {
  }

  lemma PromoteEvolves(db: Db, g: GenerationId)
    requires g in db.drafts && CommittedRevision(db, db.drafts[g].conversation) <= db.drafts[g].revision
    ensures Evolves(db, Promote(db, g))
  {
  }

  lemma WriteDraftEvolves(db: Db, g: GenerationId, d: Draft)
    requires ActiveIn(db, g)
    ensures Evolves(db, db.(drafts := db.drafts[g := d]))
  {
  }

  // ---------- Every step ----------

  lemma NothingEvolves(db: Db)
    ensures Evolves(db, db)
  {
  }

  lemma SingleCloseEvolves(db: Db, g: GenerationId, status: TerminalStatus)
    requires ActiveIn(db, g) && (db.generations[g].status.CancelRequested? ==> !status.Completed?)
    ensures Evolves(db, Close(db, map[g := Closing(status, TerminalEvent(status))]))
  {
    hide Evolves, Close;
    SingleIsClosable(db, g, status);
    CloseEvolves(db, map[g := Closing(status, TerminalEvent(status))]);
  }

  lemma CompleteEvolves(db: Db, g: GenerationId)
    requires g in db.drafts && ActiveIn(db, g) && !db.generations[g].status.CancelRequested?
    requires CommittedRevision(db, db.drafts[g].conversation) <= db.drafts[g].revision
    ensures Evolves(db, Close(Promote(db, g), Completing(g)))
  {
    hide Evolves, Close;
    PromoteEvolves(db, g);
    SingleCloseEvolves(Promote(db, g), g, Completed);
    EvolvesTransitive(db, Promote(db, g), Close(Promote(db, g), Completing(g)));
  }

  // A generation that no worker ever claimed has no draft, so the empty token can complete nothing.
  lemma EmptyTokenHasNoDraft(db: Db, g: GenerationId, writer: Option<Token>)
    requires DraftsCurrent(db) && MayFinalize(db, g, writer, Completed) && g in db.drafts
    ensures writer.Some? && !db.generations[g].status.CancelRequested?
    ensures db.drafts[g].base == CommittedRevision(db, db.drafts[g].conversation) < db.drafts[g].revision
  {
    assert ActiveIn(db, g);
  }

  lemma FinalizeEvolves(db: Db, g: GenerationId, writer: Option<Token>, status: TerminalStatus)
    requires DraftsCurrent(db)
    ensures Evolves(db, Finalize(db, g, writer, status).0)
  {
    hide Evolves, Close, Promote, DraftsCurrent;
    var (n, r) := Finalize(db, g, writer, status);
    if !r.Finalized? {
      NothingEvolves(db);
    } else if status.Completed? {
      EmptyTokenHasNoDraft(db, g, writer);
      CompleteEvolves(db, g);
    } else {
      SingleCloseEvolves(db, g, status);
    }
  }

  lemma FailQueuedEvolves(db: Db, g: GenerationId)
    ensures Evolves(db, FailQueued(db, g))
  {
    hide Evolves, Close;
    if g in db.generations && db.generations[g].status.Pending? && db.generations[g].token.None? {
      SingleCloseEvolves(db, g, Failed);
    } else {
      NothingEvolves(db);
    }
  }

  lemma FailStaleEvolves(db: Db, aged: set<GenerationId>)
    ensures Evolves(db, FailStale(db, aged))
  {
    hide Evolves, Close;
    StaleIsClosable(db, aged);
    CloseEvolves(db, StaleClosing(db, aged));
  }

  lemma ClaimEvolves(db: Db, g: GenerationId, t: Token)
    ensures Evolves(db, Claim(db, g, t).0)
    ensures Evolves(db, MarkRunning(db, g, t))
  {
    hide Evolves;
    NothingEvolves(db);
    if Claim(db, g, t).1 {
      SetStatusEvolves(db, g, Starting, Some(t));
    }
    if g in db.generations && db.generations[g].token == Some(t) && db.generations[g].status.Starting? {
      SetStatusEvolves(db, g, Running, Some(t));
    }
  }

  lemma CancelEvolves(db: Db, u: UserId, g: GenerationId)
    ensures Evolves(db, Cancel(db, u, g).0)
  {
    hide Evolves;
    NothingEvolves(db);
    if Cancel(db, u, g).1 {
      SetStatusEvolves(db, g, CancelRequested, db.generations[g].token);
    }
  }

  lemma CreateTurnEvolves(db: Db, user: UserId, c: ConversationId, key: nat, hash: nat, id: GenerationId, m: MessageId)
    ensures Evolves(db, CreateTurn(db, user, c, key, hash, id, m).0)
  {
    hide Evolves;
    NothingEvolves(db);
    if CreateTurn(db, user, c, key, hash, id, m).1.Created? {
      InsertEvolves(db, Generation(user, c, m, key, hash, Pending, None, 0), id);
    }
  }

  lemma PublishEvolves(db: Db, g: GenerationId, t: Token, e: WorkerEvent)
    ensures Evolves(db, Publish(db, g, t, e).0)
  {
    hide Evolves, Enqueue;
    NothingEvolves(db);
    if Owned(db, g, t) {
      EnqueueEvolves(db, g, e);
    }
  }

  lemma BeginEvolves(db: Db, g: GenerationId, t: Token, ds: nat, q: string, ms: seq<Memory>, task: nat)
    ensures Evolves(db, Begin(db, g, t, ds, q, ms, task).0)
  {
    hide Evolves, BeginState;
    NothingEvolves(db);
    if Owned(db, g, t) && g !in db.drafts {
      WriteDraftEvolves(db, g, Begin(db, g, t, ds, q, ms, task).0.drafts[g]);
    }
  }

  lemma SaveEvolves(db: Db, g: GenerationId, t: Token, expected: nat, s: AnalysisState)
    ensures Evolves(db, Save(db, g, t, expected, s).0)
  {
    hide Evolves;
    NothingEvolves(db);
    if Save(db, g, t, expected, s).1.Saved? {
      WriteDraftEvolves(db, g, db.drafts[g].(revision := s.revision, state := s));
    }
  }

  lemma ApplyEvolves(db: Db, s: Step)
    requires Inv(db)
    ensures Evolves(db, Apply(db, s))
  {
    assert DraftsCurrent(db);
    hide Evolves, Inv, DraftsCurrent, NewConversation, CreateTurn, Claim, MarkRunning, Cancel, Publish, Begin, Save,
        WriteArtifact,
      Finalize, FailQueued, FailStale;
    match s
    case NewConversationStep(c, u) => OwnersEvolve(db, c, u);
    case CreateTurnStep(u, c, k, h, id, m) => CreateTurnEvolves(db, u, c, k, h, id, m);
    case ClaimStep(id, t) => ClaimEvolves(db, id, t);
    case MarkRunningStep(id, t) => ClaimEvolves(db, id, t);
    case CancelStep(u, id) => CancelEvolves(db, u, id);
    case PublishStep(id, t, e) => PublishEvolves(db, id, t, e);
    case BeginStep(id, t, ds, q, ms, task) => BeginEvolves(db, id, t, ds, q, ms, task);
    case SaveStep(id, t, expected, state) => SaveEvolves(db, id, t, expected, state);
    case ArtifactStep(id, t, aid, a) => ArtifactEvolves(db, id, t, aid, a);
    case FinalizeStep(id, w, status) => FinalizeEvolves(db, id, w, status);
    case FailQueuedStep(id) => FailQueuedEvolves(db, id);
    case FailStaleStep(aged) => FailStaleEvolves(db, aged);
  }

  lemma OwnersEvolve(db: Db, c: ConversationId, u: UserId)
    ensures Evolves(db, NewConversation(db, c, u))
  {
  }

  lemma ArtifactEvolves(db: Db, g: GenerationId, t: Token, id: ArtifactId, a: Artifact)
    ensures Evolves(db, WriteArtifact(db, g, t, id, a).0)
  {
  }

  // Any state of a run evolves into any later one.
  lemma {:induction false} RunEvolves(db: Db, steps: seq<Step>, i: nat)
    requires Inv(db) && i <= |steps|
    ensures Evolves(Run(db, steps[..i]), Run(db, steps))
    decreases |steps|
  {
    hide Evolves, Inv, Apply;
    if i == |steps| {
      assert steps[..i] == steps;
      NothingEvolves(Run(db, steps));
    } else {
      var front := steps[..|steps| - 1];
      assert front[..i] == steps[..i];
      RunEvolves(db, front, i);
      RunKeepsInv(db, front);
      ApplyEvolves(Run(db, front), steps[|steps| - 1]);
      EvolvesTransitive(Run(db, steps[..i]), Run(db, front), Run(db, steps));
    }
  }

  // The state after the first i steps of a run.
  function At(db: Db, steps: seq<Step>, i: nat): Db
    requires i <= |steps|
  {
    Run(db, steps[..i])
  }

  lemma AtEvolves(db: Db, steps: seq<Step>, i: nat, j: nat)
    requires Inv(db) && i <= j <= |steps|
    ensures Evolves(At(db, steps, i), At(db, steps, j))
    ensures Inv(At(db, steps, i)) && Inv(At(db, steps, j))
  {
    hide Evolves, Inv;
    assert steps[..j][..i] == steps[..i];
    RunEvolves(db, steps[..j], i);
    RunKeepsInv(db, steps[..i]);
    RunKeepsInv(db, steps[..j]);
  }

  lemma AtNext(db: Db, steps: seq<Step>, i: nat)
    requires i < |steps|
    ensures At(db, steps, i + 1) == Apply(At(db, steps, i), steps[i])
  {
    assert steps[..i + 1][..i] == steps[..i];
  }

  // ---------- One claim, one writer ----------

  // Step `s`, taken in `db`, is a write to `g` fenced by token `t`, and it takes effect.
  predicate Accepted(db: Db, s: Step, g: GenerationId, t: Token) {
    match s
    case PublishStep(id, u, e) => id == g && u == t && Publish(db, id, u, e).1
    case BeginStep(id, u, ds, q, ms, task) => id == g && u == t && Begin(db, id, u, ds, q, ms, task).1.Begun?
    case SaveStep(id, u, expected, state) => id == g && u == t && Save(db, id, u, expected, state).1.Saved?
    case ArtifactStep(id, u, aid, a) => id == g && u == t && WriteArtifact(db, id, u, aid, a).1
    case FinalizeStep(id, w, status) => id == g && w == Some(t) && Finalize(db, id, w, status).1.Finalized?
    case _ => false
  }

  lemma AcceptedIsOwned(db: Db, s: Step, g: GenerationId, t: Token)
    requires RowsAgree(db) && Accepted(db, s, g, t)
    ensures ActiveIn(db, g) && db.generations[g].token == Some(t)
  {
  }

  // In any run, at most one claim of a generation succeeds.
  lemma ClaimOnce(db: Db, steps: seq<Step>, i: nat, j: nat, g: GenerationId, t: Token, u: Token)
    requires Inv(db) && i < |steps| && j < |steps|
    requires steps[i] == ClaimStep(g, t) && Claim(At(db, steps, i), g, t).1
    requires steps[j] == ClaimStep(g, u) && Claim(At(db, steps, j), g, u).1
    ensures i == j
  {
    if i < j {
      ClaimBlocksLater(db, steps, i, j, g, t);
    } else if j < i {
      ClaimBlocksLater(db, steps, j, i, g, u);
    }
  }

  lemma ClaimBlocksLater(db: Db, steps: seq<Step>, i: nat, j: nat, g: GenerationId, t: Token)
    requires Inv(db) && i < j <= |steps|
    requires steps[i] == ClaimStep(g, t) && Claim(At(db, steps, i), g, t).1
    ensures g in At(db, steps, j).generations
    ensures var row := At(db, steps, j).generations[g];
              !row.status.Pending? && (row.token == Some(t) || Terminal(row.status))
  {
    hide Inv;
    AtNext(db, steps, i);
    AtEvolves(db, steps, i + 1, j);
    var a, b := At(db, steps, i + 1), At(db, steps, j);
    assert RowsEvolve(a, b);
    assert RowEvolves(a.generations[g], b.generations[g]);
  }

  // A fenced write that takes effect carries the token of a claim that the run contains, and comes after it.
  lemma WritesCarryTheToken(db: Db, steps: seq<Step>, i: nat, j: nat, g: GenerationId, t: Token, u: Token)
    requires Inv(db) && i < |steps| && j < |steps|
    requires steps[i] == ClaimStep(g, t) && Claim(At(db, steps, i), g, t).1
    requires Accepted(At(db, steps, j), steps[j], g, u)
    ensures i < j && t == u
  {
    hide Inv;
    RunKeepsInv(db, steps[..j]);
    RowsAgreeOf(At(db, steps, j));
    AcceptedIsOwned(At(db, steps, j), steps[j], g, u);
    OwnedIsNotPending(At(db, steps, j), g, u);
    if j <= i {
      AtEvolves(db, steps, j, i);
      NotPendingAgain(At(db, steps, j), At(db, steps, i), g);
    } else {
      ClaimBlocksLater(db, steps, i, j, g, t);
    }
  }

  predicate Holds(db: Db, g: GenerationId, t: Token) {
    g in db.generations && db.generations[g].token == Some(t)
  }

  lemma ClosingGivesNoToken(db: Db, closing: map<GenerationId, Closing>, g: GenerationId, t: Token)
    requires closing.Keys <= db.generations.Keys && Holds(Close(db, closing), g, t)
    ensures Holds(db, g, t)
  {
    hide CloseTurns, CloseLogs, CloseOutbox;
  }

  lemma FinalizeGivesNoToken(db: Db, g: GenerationId, writer: Option<Token>, status: TerminalStatus, h: GenerationId,
      t: Token)
    requires Holds(Finalize(db, g, writer, status).0, h, t)
    ensures Holds(db, h, t)
  {
    hide Close;
    if Finalize(db, g, writer, status).1.Finalized? {
      var from := if status.Completed? then Promote(db, g) else db;
      ClosingGivesNoToken(from, map[g := Closing(status, TerminalEvent(status))], h, t);
    }
  }

  // A transaction gives a generation a token only by claiming it.
  lemma TokensComeFromClaims(db: Db, s: Step, g: GenerationId, t: Token)
    requires Holds(Apply(db, s), g, t)
    ensures Holds(db, g, t) || (s == ClaimStep(g, t) && Claim(db, g, t).1)
  {
    hide Close, Finalize, BeginState, BuildRow, ActiveOf, StaleClosing;
    match s
    case FinalizeStep(id, w, status) => FinalizeGivesNoToken(db, id, w, status, g, t);
    case FailQueuedStep(id) =>
      if id in db.generations {
        if db.generations[id].status.Pending? && db.generations[id].token.None? {
          ClosingGivesNoToken(db, map[id := Closing(Failed, TerminalEvent(Failed))], g, t);
        }
      }
    case FailStaleStep(aged) =>
      StaleIsClosable(db, aged);
      ClosingGivesNoToken(db, StaleClosing(db, aged), g, t);
    case _ =>
  }

  // A successful claim of g at step i.
  predicate Claims(db: Db, steps: seq<Step>, i: nat, g: GenerationId, t: Token)
    requires i < |steps|
  {
    steps[i] == ClaimStep(g, t) && Claim(At(db, steps, i), g, t).1
  }

  lemma {:induction false} TokenMeansClaim(userLimit: nat, steps: seq<Step>, j: nat, g: GenerationId, t: Token)
    requires j <= |steps|
    requires Holds(At(Empty(userLimit), steps, j), g, t)
    ensures exists i :: 0 <= i < j && Claims(Empty(userLimit), steps, i, g, t)
  {
    hide Apply, Claim;
    if j > 0 {
      AtNext(Empty(userLimit), steps, j - 1);
      TokensComeFromClaims(At(Empty(userLimit), steps, j - 1), steps[j - 1], g, t);
      if Claims(Empty(userLimit), steps, j - 1, g, t) {
      } else {
        TokenMeansClaim(userLimit, steps, j - 1, g, t);
      }
    }
  }

  // In any run, every fenced write that takes effect follows a successful claim with its token, the only successful
  // claim that the run contains for its generation.
  lemma WritesFollowTheClaim(userLimit: nat, steps: seq<Step>, j: nat, g: GenerationId, t: Token)
    requires j < |steps| && Accepted(At(Empty(userLimit), steps, j), steps[j], g, t)
    ensures exists i :: 0 <= i < j && Claims(Empty(userLimit), steps, i, g, t)
    ensures forall i, u :: 0 <= i < |steps| && Claims(Empty(userLimit), steps, i, g, u) ==> i < j && u == t
  {
    var db := Empty(userLimit);
    EmptyInv(userLimit);
    RunKeepsInv(db, steps[..j]);
    RowsAgreeOf(At(db, steps, j));
    AcceptedIsOwned(At(db, steps, j), steps[j], g, t);
    hide Inv, Accepted, Claim, At;
    TokenMeansClaim(userLimit, steps, j, g, t);
    forall i, u | 0 <= i < |steps| && Claims(db, steps, i, g, u) ensures i < j && u == t {
      WritesCarryTheToken(db, steps, i, j, g, u, t);
    }
  }

  lemma NotPendingAgain(a: Db, b: Db, g: GenerationId)
    requires Evolves(a, b) && g in a.generations && !a.generations[g].status.Pending?
    ensures g in b.generations && !b.generations[g].status.Pending?
  {
    assert RowEvolves(a.generations[g], b.generations[g]);
  }

  lemma RowsAgreeOf(db: Db)
    requires Inv(db)
    ensures RowsAgree(db)
  {
  }

  lemma OwnedIsNotPending(db: Db, g: GenerationId, t: Token)
    requires RowsAgree(db) && g in db.generations && db.generations[g].token == Some(t)
    ensures !db.generations[g].status.Pending?
  {
  }

  // ---------- Cancellation and terminal states ----------

  // A generation seen with cancel_requested is never completed afterwards.
  lemma CancelIsFinal(db: Db, steps: seq<Step>, i: nat, j: nat, g: GenerationId)
    requires Inv(db) && i <= j <= |steps|
    requires g in At(db, steps, i).generations && At(db, steps, i).generations[g].status.CancelRequested?
    ensures g in At(db, steps, j).generations && !At(db, steps, j).generations[g].status.Completed?
  {
    hide Inv;
    AtEvolves(db, steps, i, j);
    assert RowsEvolve(At(db, steps, i), At(db, steps, j));
    assert RowEvolves(At(db, steps, i).generations[g], At(db, steps, j).generations[g]);
  }

  // A terminal generation never changes again: not its row, not its log, not its turn.
  lemma TerminalIsAbsorbing(db: Db, steps: seq<Step>, i: nat, j: nat, g: GenerationId)
    requires Inv(db) && i <= j <= |steps|
    requires g in At(db, steps, i).generations && Terminal(At(db, steps, i).generations[g].status)
    ensures var a, b := At(db, steps, i), At(db, steps, j);
            && g in b.generations && b.generations[g] == a.generations[g]
            && LogOf(b, g) == LogOf(a, g)
            && g in a.turns && g in b.turns && b.turns[g] == a.turns[g]
  {
    hide Inv;
    AtEvolves(db, steps, i, j);
    var a, b := At(db, steps, i), At(db, steps, j);
    assert RowsEvolve(a, b);
    assert RowEvolves(a.generations[g], b.generations[g]);
    assert LogsGrow(a, b);
    LogLength(a, g);
    LogLength(b, g);
  }

  lemma LogLength(db: Db, g: GenerationId)
    requires Inv(db) && g in db.generations
    ensures |LogOf(db, g)| == db.generations[g].lastSequence
    ensures g in db.turns && db.turns[g] == if Terminal(db.generations[g].status) then db.generations[g].status
          else Pending
  {
    assert RowsAgree(db) && TurnsFollow(db);
    assert LogComplete(db, g);
  }

  predicate IsDone(p: Payload) {
    p.event.kind.Done?
  }

  // Events are numbered 1..last_sequence; a generation is terminal exactly when its log holds a done event; that event
  // is the last one, is unique, and names the status that the turn also shows.
  ghost predicate ClosedByOneDone(row: Generation, turn: Status, log: seq<Payload>, g: GenerationId) {
    && |log| == row.lastSequence
    && (forall i :: 0 <= i < |log| ==> log[i].sequence == i + 1 && log[i].eventId == EventId(g, i + 1))
    && (Terminal(row.status) <==> exists p :: p in log && IsDone(p))
    && (forall i :: 0 <= i < |log| && IsDone(log[i]) ==>
          i == |log| - 1 && log[i].event.status.GetOr(Completed) == row.status)
    && turn == (if Terminal(row.status) then row.status else Pending)
  }

  lemma CompleteLogClosed(db: Db, g: GenerationId)
    requires g in db.generations && LogComplete(db, g) && g in db.turns && TurnsFollow(db)
    ensures ClosedByOneDone(db.generations[g], db.turns[g], LogOf(db, g), g)
  {
    var row, log := db.generations[g], LogOf(db, g);
    forall i | 0 <= i < |log| ensures log[i].sequence == i + 1 && log[i].eventId == EventId(g, i + 1) {
      assert WellNumbered(db, g, log[i], i + 1);
    }
    if Terminal(row.status) {
      assert IsDone(log[|log| - 1]);
    }
  }

  lemma DoneExactlyAtTheEnd(userLimit: nat, steps: seq<Step>, g: GenerationId)
    requires g in Run(Empty(userLimit), steps).generations
    ensures var db := Run(Empty(userLimit), steps);
            g in db.turns && ClosedByOneDone(db.generations[g], db.turns[g], LogOf(db, g), g)
  {
    EmptyInv(userLimit);
    RunKeepsInv(Empty(userLimit), steps);
    hide ClosedByOneDone;
    LogParts(Run(Empty(userLimit), steps), g);
    CompleteLogClosed(Run(Empty(userLimit), steps), g);
  }

  lemma LogParts(db: Db, g: GenerationId)
    requires Inv(db) && g in db.generations
    ensures LogComplete(db, g) && g in db.turns && TurnsFollow(db)
  {
    hide LogComplete, TurnsFollow;
    assert RowsAgree(db);
  }

  // ---------- Promotion ----------

  // Completing never finds the committed state moved on, and lacks a draft only if the worker began none.
  lemma PromotionNeverConflicts(db: Db, g: GenerationId, writer: Option<Token>)
    requires Inv(db)
    ensures var r := Finalize(db, g, writer, Completed).1;
            && r != StateConflict
            && (r == Finalized <==> MayFinalize(db, g, writer, Completed) && g in db.drafts)
            && (writer.None? ==> r != Finalized)
  {
    hide Close, Promote, Inv;
    DraftsCurrentOf(db);
    if MayFinalize(db, g, writer, Completed) && g in db.drafts {
      EmptyTokenHasNoDraft(db, g, writer);
    }
  }

  lemma DraftsCurrentOf(db: Db)
    requires Inv(db)
    ensures DraftsCurrent(db)
  {
  }

  lemma CloseKeepsCommittedStates(db: Db, closing: map<GenerationId, Closing>)
    requires closing.Keys <= db.generations.Keys
    ensures Close(db, closing).committed == db.committed
  {
  }

  lemma OthersKeepCommitted(db: Db, s: Step)
    requires !s.FinalizeStep?
    ensures Apply(db, s).committed == db.committed
  {
    hide Close;
    match s
    case FailQueuedStep(id) =>
      if FailQueued(db, id) != db {
        CloseKeepsCommittedStates(db, map[id := Closing(Failed, TerminalEvent(Failed))]);
      }
    case FailStaleStep(aged) => CloseKeepsCommittedStates(db, StaleClosing(db, aged));
    case _ =>
  }

  lemma FinalizeCommits(db: Db, g: GenerationId, writer: Option<Token>, status: TerminalStatus)
    ensures var (n, r) := Finalize(db, g, writer, status);
            if r.Finalized? && status.Completed?
            then MayFinalize(db, g, writer, Completed) && g in db.drafts && n.committed == Promote(db, g).committed
            else n.committed == db.committed
  {
    hide Close;
    if Finalize(db, g, writer, status).1.Finalized? {
      if status.Completed? {
        CloseKeepsCommittedStates(Promote(db, g), Completing(g));
      } else {
        CloseKeepsCommittedStates(db, map[g := Closing(status, TerminalEvent(status))]);
      }
    }
  }

  // A step moves the committed state of a conversation only by completing a generation there: the state becomes that
  // generation's draft, and its revision is strictly greater than the one before.
  lemma CommittedStatesOnlyGrow(db: Db, s: Step)
    requires Inv(db) && Apply(db, s).committed != db.committed
    ensures && s.FinalizeStep? && s.status.Completed? && s.id in db.drafts && ActiveIn(db, s.id)
            && var d := db.drafts[s.id];
               && d.conversation == db.generations[s.id].conversation
               && d.revision == d.state.revision
               && CommittedRevision(db, d.conversation) < d.revision
               && Apply(db, s).committed == db.committed[d.conversation := Committed(d.revision, d.state, s.id)]
  {
    hide Inv, Finalize;
    if s.FinalizeStep? {
      FinalizeCommits(db, s.id, s.writer, s.status);
      CompletingDraft(db, s.id, s.writer);
    } else {
      OthersKeepCommitted(db, s);
    }
  }

  lemma CompletingDraft(db: Db, g: GenerationId, writer: Option<Token>)
    requires Inv(db) && MayFinalize(db, g, writer, Completed) && g in db.drafts
    ensures var d := db.drafts[g];
            && ActiveIn(db, g)
            && d.conversation == db.generations[g].conversation
            && d.revision == d.state.revision
            && CommittedRevision(db, d.conversation) < d.revision
  {
    DraftsCurrentOf(db);
    EmptyTokenHasNoDraft(db, g, writer);
  }

  // ---------- Idempotent requests ----------

  // Once a turn is created, the same request always finds it again and changes nothing; another request under the same
  // key is refused.
  lemma CreateTurnIsIdempotent(db: Db, steps: seq<Step>, i: nat, j: nat, g: GenerationId, c: ConversationId,
      hash: nat, id: GenerationId, m: MessageId)
    requires Inv(db) && i < j <= |steps|
    requires steps[i].CreateTurnStep?
    requires var s := steps[i];
             CreateTurn(At(db, steps, i), s.user, s.conversation, s.key, s.requestHash, s.id, s.message).1 == Created(g)
    ensures var s, b := steps[i], At(db, steps, j);
            CreateTurn(b, s.user, c, s.key, hash, id, m)
                == (b, if hash == s.requestHash then Replayed(g) else KeyReused)
  {
    hide Inv;
    AtNext(db, steps, i);
    AtEvolves(db, steps, i + 1, j);
    var a, b := At(db, steps, i + 1), At(db, steps, j);
    assert KeysAndArtifactsGrow(a, b) && RowsEvolve(a, b);
    assert RowEvolves(a.generations[g], b.generations[g]);
  }

  // ---------- The end of a run ----------

  // isCancelRequested
  predicate CancelSeen(db: Db, g: GenerationId) {
    g !in db.generations || db.generations[g].status.CancelRequested? || db.generations[g].status.Cancelled?
  }

  // The finalize attempts at the end of a run, with anything at all happening between them.
  function FinishRun(db: Db, g: GenerationId, t: Token, first: TerminalStatus, gap1: seq<Step>, gap2: seq<Step>): Db {
    var (d1, r) := Finalize(db, g, Some(t), first);
    var d2 := Run(d1, gap1);
    if r.DraftMissing? || r.StateConflict? then Finalize(d2, g, Some(t), Failed).0
    else if r.NotUpdated? && first.Completed? && CancelSeen(d2, g) then Finalize(Run(d2, gap2), g, Some(t), Cancelled).0
    else d2
  }

  lemma ClosedIsTerminal(db: Db, g: GenerationId, writer: Option<Token>, status: TerminalStatus)
    requires Finalize(db, g, writer, status).1.Finalized?
    ensures g in Finalize(db, g, writer, status).0.generations
    ensures Terminal(Finalize(db, g, writer, status).0.generations[g].status)
  {
  }

  // The writer can always close its own generation as failed or cancelled.
  lemma WriterCanClose(db: Db, g: GenerationId, t: Token, status: TerminalStatus)
    requires RowsAgree(db) && g in db.generations && !status.Completed?
    requires db.generations[g].token == Some(t) || Terminal(db.generations[g].status)
    ensures g in Finalize(db, g, Some(t), status).0.generations
    ensures Terminal(Finalize(db, g, Some(t), status).0.generations[g].status)
  {
    hide Close;
    if MayFinalize(db, g, Some(t), status) {
      ClosedIsTerminal(db, g, Some(t), status);
    }
  }

  lemma RunKeepsWriter(db: Db, steps: seq<Step>, g: GenerationId, t: Token)
    requires Inv(db) && g in db.generations
    requires db.generations[g].token == Some(t) || Terminal(db.generations[g].status)
    ensures var n := Run(db, steps);
            && RowsAgree(n)
            && g in n.generations && RowEvolves(db.generations[g], n.generations[g])
            && (n.generations[g].token == Some(t) || Terminal(n.generations[g].status))
  {
    hide Inv;
    assert steps[..0] == [];
    RunEvolves(db, steps, 0);
    RunKeepsInv(db, steps);
    RowsAgreeOf(Run(db, steps));
    assert RowsEvolve(db, Run(db, steps));
  }

  // However a claimed run ends and whatever happens meanwhile, its finalize sequence leaves the generation terminal.
  lemma FinishRunTerminates(db: Db, g: GenerationId, t: Token, first: TerminalStatus, gap1: seq<Step>, gap2: seq<Step>)
    requires Inv(db) && g in db.generations
    requires db.generations[g].token == Some(t) || Terminal(db.generations[g].status)
    ensures var n := FinishRun(db, g, t, first, gap1, gap2);
            g in n.generations && Terminal(n.generations[g].status)
  {
    hide Inv, Finalize, Run, RowsAgree;
    var (d1, r) := Finalize(db, g, Some(t), first);
    FinalizeKeepsInv(db, g, Some(t), first);
    FinalizeReplies(db, g, t, first);
    RunKeepsWriter(d1, gap1, g, t);
    var d2 := Run(d1, gap1);
    if r.DraftMissing? || r.StateConflict? {
      WriterCanClose(d2, g, t, Failed);
    } else if r.NotUpdated? && first.Completed? && CancelSeen(d2, g) {
      RunKeepsInv(d1, gap1);
      RunKeepsWriter(d2, gap2, g, t);
      WriterCanClose(Run(d2, gap2), g, t, Cancelled);
    }
  }

  lemma FinalizeReplies(db: Db, g: GenerationId, t: Token, first: TerminalStatus)
    requires Inv(db) && g in db.generations
    requires db.generations[g].token == Some(t) || Terminal(db.generations[g].status)
    ensures var (d1, r) := Finalize(db, g, Some(t), first);
            && g in d1.generations
            && (d1.generations[g].token == Some(t) || Terminal(d1.generations[g].status))
            && (r.Finalized? ==> Terminal(d1.generations[g].status))
            && (r.NotUpdated? ==>
                  Terminal(d1.generations[g].status) || (first.Completed? && d1.generations[g].status.CancelRequested?))
  {
    RowsAgreeOf(db);
    hide Inv, Close, Promote;
    if Finalize(db, g, Some(t), first).1.Finalized? {
      ClosedIsTerminal(db, g, Some(t), first);
    }
  }
}
