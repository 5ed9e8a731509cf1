/**
 * What every step of the lifecycle keeps, in any interleaving of any number of API servers, workers and monitors. Each
 * part of the invariant is carried over by a lemma of its own.
 */
module LifecycleProofs {
  import opened Common
  import opened Events
  import opened AnalysisStates
  import opened Lifecycle

  // ---------- Columns that never change, and generations that only stop being active ----------

  ghost predicate SameColumns(a: Db, b: Db) {
    && a.generations.Keys == b.generations.Keys
    && forall g :: g in a.generations ==>
         var x, y := a.generations[g], b.generations[g];
         x.user == y.user && x.conversation == y.conversation && x.message == y.message && x.key == y.key
             && x.requestHash == y.requestHash
  }

  ghost predicate Narrows(a: Db, b: Db) {
    && SameColumns(a, b)
    && a.keys == b.keys
    && a.userLimit == b.userLimit
    && forall g :: ActiveIn(b, g) ==> ActiveIn(a, g)
  }

  lemma NarrowsKeepsKeys(a: Db, b: Db)
    requires Narrows(a, b) && KeysIndex(a)
    ensures KeysIndex(b)
  {
  }

  lemma NarrowsKeepsMessages(a: Db, b: Db)
    requires Narrows(a, b) && MessagesDistinct(a)
    ensures MessagesDistinct(b)
  {
  }

  lemma NarrowsKeepsOneActive(a: Db, b: Db)
    requires Narrows(a, b) && OneActivePerConversation(a)
    ensures OneActivePerConversation(b)
  {
  }

  lemma NarrowsKeepsLimit(a: Db, b: Db)
    requires Narrows(a, b) && UsersWithinLimit(a)
    ensures UsersWithinLimit(b)
  {
    forall u ensures |ActiveOf(b, u)| <= b.userLimit {
      SubsetSize(ActiveOf(b, u), ActiveOf(a, u));
    }
  }

  ghost predicate Counted(db: Db) {
    OneActivePerConversation(db) && UsersWithinLimit(db) && KeysIndex(db) && MessagesDistinct(db)
  }

  lemma NarrowsKeepsCounted(a: Db, b: Db)
    requires Narrows(a, b) && Counted(a)
    ensures Counted(b)
  {
    NarrowsKeepsKeys(a, b);
    NarrowsKeepsMessages(a, b);
    NarrowsKeepsOneActive(a, b);
    NarrowsKeepsLimit(a, b);
  }

  // ---------- Logs and turns ----------

  ghost predicate SameProgress(s: Status, t: Status) {
    s == t || (Active(s) && Active(t))
  }

  ghost predicate SameLogs(a: Db, b: Db) {
    && a.logs == b.logs
    && a.turns == b.turns
    && forall g :: g in a.generations && g in b.generations ==>
         && a.generations[g].lastSequence == b.generations[g].lastSequence
         && SameProgress(a.generations[g].status, b.generations[g].status)
  }

  lemma SameLogKept(a: Db, b: Db, g: GenerationId)
    requires g in a.generations && g in b.generations && LogComplete(a, g) && LogOf(a, g) == LogOf(b, g)
    requires var x, y := a.generations[g], b.generations[g];
             && x.conversation == y.conversation && x.message == y.message && x.lastSequence == y.lastSequence
             && SameProgress(x.status, y.status)
    ensures LogComplete(b, g)
  {
    assert forall i :: 0 <= i < |LogOf(a, g)| ==> WellNumbered(a, g, LogOf(a, g)[i], i + 1);
  }

  lemma SameLogsKeepsLogs(a: Db, b: Db)
    requires SameColumns(a, b) && SameLogs(a, b) && LogsComplete(a)
    ensures LogsComplete(b)
  {
    forall g | g in b.generations ensures LogComplete(b, g) {
      SameLogKept(a, b, g);
    }
  }

  lemma SameLogsKeepsTurns(a: Db, b: Db)
    requires SameColumns(a, b) && SameLogs(a, b) && TurnsFollow(a)
    ensures TurnsFollow(b)
  {
  }

  lemma LogGrows(a: Db, b: Db, g: GenerationId, e: Event)
    requires g in a.generations && g in b.generations && LogComplete(a, g) && ActiveIn(a, g)
    requires LogOf(b, g) == LogOf(a, g) + [NextPayload(a, g, e)]
    requires var x, y := a.generations[g], b.generations[g];
             x.conversation == y.conversation && x.message == y.message && y.lastSequence == x.lastSequence + 1
    requires if ActiveIn(b, g) then !e.kind.Done? else e == TerminalEvent(b.generations[g].status)
    ensures LogComplete(b, g)
  {
    var n := |LogOf(a, g)|;
    assert LogOf(b, g)[n] == NextPayload(a, g, e);
    assert forall i :: 0 <= i < n ==> LogOf(b, g)[i] == LogOf(a, g)[i];
    assert forall i :: 0 <= i < n ==> WellNumbered(a, g, LogOf(a, g)[i], i + 1);
  }

  // ---------- Drafts ----------

  // Drafts and committed states untouched, no generation completed, no writer of an active generation lost.
  ghost predicate SameDrafts(a: Db, b: Db) {
    && a.drafts == b.drafts && a.committed == b.committed
    && forall g :: g in a.generations && g in b.generations ==>
         && (a.generations[g].status.Completed? <==> b.generations[g].status.Completed?)
         && (ActiveIn(b, g) && a.generations[g].token.Some? ==> b.generations[g].token.Some?)
  }

  lemma SameDraftsKeepsDrafts(a: Db, b: Db)
    requires Narrows(a, b) && SameDrafts(a, b) && DraftsCurrent(a)
    ensures DraftsCurrent(b)
  {
  }

  lemma SameDraftsKeepsCommitted(a: Db, b: Db)
    requires SameColumns(a, b) && SameDrafts(a, b) && CommittedFromDrafts(a)
    ensures CommittedFromDrafts(b)
  {
  }

  lemma SameDraftsKeeps(a: Db, b: Db)
    requires Narrows(a, b) && SameDrafts(a, b) && DraftsCurrent(a) && CommittedFromDrafts(a)
    ensures DraftsCurrent(b) && CommittedFromDrafts(b)
  {
    SameDraftsKeepsDrafts(a, b);
    SameDraftsKeepsCommitted(a, b);
  }

  // ---------- Status changes and published events ----------

  lemma SetStatusKeeps(db: Db, g: GenerationId, status: Status, token: Option<Token>)
    requires g in db.generations && Active(db.generations[g].status) && Active(status)
    requires token.None? ==> db.generations[g].token.None?
    ensures var n := SetStatus(db, g, status, token);
            Narrows(db, n) && SameLogs(db, n) && SameDrafts(db, n)
  {
  }

  lemma SetStatusKeepsRows(db: Db, g: GenerationId, status: Status, token: Option<Token>)
    requires RowsAgree(db) && g in db.generations && Active(status)
    requires status.Pending? ==> token.None?
    requires status.Starting? || status.Running? ==> token.Some?
    ensures RowsAgree(SetStatus(db, g, status, token))
  {
  }

  lemma SetStatusKeepsInv(db: Db, g: GenerationId, status: Status, token: Option<Token>)
    requires Inv(db) && ActiveIn(db, g) && Active(status)
    requires status.Pending? ==> token.None?
    requires status.Starting? || status.Running? ==> token.Some?
    requires token.None? ==> db.generations[g].token.None?
    ensures Inv(SetStatus(db, g, status, token))
  {
    var n := SetStatus(db, g, status, token);
    SetStatusKeeps(db, g, status, token);
    NarrowsKeepsCounted(db, n);
    SameLogsKeepsLogs(db, n);
    SameLogsKeepsTurns(db, n);
    SetStatusKeepsRows(db, g, status, token);
    SameDraftsKeeps(db, n);
  }

  lemma EnqueueKeeps(db: Db, g: GenerationId, e: Event)
    requires g in db.generations
    ensures var n := Enqueue(db, g, e);
            Narrows(db, n) && SameDrafts(db, n)
  {
  }

  lemma EnqueueKeepsRows(db: Db, g: GenerationId, e: Event)
    requires RowsAgree(db) && g in db.generations
    ensures RowsAgree(Enqueue(db, g, e))
  {
  }

  lemma EnqueueKeepsLogs(db: Db, g: GenerationId, e: Event)
    requires LogsComplete(db) && ActiveIn(db, g) && !e.kind.Done?
    ensures LogsComplete(Enqueue(db, g, e))
  {
    var n := Enqueue(db, g, e);
    forall h | h in n.generations ensures LogComplete(n, h) {
      if h == g {
        LogGrows(db, n, g, e);
      } else {
        SameLogKept(db, n, h);
      }
    }
  }

  lemma EnqueueKeepsTurns(db: Db, g: GenerationId, e: Event)
    requires TurnsFollow(db) && ActiveIn(db, g)
    ensures TurnsFollow(Enqueue(db, g, e))
  {
  }

  lemma EnqueueKeepsInv(db: Db, g: GenerationId, e: Event)
    requires Inv(db) && ActiveIn(db, g) && !e.kind.Done?
    ensures Inv(Enqueue(db, g, e))
  {
    var n := Enqueue(db, g, e);
    EnqueueKeeps(db, g, e);
    NarrowsKeepsCounted(db, n);
    EnqueueKeepsLogs(db, g, e);
    EnqueueKeepsTurns(db, g, e);
    EnqueueKeepsRows(db, g, e);
    SameDraftsKeeps(db, n);
  }

  // ---------- Draft writes, artifacts, new conversations ----------

  lemma WriteDraftKeepsDrafts(db: Db, g: GenerationId, d: Draft)
    requires DraftsCurrent(db) && g in db.generations
    requires d.conversation == db.generations[g].conversation && d.revision == d.state.revision && d.base < d.revision
    requires db.generations[g].token.Some? && d.base == CommittedRevision(db, d.conversation)
    ensures DraftsCurrent(db.(drafts := db.drafts[g := d]))
  {
  }

  lemma WriteDraftKeepsCommitted(db: Db, g: GenerationId, d: Draft)
    requires CommittedFromDrafts(db) && ActiveIn(db, g)
    ensures CommittedFromDrafts(db.(drafts := db.drafts[g := d]))
  {
  }

  lemma WriteDraftKeepsRows(db: Db, g: GenerationId, d: Draft)
    requires RowsAgree(db) && g in db.generations
    ensures RowsAgree(db.(drafts := db.drafts[g := d]))
  {
  }

  lemma WriteDraftKeeps(db: Db, g: GenerationId, d: Draft)
    ensures var n := db.(drafts := db.drafts[g := d]); Narrows(db, n) && SameLogs(db, n)
  {
  }

  lemma WriteDraftKeepsInv(db: Db, g: GenerationId, d: Draft)
    requires Inv(db) && ActiveIn(db, g)
    requires d.conversation == db.generations[g].conversation && d.revision == d.state.revision && d.base < d.revision
    requires db.generations[g].token.Some? && d.base == CommittedRevision(db, d.conversation)
    ensures Inv(db.(drafts := db.drafts[g := d]))
  {
    var n := db.(drafts := db.drafts[g := d]);
    WriteDraftKeeps(db, g, d);
    WriteDraftKeepsRows(db, g, d);
    NarrowsKeepsCounted(db, n);
    SameLogsKeepsLogs(db, n);
    SameLogsKeepsTurns(db, n);
    WriteDraftKeepsDrafts(db, g, d);
    WriteDraftKeepsCommitted(db, g, d);
  }

  lemma UnrelatedKeepsRows(db: Db, n: Db)
    requires RowsAgree(db)
    requires n == db.(artifacts := n.artifacts, owners := n.owners, outbox := n.outbox)
    requires forall c :: c in db.owners ==> c in n.owners && n.owners[c] == db.owners[c]
    ensures RowsAgree(n) && Narrows(db, n) && SameLogs(db, n) && SameDrafts(db, n)
  {
  }

  lemma UnrelatedKeepsInv(db: Db, n: Db)
    requires Inv(db)
    requires n == db.(artifacts := n.artifacts, owners := n.owners, outbox := n.outbox)
    requires forall c :: c in db.owners ==> c in n.owners && n.owners[c] == db.owners[c]
    ensures Inv(n)
  {
    hide RowsAgree, OneActivePerConversation, UsersWithinLimit, KeysIndex, MessagesDistinct, LogsComplete,
        TurnsFollow, DraftsCurrent, CommittedFromDrafts, Narrows, SameLogs, SameDrafts;
    UnrelatedKeepsRows(db, n);
    NarrowsKeepsCounted(db, n);
    SameLogsKeepsLogs(db, n);
    SameLogsKeepsTurns(db, n);
    SameDraftsKeeps(db, n);
  }

  // ---------- createTurn ----------

  ghost predicate Fresh(db: Db, row: Generation, id: GenerationId) {
    && id !in db.generations && (row.user, row.key) !in db.keys
    && row.status.Pending? && row.token.None? && row.lastSequence == 0
    && row.conversation in db.owners && db.owners[row.conversation] == row.user
    && (forall g :: ActiveIn(db, g) ==> db.generations[g].conversation != row.conversation)
    && (forall g :: g in db.generations ==> db.generations[g].message != row.message)
    && |ActiveOf(db, row.user)| < db.userLimit
  }

  function Insert(db: Db, row: Generation, id: GenerationId): Db {
    db.(generations := db.generations[id := row],
        keys := db.keys[(row.user, row.key) := id],
        turns := db.turns[id := Pending],
        logs := db.logs[id := []])
  }

  lemma InsertKeepsRows(db: Db, row: Generation, id: GenerationId)
    requires Fresh(db, row, id) && RowsAgree(db)
    ensures RowsAgree(Insert(db, row, id))
  {
  }

  lemma InsertKeepsOneActive(db: Db, row: Generation, id: GenerationId)
    requires Fresh(db, row, id) && OneActivePerConversation(db) && MessagesDistinct(db)
    ensures OneActivePerConversation(Insert(db, row, id)) && MessagesDistinct(Insert(db, row, id))
  {
    var n := Insert(db, row, id);
    assert forall g :: g != id ==> (ActiveIn(n, g) <==> ActiveIn(db, g));
  }

  lemma InsertActive(db: Db, row: Generation, id: GenerationId, u: UserId)
    requires id !in db.generations && row.status.Pending?
    ensures ActiveOf(Insert(db, row, id), u) == if u == row.user then ActiveOf(db, u) + {id} else ActiveOf(db, u)
  {
    var n := Insert(db, row, id);
    assert forall g :: g != id ==> (g in ActiveOf(n, u) <==> g in ActiveOf(db, u));
  }

  lemma InsertKeepsLimit(db: Db, row: Generation, id: GenerationId)
    requires Fresh(db, row, id) && UsersWithinLimit(db)
    ensures UsersWithinLimit(Insert(db, row, id))
  {
    var n := Insert(db, row, id);
    forall u ensures |ActiveOf(n, u)| <= n.userLimit {
      InsertActive(db, row, id, u);
    }
  }

  lemma InsertKeepsKeys(db: Db, row: Generation, id: GenerationId)
    requires Fresh(db, row, id) && KeysIndex(db)
    ensures KeysIndex(Insert(db, row, id))
  {
  }

  lemma InsertKeepsLogs(db: Db, row: Generation, id: GenerationId)
    requires Fresh(db, row, id) && LogsComplete(db) && TurnsFollow(db)
    ensures LogsComplete(Insert(db, row, id)) && TurnsFollow(Insert(db, row, id))
  {
    var n := Insert(db, row, id);
    forall h | h in n.generations ensures LogComplete(n, h) {
      if h != id {
        SameLogKept(db, n, h);
      }
    }
  }

  lemma InsertKeepsDrafts(db: Db, row: Generation, id: GenerationId)
    requires Fresh(db, row, id) && id !in db.drafts && DraftsCurrent(db) && CommittedFromDrafts(db)
    ensures DraftsCurrent(Insert(db, row, id)) && CommittedFromDrafts(Insert(db, row, id))
  {
  }

  lemma CreatedIsFresh(db: Db, user: UserId, c: ConversationId, key: nat, hash: nat, id: GenerationId, m: MessageId)
    requires CreateTurn(db, user, c, key, hash, id, m).1.Created?
    ensures var row := Generation(user, c, m, key, hash, Pending, None, 0);
            Fresh(db, row, id) && CreateTurn(db, user, c, key, hash, id, m).0 == Insert(db, row, id)
  {
  }

  lemma InsertKeepsInv(db: Db, row: Generation, id: GenerationId)
    requires Inv(db) && Fresh(db, row, id)
    ensures Inv(Insert(db, row, id))
  {
    InsertKeepsRows(db, row, id);
    InsertKeepsOneActive(db, row, id);
    InsertKeepsLimit(db, row, id);
    InsertKeepsKeys(db, row, id);
    InsertKeepsLogs(db, row, id);
    InsertKeepsDrafts(db, row, id);
  }

  lemma CreateTurnKeepsInv(db: Db, user: UserId, c: ConversationId, key: nat, hash: nat, id: GenerationId, m: MessageId)
    requires Inv(db)
    ensures Inv(CreateTurn(db, user, c, key, hash, id, m).0)
  {
    var (n, r) := CreateTurn(db, user, c, key, hash, id, m);
    if r.Created? {
      CreatedIsFresh(db, user, c, key, hash, id, m);
      InsertKeepsInv(db, Generation(user, c, m, key, hash, Pending, None, 0), id);
    } else {
      assert n == db;
    }
  }

  // ---------- Closing ----------

  ghost predicate Closable(db: Db, closing: map<GenerationId, Closing>) {
    && closing.Keys <= db.generations.Keys
    && forall g :: g in closing ==>
         && ActiveIn(db, g)
         && Terminal(closing[g].status)
         && closing[g].event == TerminalEvent(closing[g].status)
  }

  lemma CloseNarrows(db: Db, closing: map<GenerationId, Closing>)
    requires Closable(db, closing)
    ensures Narrows(db, Close(db, closing))
  {
  }

  lemma CloseKeepsRows(db: Db, closing: map<GenerationId, Closing>)
    requires Closable(db, closing) && RowsAgree(db)
    ensures RowsAgree(Close(db, closing))
  {
  }

  lemma CloseKeepsLogs(db: Db, closing: map<GenerationId, Closing>)
    requires Closable(db, closing) && LogsComplete(db) && db.logs.Keys == db.generations.Keys
    ensures LogsComplete(Close(db, closing))
  {
    var n := Close(db, closing);
    forall g | g in n.generations ensures LogComplete(n, g) {
      if g in closing {
        LogGrows(db, n, g, closing[g].event);
      } else {
        SameLogKept(db, n, g);
      }
    }
  }

  lemma CloseKeepsTurns(db: Db, closing: map<GenerationId, Closing>)
    requires Closable(db, closing) && TurnsFollow(db) && db.turns.Keys == db.generations.Keys
    ensures TurnsFollow(Close(db, closing))
  {
  }

  ghost predicate RowInv(db: Db) {
    RowsAgree(db) && Counted(db) && LogsComplete(db) && TurnsFollow(db)
  }

  lemma CloseKeepsRowInv(db: Db, closing: map<GenerationId, Closing>)
    requires Closable(db, closing) && RowInv(db)
    ensures RowInv(Close(db, closing))
  {
    CloseNarrows(db, closing);
    NarrowsKeepsCounted(db, Close(db, closing));
    CloseKeepsRows(db, closing);
    CloseKeepsLogs(db, closing);
    CloseKeepsTurns(db, closing);
  }

  lemma CloseKeepsDrafts(db: Db, closing: map<GenerationId, Closing>)
    requires Closable(db, closing)
    requires forall g :: g in closing ==> !closing[g].status.Completed?
    ensures SameDrafts(db, Close(db, closing))
  {
  }

  lemma CloseKeepsInv(db: Db, closing: map<GenerationId, Closing>)
    requires Inv(db) && Closable(db, closing)
    requires forall g :: g in closing ==> !closing[g].status.Completed?
    ensures Inv(Close(db, closing))
  {
    CloseKeepsRowInv(db, closing);
    CloseNarrows(db, closing);
    CloseKeepsDrafts(db, closing);
    SameDraftsKeeps(db, Close(db, closing));
  }

  // ---------- Completing ----------

  lemma PromoteKeeps(db: Db, g: GenerationId)
    requires g in db.drafts
    ensures Narrows(db, Promote(db, g)) && SameLogs(db, Promote(db, g))
    ensures RowsAgree(db) ==> RowsAgree(Promote(db, g))
  {
  }

  lemma PromoteKeepsRowInv(db: Db, g: GenerationId)
    requires RowInv(db) && g in db.drafts
    ensures RowInv(Promote(db, g))
  {
    var p := Promote(db, g);
    PromoteKeeps(db, g);
    NarrowsKeepsCounted(db, p);
    SameLogsKeepsLogs(db, p);
    SameLogsKeepsTurns(db, p);
  }

  function Completing(g: GenerationId): map<GenerationId, Closing> {
    map[g := Closing(Completed, TerminalEvent(Completed))]
  }

  lemma PromotedIsClosable(db: Db, g: GenerationId)
    requires g in db.drafts && ActiveIn(db, g)
    ensures Closable(Promote(db, g), Completing(g))
  {
  }

  // What completing does to drafts and committed states.
  ghost predicate CompletedTo(db: Db, n: Db, g: GenerationId) {
    && SameColumns(db, n)
    && g in db.drafts && g in n.generations && n.generations[g].status.Completed?
    && n.drafts == db.drafts
    && n.committed == db.committed[db.drafts[g].conversation := Committed(db.drafts[g].revision, db.drafts[g].state, g)]
    && forall h :: h in n.generations && h != g ==> n.generations[h] == db.generations[h]
  }

  lemma CompleteShape(db: Db, g: GenerationId)
    requires g in db.drafts && g in db.generations
    ensures CompletedTo(db, Close(Promote(db, g), Completing(g)), g)
  {
  }

  lemma CompletedKeepsDrafts(db: Db, n: Db, g: GenerationId)
    requires CompletedTo(db, n, g)
    requires DraftsCurrent(db) && OneActivePerConversation(db) && ActiveIn(db, g)
    ensures DraftsCurrent(n)
  {
    forall h | ActiveIn(n, h) && h in n.drafts
      ensures n.generations[h].conversation != db.generations[g].conversation
    {
      assert h != g && ActiveIn(db, h);
    }
  }

  lemma CompletedKeepsCommitted(db: Db, n: Db, g: GenerationId)
    requires CompletedTo(db, n, g)
    requires CommittedFromDrafts(db) && DraftsCurrent(db) && ActiveIn(db, g)
    ensures CommittedFromDrafts(n)
  {
    var c := db.drafts[g].conversation;
    assert CommittedRevision(db, c) < CommittedRevision(n, c);
    forall h | h in n.generations && n.generations[h].status.Completed?
      ensures h in n.drafts && n.drafts[h].revision <= CommittedRevision(n, n.generations[h].conversation)
    {
      if h != g {
        assert db.generations[h].status.Completed?;
      }
    }
  }

  lemma CompleteKeepsInv(db: Db, g: GenerationId)
    requires Inv(db) && ActiveIn(db, g) && g in db.drafts
    ensures Inv(Close(Promote(db, g), Completing(g)))
  {
    PromoteKeepsRowInv(db, g);
    PromotedIsClosable(db, g);
    CloseKeepsRowInv(Promote(db, g), Completing(g));
    CompleteShape(db, g);
    CompletedKeepsDrafts(db, Close(Promote(db, g), Completing(g)), g);
    CompletedKeepsCommitted(db, Close(Promote(db, g), Completing(g)), g);
  }

  // ---------- All steps, all runs ----------

  lemma SingleIsClosable(db: Db, g: GenerationId, status: TerminalStatus)
    requires ActiveIn(db, g)
    ensures Closable(db, map[g := Closing(status, TerminalEvent(status))])
  {
  }

  lemma FinalizeKeepsInv(db: Db, g: GenerationId, writer: Option<Token>, status: TerminalStatus)
    requires Inv(db)
    ensures Inv(Finalize(db, g, writer, status).0)
  {
    hide Inv, Close, Promote;
    var (n, r) := Finalize(db, g, writer, status);
    if !r.Finalized? {
      assert n == db;
    } else if status.Completed? {
      CompleteKeepsInv(db, g);
    } else {
      SingleIsClosable(db, g, status);
      CloseKeepsInv(db, map[g := Closing(status, TerminalEvent(status))]);
    }
  }

  lemma FailQueuedKeepsInv(db: Db, g: GenerationId)
    requires Inv(db)
    ensures Inv(FailQueued(db, g))
  {
    hide Inv, Close;
    if g in db.generations && db.generations[g].status.Pending? && db.generations[g].token.None? {
      SingleIsClosable(db, g, Failed);
      CloseKeepsInv(db, map[g := Closing(Failed, TerminalEvent(Failed))]);
    }
  }

  lemma StaleIsClosable(db: Db, aged: set<GenerationId>)
    ensures Closable(db, StaleClosing(db, aged))
    ensures forall g :: g in StaleClosing(db, aged) ==> !StaleClosing(db, aged)[g].status.Completed?
  {
  }

  lemma FailStaleKeepsInv(db: Db, aged: set<GenerationId>)
    requires Inv(db)
    ensures Inv(FailStale(db, aged))
  {
    StaleIsClosable(db, aged);
    CloseKeepsInv(db, StaleClosing(db, aged));
  }

  lemma ClaimKeepsInv(db: Db, g: GenerationId, t: Token)
    requires Inv(db)
    ensures Inv(Claim(db, g, t).0)
    ensures Inv(MarkRunning(db, g, t))
  {
    if Claim(db, g, t).1 {
      SetStatusKeepsInv(db, g, Starting, Some(t));
    }
    if g in db.generations && db.generations[g].token == Some(t) && db.generations[g].status.Starting? {
      SetStatusKeepsInv(db, g, Running, Some(t));
    }
  }

  lemma CancelKeepsInv(db: Db, u: UserId, g: GenerationId)
    requires Inv(db)
    ensures Inv(Cancel(db, u, g).0)
  {
    if Cancel(db, u, g).1 {
      SetStatusKeepsInv(db, g, CancelRequested, db.generations[g].token);
    }
  }

  lemma PublishKeepsInv(db: Db, g: GenerationId, t: Token, e: WorkerEvent)
    requires Inv(db)
    ensures Inv(Publish(db, g, t, e).0)
  {
    if Owned(db, g, t) {
      EnqueueKeepsInv(db, g, e);
    }
  }

  lemma NewConversationKeepsInv(db: Db, c: ConversationId, u: UserId)
    requires Inv(db)
    ensures Inv(NewConversation(db, c, u))
  {
    hide Inv;
    if c !in db.owners {
      UnrelatedKeepsInv(db, db.(owners := db.owners[c := u]));
    }
  }

  lemma ArtifactKeepsInv(db: Db, g: GenerationId, t: Token, id: ArtifactId, a: Artifact)
    requires Inv(db)
    ensures Inv(WriteArtifact(db, g, t, id, a).0)
  {
    hide Inv, Owned;
    if WriteArtifact(db, g, t, id, a).1 {
      UnrelatedKeepsInv(db, db.(artifacts := db.artifacts[id := a]));
    }
  }

  lemma ApplyKeepsInv(db: Db, s: Step)
    requires Inv(db)
    ensures Inv(Apply(db, s))
  {
    hide Inv, CreateTurn, Claim, MarkRunning, Cancel, Publish, Begin, Save, WriteArtifact, NewConversation,
      Finalize, FailQueued, FailStale;
    match s
    case NewConversationStep(c, u) => NewConversationKeepsInv(db, c, u);
    case CreateTurnStep(u, c, k, h, id, m) => CreateTurnKeepsInv(db, u, c, k, h, id, m);
    case ClaimStep(id, t) => ClaimKeepsInv(db, id, t);
    case MarkRunningStep(id, t) => ClaimKeepsInv(db, id, t);
    case CancelStep(u, id) => CancelKeepsInv(db, u, id);
    case PublishStep(id, t, e) => PublishKeepsInv(db, id, t, e);
    case BeginStep(id, t, ds, q, ms, task) => BeginKeepsInv(db, id, t, ds, q, ms, task);
    case SaveStep(id, t, expected, state) => SaveKeepsInv(db, id, t, expected, state);
    case ArtifactStep(id, t, aid, a) => ArtifactKeepsInv(db, id, t, aid, a);
    case FinalizeStep(id, w, status) => FinalizeKeepsInv(db, id, w, status);
    case FailQueuedStep(id) => FailQueuedKeepsInv(db, id);
    case FailStaleStep(aged) => FailStaleKeepsInv(db, aged);
  }

  lemma BeginKeepsInv(db: Db, g: GenerationId, t: Token, ds: nat, q: string, ms: seq<Memory>, task: nat)
    requires Inv(db)
    ensures Inv(Begin(db, g, t, ds, q, ms, task).0)
  {
    hide Inv, KeepRefs, DroppedNotices;
    if Owned(db, g, t) && g !in db.drafts {
      WriteDraftKeepsInv(db, g, Begin(db, g, t, ds, q, ms, task).0.drafts[g]);
    }
  }

  lemma SaveKeepsInv(db: Db, g: GenerationId, t: Token, expected: nat, s: AnalysisState)
    requires Inv(db)
    ensures Inv(Save(db, g, t, expected, s).0)
  {
    if Save(db, g, t, expected, s).1.Saved? {
      assert DraftsCurrent(db);
      hide Inv;
      WriteDraftKeepsInv(db, g, db.drafts[g].(revision := s.revision, state := s));
    }
  }

  // Every reachable state satisfies the invariant.
  lemma {:induction false} RunKeepsInv(db: Db, steps: seq<Step>)
    requires Inv(db)
    ensures Inv(Run(db, steps))
  {
    if steps != [] {
      RunKeepsInv(db, steps[..|steps| - 1]);
      ApplyKeepsInv(Run(db, steps[..|steps| - 1]), steps[|steps| - 1]);
    }
  }

  lemma EmptyInv(userLimit: nat)
    ensures Inv(Empty(userLimit))
  {
    assert forall u :: ActiveOf(Empty(userLimit), u) == {};
  }
}
