/**
 * What each transaction of the lifecycle does, row by row: when it takes effect, what it writes then, and that it
 * touches nothing else (apps/api/src/chat/generation.service.ts, apps/worker/src/chat/generation.service.ts,
 * apps/worker/src/analysis/analysis-state.repository.ts).
 */
module LifecycleEffects {
  import opened Common
  import opened Events
  import opened AnalysisStates
  import opened Lifecycle
  import opened LifecycleProofs
  import opened LifecycleHistory

  // ---------- Ends ----------

  // The row of g and its turn show this status, no writer is left, and one done event that names the status follows in
  // the log, with the outbox row that asks for its delivery.
  ghost predicate EndedAs(a: Db, b: Db, g: GenerationId, status: Status)
    requires g in a.generations
  {
    var row, n := a.generations[g], a.generations[g].lastSequence + 1;
    && g in b.generations && b.generations[g] == row.(status := status, token := None, lastSequence := n)
    && g in b.turns && b.turns[g] == status
    && |LogOf(b, g)| == |LogOf(a, g)| + 1 && LogOf(a, g) <= LogOf(b, g)
    && EventId(g, n) in b.outbox
    && EndEvent(row, g, status, LogOf(b, g)[|LogOf(a, g)|], b.outbox[EventId(g, n)])
  }

  ghost predicate EndEvent(row: Generation, g: GenerationId, status: Status, p: Payload, request: OutboxRow) {
    && p.event.status.GetOr(Completed) == status
    && Logged(row, g, BLANK.(kind := Done, status := if status.Completed? then None else Some(status)), p, request)
  }

  // The log entry for an event, numbered after the row, and the outbox row that asks for its delivery.
  ghost predicate Logged(row: Generation, g: GenerationId, e: Event, p: Payload, request: OutboxRow) {
    && p.event == e && p.sequence == row.lastSequence + 1 && p.eventId == EventId(g, p.sequence)
    && p.generation == g && p.conversation == row.conversation && p.message == row.message
    && request.envelope.event == p && request.envelope.user == row.user && request.aggregate == g
    && !request.published && !request.deadLettered && request.lock.None? && request.attempts == 0
  }

  // The id of the done event of one of these generations.
  predicate EndsAt(db: Db, closed: set<GenerationId>, id: EventId) {
    && id.generation in closed && id.generation in db.generations
    && id.draw == db.generations[id.generation].lastSequence + 1
  }

  // Generations outside the set keep their rows, turns, logs and outbox rows, and so does everything else but the
  // committed states.
  ghost predicate OthersStay(a: Db, b: Db, closed: set<GenerationId>) {
    && b == a.(generations := b.generations, turns := b.turns, logs := b.logs, outbox := b.outbox,
             committed := b.committed)
    && b.generations.Keys == a.generations.Keys && b.turns.Keys == a.turns.Keys
    && (forall g :: g in a.generations && g !in closed ==>
          b.generations[g] == a.generations[g] && LogOf(b, g) == LogOf(a, g))
    && (forall g :: g in a.turns && g !in closed ==> b.turns[g] == a.turns[g])
    && (forall id :: id in a.outbox && !EndsAt(a, closed, id) ==> id in b.outbox && b.outbox[id] == a.outbox[id])
    && (forall id :: id in b.outbox && id !in a.outbox ==> EndsAt(a, closed, id))
  }

  lemma ClosedRowAndLog(db: Db, closing: map<GenerationId, Closing>, g: GenerationId)
    requires closing.Keys <= db.generations.Keys && g in closing && g in db.turns && db.turns[g].Pending?
    ensures var n := Close(db, closing);
            && g in n.generations && n.generations[g] == ClosedRow(db.generations[g], closing[g])
            && g in n.turns && n.turns[g] == closing[g].status
            && LogOf(n, g) == LogOf(db, g) + [PayloadAfter(g, db.generations[g], closing[g].event)]
  {
    hide CloseOutbox, PayloadAfter, ClosedRow;
  }

  lemma ClosedOutboxRow(db: Db, closing: map<GenerationId, Closing>, g: GenerationId)
    requires closing.Keys <= db.generations.Keys && g in closing
    ensures var n, id := Close(db, closing), EventId(g, db.generations[g].lastSequence + 1);
            && id in n.outbox
            && n.outbox[id] == BuildRow(db.generations[g].user, PayloadAfter(g, db.generations[g], closing[g].event))
  {
    hide CloseLogs, CloseTurns, CloseGenerations, BuildRow, PayloadAfter;
    var id := EventId(g, db.generations[g].lastSequence + 1);
    assert id in ClosingIds(db.generations, closing);
    assert id in ClosingRows(db.generations, closing);
  }

  lemma ClosedRowsEnd(db: Db, closing: map<GenerationId, Closing>, g: GenerationId)
    requires closing.Keys <= db.generations.Keys && g in closing && g in db.turns && db.turns[g].Pending?
    requires closing[g].event == TerminalEvent(closing[g].status)
    ensures EndedAs(db, Close(db, closing), g, closing[g].status)
  {
    hide Close, PayloadAfter, BuildRow, TerminalEvent, EndEvent;
    ClosedRowAndLog(db, closing, g);
    ClosedOutboxRow(db, closing, g);
    TerminalIsEndEvent(db.generations[g], g, closing[g].status);
  }

  lemma TerminalIsEndEvent(row: Generation, g: GenerationId, status: Status)
    ensures var p := PayloadAfter(g, row, TerminalEvent(status));
            EndEvent(row, g, status, p, BuildRow(row.user, p))
  {
  }

  lemma ClosingLeavesRows(db: Db, closing: map<GenerationId, Closing>)
    requires closing.Keys <= db.generations.Keys
    ensures var n := Close(db, closing);
            && n == db.(generations := n.generations, turns := n.turns, logs := n.logs, outbox := n.outbox)
            && n.generations.Keys == db.generations.Keys && n.turns.Keys == db.turns.Keys
            && (forall g :: g in db.generations && g !in closing ==>
                  n.generations[g] == db.generations[g] && LogOf(n, g) == LogOf(db, g))
            && (forall g :: g in db.turns && g !in closing ==> n.turns[g] == db.turns[g])
  {
    hide CloseOutbox, PayloadAfter;
  }

  lemma ClosingLeavesOutbox(db: Db, closing: map<GenerationId, Closing>)
    requires closing.Keys <= db.generations.Keys
    ensures var n := Close(db, closing);
            && (forall id :: id in db.outbox && !EndsAt(db, closing.Keys, id) ==>
                  id in n.outbox && n.outbox[id] == db.outbox[id])
            && (forall id :: id in n.outbox && id !in db.outbox ==> EndsAt(db, closing.Keys, id))
  {
    hide CloseLogs, CloseTurns, CloseGenerations, BuildRow, PayloadAfter;
  }

  lemma ClosingLeavesOthers(db: Db, closing: map<GenerationId, Closing>)
    requires closing.Keys <= db.generations.Keys
    ensures OthersStay(db, Close(db, closing), closing.Keys)
  {
    ClosingLeavesRows(db, closing);
    ClosingLeavesOutbox(db, closing);
    hide Close, LogOf, EndsAt;
  }

  lemma ActiveTurnsWait(db: Db, g: GenerationId)
    requires Inv(db) && ActiveIn(db, g)
    ensures g in db.turns && db.turns[g].Pending?
  {
    assert RowsAgree(db) && TurnsFollow(db);
  }

  // Who may end a generation: its writer, unless a cancel request came before a completion; and without a token anyone,
  // once a cancel was requested before a worker took it.
  predicate EndIsAllowed(row: Generation, writer: Option<Token>, status: Status) {
    if writer.Some? then row.token == writer && Active(row.status) && !(status.Completed? && row.status.CancelRequested?)
    else row.token.None? && row.status.CancelRequested?
  }

  // The committed state that a generation publishes when it ends.
  ghost predicate Publishes(a: Db, b: Db, g: GenerationId, status: Status)
    requires g in a.generations
  {
    if status.Completed? then
      && g in a.drafts
      && b.committed == a.committed[a.generations[g].conversation :=
             Committed(a.drafts[g].revision, a.drafts[g].state, g)]
    else b.committed == a.committed
  }

  // Finalize takes effect exactly if the end is allowed, and for a completion there is a draft. Then the generation ends
  // with the status asked for, a completion publishes its draft, and nothing else changes; otherwise nothing changes.
  lemma FinalizeEffect(db: Db, g: GenerationId, writer: Option<Token>, status: TerminalStatus)
    requires Inv(db)
    ensures var (n, r) := Finalize(db, g, writer, status);
            var allowed := g in db.generations && EndIsAllowed(db.generations[g], writer, status);
            && r == (if !allowed then NotUpdated
                     else if status.Completed? && g !in db.drafts then DraftMissing
                     else Finalized)
            && (!r.Finalized? ==> n == db)
            && (r.Finalized? ==> EndedAs(db, n, g, status) && OthersStay(db, n, {g}) && Publishes(db, n, g, status))
  {
    EndGuard(db, g, writer, status);
    hide Inv, EndIsAllowed, EndedAs, OthersStay, Publishes, Close;
    if status.Completed? {
      PromotionNeverConflicts(db, g, writer);
    }
    if Finalize(db, g, writer, status).1.Finalized? {
      FinalizedEffect(db, g, writer, status);
    }
  }

  lemma FinalizedEffect(db: Db, g: GenerationId, writer: Option<Token>, status: TerminalStatus)
    requires Inv(db) && Finalize(db, g, writer, status).1.Finalized?
    ensures g in db.generations
    ensures var n := Finalize(db, g, writer, status).0;
            EndedAs(db, n, g, status) && OthersStay(db, n, {g}) && Publishes(db, n, g, status)
  {
    hide Inv, Close, EndedAs, OthersStay, TerminalEvent, LogOf, DraftsCurrent;
    ActiveTurnsWait(db, g);
    var closing := map[g := Closing(status, TerminalEvent(status))];
    assert closing.Keys == {g};
    if status.Completed? {
      DraftsCurrentOf(db);
      PromotedConversation(db, g);
      var p := Promote(db, g);
      ClosingEffect(p, closing, g);
      PromotionOnlyCommits(db, p, Close(p, closing), g, status);
    } else {
      ClosingEffect(db, closing, g);
    }
  }

  lemma PromotedConversation(db: Db, g: GenerationId)
    requires DraftsCurrent(db) && g in db.drafts && g in db.generations
    ensures db.drafts[g].conversation == db.generations[g].conversation
  {
  }

  lemma ClosingEffect(db: Db, closing: map<GenerationId, Closing>, g: GenerationId)
    requires closing.Keys <= db.generations.Keys && g in closing && g in db.turns && db.turns[g].Pending?
    requires closing[g].event == TerminalEvent(closing[g].status)
    ensures var n := Close(db, closing);
            EndedAs(db, n, g, closing[g].status) && OthersStay(db, n, closing.Keys) && n.committed == db.committed
  {
    ClosedRowsEnd(db, closing, g);
    ClosingLeavesOthers(db, closing);
  }

  lemma PromotionOnlyCommits(db: Db, p: Db, n: Db, g: GenerationId, status: Status)
    requires g in db.generations && p == db.(committed := p.committed)
    requires EndedAs(p, n, g, status) && OthersStay(p, n, {g})
    ensures EndedAs(db, n, g, status) && OthersStay(db, n, {g})
  {
    assert forall h :: LogOf(p, h) == LogOf(db, h);
    assert forall id :: EndsAt(p, {g}, id) == EndsAt(db, {g}, id);
  }

  lemma EndGuard(db: Db, g: GenerationId, writer: Option<Token>, status: TerminalStatus)
    requires Inv(db)
    ensures var allowed := g in db.generations && EndIsAllowed(db.generations[g], writer, status);
            MayFinalize(db, g, writer, status) <==> allowed
  {
    RowsAgreeOf(db);
    hide Inv;
  }

  // The queue's last retry fails a generation that no worker has claimed, and no other.
  lemma FailQueuedEffect(db: Db, g: GenerationId)
    requires Inv(db)
    ensures var n := FailQueued(db, g);
            if g in db.generations && db.generations[g].status.Pending?
            then EndedAs(db, n, g, Failed) && OthersStay(db, n, {g}) && n.committed == db.committed
            else n == db
  {
    hide Inv, Close, EndedAs, OthersStay, TerminalEvent;
    RowsAgreeOf(db);
    if g in db.generations && db.generations[g].status.Pending? {
      ActiveTurnsWait(db, g);
      var closing := map[g := Closing(Failed, TerminalEvent(Failed))];
      assert closing.Keys == {g};
      ClosingEffect(db, closing, g);
    }
  }

  // The monitor ends every active generation that is overdue: as cancelled if that was requested, else as failed.
  lemma FailStaleEffect(db: Db, aged: set<GenerationId>, g: GenerationId)
    requires Inv(db) && g in db.generations
    ensures var n := FailStale(db, aged);
            && (g in aged && ActiveIn(db, g) ==>
                  EndedAs(db, n, g, if db.generations[g].status.CancelRequested? then Cancelled else Failed))
            && OthersStay(db, n, set h | h in db.generations && h in aged && ActiveIn(db, h))
            && n.committed == db.committed
  {
    hide Inv, StaleClosing, EndedAs, OthersStay, TerminalEvent, ActiveIn;
    StaleAreActive(db, aged);
    var closing := StaleClosing(db, aged);
    if g in aged && ActiveIn(db, g) {
      ActiveTurnsWait(db, g);
      ClosedRowsEnd(db, closing, g);
    }
    ClosingLeavesOthers(db, closing);
  }

  lemma ActiveAreExpirable(db: Db, g: GenerationId)
    requires RowsAgree(db) && g in db.generations
    ensures Expirable(db, g) <==> ActiveIn(db, g)
  {
  }

  lemma StaleAreActive(db: Db, aged: set<GenerationId>)
    requires Inv(db)
    ensures StaleClosing(db, aged).Keys == set h | h in db.generations && h in aged && ActiveIn(db, h)
    ensures forall h :: h in StaleClosing(db, aged) ==> IsStaleEnd(db, h, StaleClosing(db, aged)[h])
  {
    hide Inv, RowsAgree, Expirable, ActiveIn, TerminalEvent;
    RowsAgreeOf(db);
    forall h | h in db.generations ensures Expirable(db, h) <==> ActiveIn(db, h) {
      ActiveAreExpirable(db, h);
    }
  }

  predicate IsStaleEnd(db: Db, h: GenerationId, k: Closing) {
    && h in db.generations && k.event == TerminalEvent(k.status)
    && k.status == if db.generations[h].status.CancelRequested? then Cancelled else Failed
  }

  // ---------- Steps of a row ----------

  // Only this row changes.
  ghost predicate OnlyRow(a: Db, b: Db, g: GenerationId, row: Generation) {
    g in a.generations && b == a.(generations := a.generations[g := row])
  }

  // A claim takes effect on a row that is pending and has no writer; it names the writer.
  lemma ClaimEffect(db: Db, g: GenerationId, t: Token)
    requires Inv(db)
    ensures var (n, claimed) := Claim(db, g, t);
            && (claimed <==> g in db.generations && db.generations[g].status.Pending?)
            && (if claimed then OnlyRow(db, n, g, db.generations[g].(status := Starting, token := Some(t))) else n == db)
  {
    RowsAgreeOf(db);
  }

  lemma MarkRunningEffect(db: Db, g: GenerationId, t: Token)
    requires Inv(db)
    ensures var n := MarkRunning(db, g, t);
            if g in db.generations && db.generations[g].status.Starting? && db.generations[g].token == Some(t)
            then OnlyRow(db, n, g, db.generations[g].(status := Running)) else n == db
  {
  }

  // A cancel request is only accepted from the generation's user, and while it is active; it leaves the writer in place.
  lemma CancelEffect(db: Db, user: UserId, g: GenerationId)
    ensures var (n, found) := Cancel(db, user, g);
            && (found <==> g in db.generations && db.generations[g].user == user && !Terminal(db.generations[g].status))
            && (if found then OnlyRow(db, n, g, db.generations[g].(status := CancelRequested)) else n == db)
  {
  }

  // ---------- Writes of a worker ----------

  // The row carries the writer's token, and its run is neither over nor asked to stop.
  predicate MayWrite(db: Db, g: GenerationId, t: Token) {
    && g in db.generations && db.generations[g].token == Some(t)
    && Active(db.generations[g].status) && !db.generations[g].status.CancelRequested?
  }

  lemma OwnedMayWrite(db: Db, g: GenerationId, t: Token)
    requires Inv(db)
    ensures Owned(db, g, t) <==> MayWrite(db, g, t)
  {
    hide Inv;
    RowsAgreeOf(db);
  }

  lemma PublishEffect(db: Db, g: GenerationId, t: Token, e: WorkerEvent)
    requires Inv(db)
    ensures var (n, written) := Publish(db, g, t, e);
            && (written <==> MayWrite(db, g, t))
            && (if written then
                  var row, id := db.generations[g], EventId(g, db.generations[g].lastSequence + 1);
                  && n == db.(generations := db.generations[g := row.(lastSequence := row.lastSequence + 1)],
                       logs := db.logs[g := LogOf(n, g)], outbox := n.outbox)
                  && |LogOf(n, g)| == |LogOf(db, g)| + 1 && LogOf(db, g) <= LogOf(n, g)
                  && id in n.outbox && n.outbox == db.outbox[id := n.outbox[id]]
                  && Logged(row, g, e, LogOf(n, g)[|LogOf(db, g)|], n.outbox[id])
                else n == db)
  {
    hide Inv;
    OwnedMayWrite(db, g, t);
  }

  lemma SaveEffect(db: Db, g: GenerationId, t: Token, expected: nat, s: AnalysisState)
    requires Inv(db)
    ensures var (n, r) := Save(db, g, t, expected, s);
            && (r.SaveOwnershipLost? <==> !MayWrite(db, g, t))
            && (r.Saved? <==> MayWrite(db, g, t) && g in db.drafts && db.drafts[g].revision == expected
                              && s.revision > db.drafts[g].base)
            && n == (if r.Saved? then db.(drafts := db.drafts[g := db.drafts[g].(revision := s.revision, state := s)])
                     else db)
  {
    hide Inv;
    OwnedMayWrite(db, g, t);
  }

  lemma WriteArtifactEffect(db: Db, g: GenerationId, t: Token, id: ArtifactId, a: Artifact)
    requires Inv(db)
    ensures var (n, written) := WriteArtifact(db, g, t, id, a);
            && (written <==> MayWrite(db, g, t) && id !in db.artifacts)
            && n == if written then db.(artifacts := db.artifacts[id := a]) else db
  {
    hide Inv;
    OwnedMayWrite(db, g, t);
  }

  // A draft that was begun is found again; otherwise it starts from what the conversation has committed.
  lemma BeginEffect(db: Db, g: GenerationId, t: Token, datasource: nat, question: string, memories: seq<Memory>,
      freshTask: nat)
    requires Inv(db)
    ensures var (n, r) := Begin(db, g, t, datasource, question, memories, freshTask);
            && (r.Begun? <==> MayWrite(db, g, t))
            && (if r.OwnershipLost? || g in db.drafts then n == db
                else
                  var c := db.generations[g].conversation;
                  n == db.(drafts := db.drafts[g := n.drafts[g]]) && n.drafts[g].conversation == c
                  && (if c in db.committed
                      then n.drafts[g].base == db.committed[c].revision && n.drafts[g].state == BeginState(
                             Some(db.committed[c].state), db.committed[c].revision, c, datasource, question, memories,
                             freshTask)
                      else n.drafts[g].base == 0 && n.drafts[g].state == BeginState(None, 0, c, datasource, question,
                             memories, freshTask))
                  && n.drafts[g].revision == n.drafts[g].base + 1)
            && (r.Begun? ==> g in n.drafts && r.state == n.drafts[g].state)
  {
    hide Inv;
    OwnedMayWrite(db, g, t);
  }

  // ---------- createTurn ----------

  // The generation that the user asked for under this key.
  predicate AskedUnder(db: Db, user: UserId, key: nat, g: GenerationId) {
    g in db.generations && db.generations[g].user == user && db.generations[g].key == key
  }

  predicate Occupies(db: Db, c: ConversationId, g: GenerationId) {
    g in db.generations && !Terminal(db.generations[g].status) && db.generations[g].conversation == c
  }

  predicate Answers(db: Db, m: MessageId, g: GenerationId) {
    g in db.generations && db.generations[g].message == m
  }

  lemma KeyFindsRow(db: Db, user: UserId, key: nat)
    requires Inv(db)
    ensures (user, key) in db.keys ==> AskedUnder(db, user, key, db.keys[(user, key)])
    ensures forall g :: AskedUnder(db, user, key, g) ==> (user, key) in db.keys && db.keys[(user, key)] == g
  {
    assert KeysIndex(db);
  }

  // A request under a used key finds its generation, or is refused if it is another request; it changes nothing.
  lemma KnownKeyEffect(db: Db, user: UserId, c: ConversationId, key: nat, hash: nat, id: GenerationId, m: MessageId,
      g: GenerationId)
    requires Inv(db) && AskedUnder(db, user, key, g)
    ensures CreateTurn(db, user, c, key, hash, id, m)
         == (db, if db.generations[g].requestHash == hash then Replayed(g) else KeyReused)
  {
    hide Inv;
    KeyFindsRow(db, user, key);
  }

  function RunningOf(db: Db, user: UserId): set<GenerationId> {
    set g | g in db.generations && db.generations[g].user == user && !Terminal(db.generations[g].status)
  }

  lemma SameQuestions(db: Db, user: UserId, c: ConversationId, m: MessageId)
    ensures ActiveOf(db, user) == RunningOf(db, user)
    ensures (exists g :: g in db.generations && ActiveIn(db, g) && db.generations[g].conversation == c)
        <==> exists g :: Occupies(db, c, g)
    ensures (exists g :: g in db.generations && db.generations[g].message == m) <==> exists g :: Answers(db, m, g)
  {
    if g :| g in db.generations && ActiveIn(db, g) && db.generations[g].conversation == c {
      assert Occupies(db, c, g);
    }
    if g :| Occupies(db, c, g) {
      assert ActiveIn(db, g);
    }
    if g :| g in db.generations && db.generations[g].message == m {
      assert Answers(db, m, g);
    }
  }

  // A new request is refused if the conversation is not the user's or is occupied, or the user has reached the limit;
  // otherwise one pending generation with an empty log is added, and nothing else changes.
  lemma NewTurnEffect(db: Db, user: UserId, c: ConversationId, key: nat, hash: nat, id: GenerationId, m: MessageId)
    requires Inv(db) && forall g :: !AskedUnder(db, user, key, g)
    ensures var (n, r) := CreateTurn(db, user, c, key, hash, id, m);
            && r == (if c !in db.owners || db.owners[c] != user then NoConversation
                     else if exists g :: Occupies(db, c, g) then ConversationActive
                     else if |RunningOf(db, user)| >= db.userLimit then TooManyActive
                     else if id in db.generations || exists g :: Answers(db, m, g) then Aborted
                     else Created(id))
            && n == if r.Created? then db.(
                        generations := db.generations[id := Generation(user, c, m, key, hash, Pending, None, 0)],
                        keys := db.keys[(user, key) := id],
                        turns := db.turns[id := Pending], logs := db.logs[id := []])
                    else db
  {
    hide Inv, RunningOf, ActiveOf, Occupies, Answers, ActiveIn;
    KeyFindsRow(db, user, key);
    SameQuestions(db, user, c, m);
  }
}
