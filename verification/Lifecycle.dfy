/**
 * The rows that a generation lives in, and the transactions that move it: createTurn, the three steps of claim, cancel,
 * publish, draft begin and save, artifact writes, finalize, failQueued and failStale. Every function here is one atomic
 * SQL statement or transaction, from the old rows to the new rows and a reply.
 */
module Lifecycle {
  import opened Common
  import opened Events
  import opened AnalysisStates

  datatype Generation = Generation(
    user: UserId,
    conversation: ConversationId,
    message: MessageId,
    key: nat,
    requestHash: nat,
    status: Status,
    token: Option<Token>,
    lastSequence: nat)

  datatype Draft = Draft(conversation: ConversationId, base: nat, revision: nat, state: AnalysisState)
  datatype Committed = Committed(revision: nat, state: AnalysisState, generation: GenerationId)

  datatype Db = Db(
    userLimit: nat,
    owners: map<ConversationId, UserId>,
    generations: map<GenerationId, Generation>,
    keys: map<(UserId, nat), GenerationId>, // the unique index on (user_id, idempotency_key)
    turns: map<GenerationId, Status>,
    drafts: map<GenerationId, Draft>,
    committed: map<ConversationId, Committed>,
    artifacts: map<ArtifactId, Artifact>,
    logs: map<GenerationId, seq<Payload>>,
    outbox: map<EventId, OutboxRow>)

  function Empty(userLimit: nat): Db {
    Db(userLimit, map[], map[], map[], map[], map[], map[], map[], map[], map[])
  }

  function LogOf(db: Db, g: GenerationId): seq<Payload> {
    if g in db.logs then db.logs[g] else []
  }

  function CommittedRevision(db: Db, c: ConversationId): nat {
    if c in db.committed then db.committed[c].revision else 0
  }

  predicate ActiveIn(db: Db, g: GenerationId) {
    g in db.generations && Active(db.generations[g].status)
  }

  function ActiveOf(db: Db, user: UserId): set<GenerationId> {
    set g | g in db.generations && ActiveIn(db, g) && db.generations[g].user == user
  }

  // The fence: the caller's token is on the row, and the row is starting or running.
  predicate Owned(db: Db, g: GenerationId, t: Token) {
    && g in db.generations
    && db.generations[g].token == Some(t)
    && (db.generations[g].status.Starting? || db.generations[g].status.Running?)
  }

  function NewConversation(db: Db, c: ConversationId, user: UserId): Db {
    if c in db.owners then db else db.(owners := db.owners[c := user])
  }

  // ---------- createTurn, claim, cancel ----------

  datatype CreateReply =
    | Created(id: GenerationId) | Replayed(id: GenerationId) | KeyReused
    | NoConversation | ConversationActive | TooManyActive | Aborted

  // `id` and `message` are drawn at random by the caller; a collision violates a primary key and aborts.
  function CreateTurn(db: Db, user: UserId, conversation: ConversationId, key: nat, requestHash: nat,
                      id: GenerationId, message: MessageId): (Db, CreateReply)
  {
    if (user, key) in db.keys then
      var g := db.keys[(user, key)];
      (db, if g in db.generations && db.generations[g].requestHash == requestHash then Replayed(g) else KeyReused)
    else if conversation !in db.owners || db.owners[conversation] != user then (db, NoConversation)
    else if exists g :: g in db.generations && ActiveIn(db, g) && db.generations[g].conversation == conversation then
      (db, ConversationActive)
    else if |ActiveOf(db, user)| >= db.userLimit then (db, TooManyActive)
    else if id in db.generations || exists g :: g in db.generations && db.generations[g].message == message
        then (db, Aborted)
    else
      (db.(generations := db.generations[id := Generation(user, conversation, message, key, requestHash, Pending,
          None, 0)],
           keys := db.keys[(user, key) := id],
           turns := db.turns[id := Pending],
           logs := db.logs[id := []]),
       Created(id))
  }

  function SetStatus(db: Db, g: GenerationId, status: Status, token: Option<Token>): Db
    requires g in db.generations
  {
    db.(generations := db.generations[g := db.generations[g].(status := status, token := token)])
  }

  function Claim(db: Db, g: GenerationId, t: Token): (Db, bool) {
    if g in db.generations && db.generations[g].status.Pending? && db.generations[g].token.None?
    then (SetStatus(db, g, Starting, Some(t)), true)
    else (db, false)
  }

  function MarkRunning(db: Db, g: GenerationId, t: Token): Db {
    if g in db.generations && db.generations[g].token == Some(t) && db.generations[g].status.Starting?
    then SetStatus(db, g, Running, Some(t))
    else db
  }

  function Cancel(db: Db, user: UserId, g: GenerationId): (Db, bool) {
    if ActiveIn(db, g) && db.generations[g].user == user
    then (SetStatus(db, g, CancelRequested, db.generations[g].token), true)
    else (db, false)
  }

  // ---------- Events ----------

  function PayloadAfter(g: GenerationId, row: Generation, e: Event): Payload {
    BuildPayload(g, row.conversation, row.message, row.lastSequence + 1, e)
  }

  function NextPayload(db: Db, g: GenerationId, e: Event): Payload
    requires g in db.generations
  {
    PayloadAfter(g, db.generations[g], e)
  }

  // enqueueGenerationEvent: number the event under the generation row, append it, and request its delivery.
  function Enqueue(db: Db, g: GenerationId, e: Event): Db
    requires g in db.generations
  {
    var p := NextPayload(db, g, e);
    db.(generations := db.generations[g := db.generations[g].(lastSequence := p.sequence)],
        logs := db.logs[g := LogOf(db, g) + [p]],
        outbox := db.outbox[p.eventId := BuildRow(db.generations[g].user, p)])
  }

  function Publish(db: Db, g: GenerationId, t: Token, e: WorkerEvent): (Db, bool) {
    if Owned(db, g, t) then (Enqueue(db, g, e), true) else (db, false)
  }

  // ---------- Drafts and artifacts ----------

  datatype BeginReply = Begun(state: AnalysisState) | OwnershipLost

  function Begin(db: Db, g: GenerationId, t: Token, datasource: nat, question: string, memories: seq<Memory>,
      freshTask: nat)
    : (Db, BeginReply)
  {
    if !Owned(db, g, t) then (db, OwnershipLost)
    else if g in db.drafts then (db, Begun(db.drafts[g].state))
    else
      var c := db.generations[g].conversation;
      var base := CommittedRevision(db, c);
      var previous := if c in db.committed then Some(db.committed[c].state) else None;
      var s := BeginState(previous, base, c, datasource, question, memories, freshTask);
      (db.(drafts := db.drafts[g := Draft(c, base, s.revision, s)]), Begun(s))
  }

  datatype SaveReply = Saved | SaveConflict | SaveOwnershipLost

  // A compare-and-set on the draft's revision; the column constraint revision > base_revision aborts the rest.
  function Save(db: Db, g: GenerationId, t: Token, expected: nat, s: AnalysisState): (Db, SaveReply) {
    if !Owned(db, g, t) then (db, SaveOwnershipLost)
    else if g !in db.drafts || db.drafts[g].revision != expected || s.revision <= db.drafts[g].base
        then (db, SaveConflict)
    else (db.(drafts := db.drafts[g := db.drafts[g].(revision := s.revision, state := s)]), Saved)
  }

  function WriteArtifact(db: Db, g: GenerationId, t: Token, id: ArtifactId, a: Artifact): (Db, bool) {
    if Owned(db, g, t) && id !in db.artifacts then (db.(artifacts := db.artifacts[id := a]), true) else (db, false)
  }

  // ---------- Closing ----------

  datatype Closing = Closing(status: Status, event: Event)

  function DoneEvent(status: Option<Status>): Event {
    BLANK.(kind := Done, status := status)
  }

  // The success event carries no status; the failure and cancel events name theirs.
  function TerminalEvent(status: Status): Event {
    DoneEvent(if status.Completed? then None else Some(status))
  }

  function ClosedRow(row: Generation, c: Closing): Generation {
    row.(status := c.status, token := None, lastSequence := row.lastSequence + 1)
  }

  function CloseGenerations(generations: map<GenerationId, Generation>, closing: map<GenerationId, Closing>)
    : map<GenerationId, Generation>
  {
    map g | g in generations :: if g in closing then ClosedRow(generations[g], closing[g]) else generations[g]
  }

  function CloseTurn(turn: Status, c: Closing): Status {
    if turn.Pending? then c.status else turn
  }

  function CloseTurns(turns: map<GenerationId, Status>, closing: map<GenerationId, Closing>)
    : map<GenerationId, Status>
  {
    map g | g in turns :: if g in closing then CloseTurn(turns[g], closing[g]) else turns[g]
  }

  function CloseLogs(logs: map<GenerationId, seq<Payload>>, generations: map<GenerationId, Generation>,
      closing: map<GenerationId, Closing>)
    : map<GenerationId, seq<Payload>>
    requires closing.Keys <= generations.Keys
  {
    map g | g in logs.Keys + closing.Keys ::
      (if g in logs then logs[g] else []) + if g in closing then [PayloadAfter(g, generations[g], closing[g].event)]
          else []
  }

  function ClosingIds(generations: map<GenerationId, Generation>, closing: map<GenerationId, Closing>)
    : (ids: set<EventId>)
    requires closing.Keys <= generations.Keys
    ensures forall id :: id in ids <==>
              id.generation in closing && id.draw == generations[id.generation].lastSequence + 1
  {
    var ids := set g | g in closing :: EventId(g, generations[g].lastSequence + 1);
    assert forall id: EventId :: id == EventId(id.generation, id.draw);
    ids
  }

  function ClosingRows(generations: map<GenerationId, Generation>, closing: map<GenerationId, Closing>)
    : map<EventId, OutboxRow>
    requires closing.Keys <= generations.Keys
  {
    map id | id in ClosingIds(generations, closing) ::
      var g := id.generation;
      BuildRow(generations[g].user, PayloadAfter(g, generations[g], closing[g].event))
  }

  function CloseOutbox(outbox: map<EventId, OutboxRow>, generations: map<GenerationId, Generation>,
      closing: map<GenerationId, Closing>)
    : map<EventId, OutboxRow>
    requires closing.Keys <= generations.Keys
  {
    outbox + ClosingRows(generations, closing)
  }

  // Terminal status, turn and done event, for several generations in one transaction.
  function Close(db: Db, closing: map<GenerationId, Closing>): Db
    requires closing.Keys <= db.generations.Keys
  {
    db.(generations := CloseGenerations(db.generations, closing),
        turns := CloseTurns(db.turns, closing),
        logs := CloseLogs(db.logs, db.generations, closing),
        outbox := CloseOutbox(db.outbox, db.generations, closing))
  }

  datatype FinalizeReply = Finalized | NotUpdated | DraftMissing | StateConflict

  // The row guard of finalize; no writer is the empty token.
  predicate MayFinalize(db: Db, g: GenerationId, writer: Option<Token>, status: Status) {
    && g in db.generations
    && var row := db.generations[g];
       if writer.Some? then
         && row.token == writer
         && (row.status.Starting? || row.status.Running? || row.status.CancelRequested?)
         && (!status.Completed? || !row.status.CancelRequested?)
       else row.token.None? && row.status.CancelRequested?
  }

  function PromotionReply(db: Db, g: GenerationId): FinalizeReply {
    if g !in db.drafts then DraftMissing
    else if CommittedRevision(db, db.drafts[g].conversation) != db.drafts[g].base then StateConflict
    else Finalized
  }

  function Promote(db: Db, g: GenerationId): Db
    requires g in db.drafts
  {
    var d := db.drafts[g];
    db.(committed := db.committed[d.conversation := Committed(d.revision, d.state, g)])
  }

  // Completing promotes the draft in the same transaction; a refused promotion rolls everything back.
  function CompleteTurn(db: Db, g: GenerationId): (Db, FinalizeReply)
    requires g in db.generations
  {
    var r := PromotionReply(db, g);
    (if r.Finalized? then Close(Promote(db, g), map[g := Closing(Completed, TerminalEvent(Completed))]) else db, r)
  }

  function Finalize(db: Db, g: GenerationId, writer: Option<Token>, status: Status): (Db, FinalizeReply)
    requires Terminal(status)
  {
    if !MayFinalize(db, g, writer, status) then (db, NotUpdated)
    else if status.Completed? then CompleteTurn(db, g)
    else (Close(db, map[g := Closing(status, TerminalEvent(status))]), Finalized)
  }

  function FailQueued(db: Db, g: GenerationId): Db {
    if g in db.generations && db.generations[g].status.Pending? && db.generations[g].token.None?
    then Close(db, map[g := Closing(Failed, TerminalEvent(Failed))])
    else db
  }

  // Rows that failStale may close; which of them are old enough is the clock's choice.
  predicate Expirable(db: Db, g: GenerationId) {
    && g in db.generations
    && var row := db.generations[g];
       || ((row.status.Starting? || row.status.Running? || row.status.CancelRequested?) && row.token.Some?)
       || (row.status.CancelRequested? && row.token.None?)
       || (row.status.Pending? && row.token.None?)
  }

  function StaleStatus(s: Status): Status {
    if s.CancelRequested? then Cancelled else Failed
  }

  function StaleClosing(db: Db, aged: set<GenerationId>): map<GenerationId, Closing> {
    map g | g in db.generations && g in aged && Expirable(db, g) ::
      Closing(StaleStatus(db.generations[g].status), TerminalEvent(StaleStatus(db.generations[g].status)))
  }

  function FailStale(db: Db, aged: set<GenerationId>): Db {
    Close(db, StaleClosing(db, aged))
  }

  // ---------- Runs ----------

  datatype Step =
    | NewConversationStep(conversation: ConversationId, user: UserId)
    | CreateTurnStep(user: UserId, conversation: ConversationId, key: nat, requestHash: nat, id: GenerationId,
        message: MessageId)
    | ClaimStep(id: GenerationId, token: Token)
    | MarkRunningStep(id: GenerationId, token: Token)
    | CancelStep(user: UserId, id: GenerationId)
    | PublishStep(id: GenerationId, token: Token, event: WorkerEvent)
    | BeginStep(id: GenerationId, token: Token, datasource: nat, question: string, memories: seq<Memory>,
        freshTask: nat)
    | SaveStep(id: GenerationId, token: Token, expected: nat, state: AnalysisState)
    | ArtifactStep(id: GenerationId, token: Token, artifactId: ArtifactId, artifact: Artifact)
    | FinalizeStep(id: GenerationId, writer: Option<Token>, status: TerminalStatus)
    | FailQueuedStep(id: GenerationId)
    | FailStaleStep(aged: set<GenerationId>)

  type TerminalStatus = s: Status | Terminal(s) witness Failed

  function Apply(db: Db, s: Step): Db {
    match s
    case NewConversationStep(c, u) => NewConversation(db, c, u)
    case CreateTurnStep(u, c, k, h, id, m) => CreateTurn(db, u, c, k, h, id, m).0
    case ClaimStep(id, t) => Claim(db, id, t).0
    case MarkRunningStep(id, t) => MarkRunning(db, id, t)
    case CancelStep(u, id) => Cancel(db, u, id).0
    case PublishStep(id, t, e) => Publish(db, id, t, e).0
    case BeginStep(id, t, ds, q, ms, task) => Begin(db, id, t, ds, q, ms, task).0
    case SaveStep(id, t, expected, state) => Save(db, id, t, expected, state).0
    case ArtifactStep(id, t, aid, a) => WriteArtifact(db, id, t, aid, a).0
    case FinalizeStep(id, w, status) => Finalize(db, id, w, status).0
    case FailQueuedStep(id) => FailQueued(db, id)
    case FailStaleStep(aged) => FailStale(db, aged)
  }

  function Run(db: Db, steps: seq<Step>): Db {
    if steps == [] then db else Apply(Run(db, steps[..|steps| - 1]), steps[|steps| - 1])
  }

  // ---------- The invariant ----------

  ghost predicate RowsAgree(db: Db) {
    && db.turns.Keys == db.generations.Keys
    && db.logs.Keys == db.generations.Keys
    && db.drafts.Keys <= db.generations.Keys
    && (forall g :: g in db.generations ==>
         var row := db.generations[g];
         && row.conversation in db.owners && db.owners[row.conversation] == row.user
         && (row.status.Pending? || Terminal(row.status) ==> row.token.None?)
         && (row.status.Starting? || row.status.Running? ==> row.token.Some?))
  }

  ghost predicate OneActivePerConversation(db: Db) {
    forall g, h ::
      ActiveIn(db, g) && ActiveIn(db, h) && db.generations[g].conversation == db.generations[h].conversation ==> g == h
  }

  ghost predicate UsersWithinLimit(db: Db) {
    forall u :: |ActiveOf(db, u)| <= db.userLimit
  }

  ghost predicate KeysIndex(db: Db) {
    && (forall g :: g in db.generations ==>
         var row := db.generations[g]; (row.user, row.key) in db.keys && db.keys[(row.user, row.key)] == g)
    && (forall k :: k in db.keys ==>
         db.keys[k] in db.generations && (db.generations[db.keys[k]].user, db.generations[db.keys[k]].key) == k)
  }

  ghost predicate MessagesDistinct(db: Db) {
    forall g, h ::
      g in db.generations && h in db.generations && db.generations[g].message == db.generations[h].message ==> g == h
  }

  predicate WellNumbered(db: Db, g: GenerationId, p: Payload, n: nat)
    requires g in db.generations
  {
    p == BuildPayload(g, db.generations[g].conversation, db.generations[g].message, n, p.event)
  }

  // Sequences are 1..last_sequence; a done event is last, and there exactly when the generation is terminal.
  ghost predicate LogComplete(db: Db, g: GenerationId)
    requires g in db.generations
  {
    var row, log := db.generations[g], LogOf(db, g);
    && |log| == row.lastSequence
    && (forall i :: 0 <= i < |log| ==> WellNumbered(db, g, log[i], i + 1))
    && (forall i :: 0 <= i < |log| ==> (log[i].event.kind.Done? <==> (Terminal(row.status) && i == |log| - 1)))
    && (Terminal(row.status) ==> |log| > 0 && log[|log| - 1].event == TerminalEvent(row.status))
  }

  ghost predicate LogsComplete(db: Db) {
    forall g :: g in db.generations ==> LogComplete(db, g)
  }

  ghost predicate TurnsFollow(db: Db) {
    forall g :: g in db.generations && g in db.turns ==>
      db.turns[g] == if Terminal(db.generations[g].status) then db.generations[g].status else Pending
  }

  // The draft of a generation that is still active was begun by its writer, on the revision that is still committed.
  ghost predicate DraftsCurrent(db: Db) {
    forall g :: g in db.drafts && g in db.generations ==>
      var d := db.drafts[g];
      && d.conversation == db.generations[g].conversation
      && d.revision == d.state.revision
      && d.base < d.revision
      && (ActiveIn(db, g) ==> db.generations[g].token.Some? && d.base == CommittedRevision(db, d.conversation))
  }

  ghost predicate CommittedFromDrafts(db: Db) {
    && (forall c :: c in db.committed ==>
         var k := db.committed[c];
         && k.generation in db.generations && k.generation in db.drafts
         && db.generations[k.generation].status.Completed?
         && db.drafts[k.generation] == Draft(c, db.drafts[k.generation].base, k.revision, k.state))
    && (forall g :: g in db.generations && db.generations[g].status.Completed? ==>
         g in db.drafts && db.drafts[g].revision <= CommittedRevision(db, db.generations[g].conversation))
  }

  ghost predicate Inv(db: Db) {
    && RowsAgree(db)
    && OneActivePerConversation(db)
    && UsersWithinLimit(db)
    && KeysIndex(db)
    && MessagesDistinct(db)
    && LogsComplete(db)
    && TurnsFollow(db)
    && DraftsCurrent(db)
    && CommittedFromDrafts(db)
  }
}
