/**
 * A browser's view of its user's generations: registering one, applying streamed events, and resynchronising after a
 * gap through the history endpoint, whose two queries may see different database states (apps/web/src/stores/chat.ts,
 * apps/api/src/chat/generation.service.ts).
 */
module Client {
  import opened Common
  import opened Events
  import opened Lifecycle
  import opened Blocks

  datatype View = View(conversation: ConversationId, message: MessageId, status: Status, sequence: nat)

  // A conversation is loaded when it has an entry in `messages`.
  datatype Browser = Browser(
    user: UserId,
    views: map<GenerationId, View>,
    messages: map<ConversationId, map<MessageId, seq<Block>>>)

  datatype Reply = Applied | Duplicate | Gap

  const CANCELLED_TEXT := "已取消"

  function StatusAfter(current: Status, e: Event): Status {
    if e.kind.Done? then e.status.GetOr(Completed)
    else if e.kind.Error? then (if e.content == CANCELLED_TEXT then Cancelled else Failed)
    else if !current.CancelRequested? then Running
    else current
  }

  function ViewOf(b: Browser, p: Payload): View {
    if p.generation in b.views then b.views[p.generation] else View(p.conversation, p.message, Running, 0)
  }

  function BlocksOf(b: Browser, c: ConversationId, m: MessageId): seq<Block> {
    if c in b.messages && m in b.messages[c] then b.messages[c][m] else []
  }

  function PutMessage(b: Browser, c: ConversationId, m: MessageId, blocks: seq<Block>): Browser {
    if c in b.messages then
      var loaded: map<MessageId, seq<Block>> := b.messages[c];
      b.(messages := b.messages[c := loaded[m := blocks]])
    else b
  }

  function ApplyEvent(b: Browser, p: Payload): (Browser, Reply) {
    if p.generation in b.views && p.sequence <= b.views[p.generation].sequence then (b, Duplicate)
    else
      var v := ViewOf(b, p);
      if p.sequence > v.sequence + 1 then (b, Gap)
      else
        var n := b.(views := b.views[p.generation := v.(sequence := p.sequence,
            status := StatusAfter(v.status, p.event))]);
        (PutMessage(n, p.conversation, p.message, ApplyBlock(BlocksOf(b, p.conversation, p.message), p.event)), Applied)
  }

  function ApplyEvents(b: Browser, events: seq<Payload>): Browser {
    if events == [] then b else ApplyEvent(ApplyEvents(b, events[..|events| - 1]), events[|events| - 1]).0
  }

  // sendMessage and retry, when the reply to the request arrives.
  function Register(b: Browser, g: GenerationId, c: ConversationId, m: MessageId): Browser {
    PutMessage(b.(views := b.views[g := View(c, m, Pending, 0)]), c, m, BlocksOf(b, c, m))
  }

  // ---------- The history endpoint ----------

  datatype History =
    | EventsMode(events: seq<Payload>)
    | SnapshotMode(sequence: nat, status: Status, blocks: seq<Block>)
    | NotFound

  predicate Contiguous(events: seq<Payload>, after: nat) {
    forall i :: 0 <= i < |events| ==> events[i].sequence == after + i + 1
  }

  predicate HasDone(events: seq<Payload>) {
    exists i :: 0 <= i < |events| && events[i].event.kind.Done?
  }

  // The row is read first, the events after it in a later statement; `checkpoint` are the message's stored blocks.
  function HistoryReply(row: Option<Generation>, user: UserId, events: seq<Payload>, after: nat,
      checkpoint: seq<Block>): History {
    if row.None? || row.value.user != user then NotFound
    else if Contiguous(events, after) && (events != [] || after == row.value.lastSequence)
        && (Terminal(row.value.status) ==> HasDone(events))
    then EventsMode(events)
    else SnapshotMode(row.value.lastSequence, row.value.status, checkpoint)
  }

  function EventsAfter(log: seq<Payload>, after: nat): seq<Payload> {
    if after <= |log| then log[after..] else []
  }

  function ApplyHistory(b: Browser, g: GenerationId, h: History): Browser
    requires g in b.views
  {
    match h
    case NotFound => b
    case EventsMode(events) => ApplyEvents(b, events)
    case SnapshotMode(sequence, status, blocks) =>
      var v := b.views[g];
      var n := b.(views := b.views[g := v.(sequence := sequence, status := status)]);
      if v.conversation in b.messages && v.message in b.messages[v.conversation]
          then PutMessage(n, v.conversation, v.message, blocks) else n
  }

  // ---------- A browser in the middle of a resync ----------

  datatype Phase =
    | Idle
    | Asked(event: Payload, after: nat)
    | RowRead(event: Payload, after: nat, row: Option<Generation>)

  datatype Session = Session(browser: Browser, phase: Phase)

  datatype ClientStep =
    | RegisterStep(id: GenerationId)
    | ReceiveStep(event: Payload)
    | CancelClickedStep(id: GenerationId)
    | ReadRowStep
    | ReadEventsStep(checkpoint: seq<Block>)
    | GiveUpStep

  // The event loop handles one frame at a time: after a gap it waits for the resync and then offers the event again.
  function Receive(s: Session, p: Payload): Session {
    if !s.phase.Idle? then s
    else
      var (b, r) := ApplyEvent(s.browser, p);
      if r.Gap? && p.generation in s.browser.views then s.(phase := Asked(p, s.browser.views[p.generation].sequence))
      else s.(browser := b)
  }

  function ReadRow(s: Session, db: Db): Session {
    if s.phase.Asked? then
      var g := s.phase.event.generation;
      s.(phase := RowRead(s.phase.event, s.phase.after, if g in db.generations then Some(db.generations[g]) else None))
    else s
  }

  function HistorySeen(s: Session, db: Db, checkpoint: seq<Block>): History
    requires s.phase.RowRead?
  {
    HistoryReply(s.phase.row, s.browser.user, EventsAfter(LogOf(db, s.phase.event.generation), s.phase.after),
        s.phase.after, checkpoint)
  }

  function ReadEvents(s: Session, db: Db, checkpoint: seq<Block>): Session {
    if s.phase.RowRead? && s.phase.event.generation in s.browser.views then
      var b := ApplyHistory(s.browser, s.phase.event.generation, HistorySeen(s, db, checkpoint));
      Session(ApplyEvent(b, s.phase.event).0, Idle)
    else s
  }

  function CancelClicked(b: Browser, g: GenerationId): Browser {
    if g in b.views then b.(views := b.views[g := b.views[g].(status := CancelRequested)]) else b
  }

  // A generation is registered once, for the row that the request created; the stream delivers any event it likes.
  predicate Enabled(s: Session, db: Db, step: ClientStep) {
    match step
    case RegisterStep(g) => g in db.generations && db.generations[g].user == s.browser.user && g !in s.browser.views
    case ReceiveStep(p) => p.generation in db.generations && db.generations[p.generation].user == s.browser.user
        && p in LogOf(db, p.generation)
    case _ => true
  }

  function StepClient(s: Session, db: Db, step: ClientStep): Session {
    if !Enabled(s, db, step) then s
    else
      match step
      case RegisterStep(g) => s.(browser := Register(s.browser, g, db.generations[g].conversation,
          db.generations[g].message))
      case ReceiveStep(p) => Receive(s, p)
      case CancelClickedStep(g) => s.(browser := CancelClicked(s.browser, g))
      case ReadRowStep => ReadRow(s, db)
      case ReadEventsStep(checkpoint) => ReadEvents(s, db, checkpoint)
      case GiveUpStep => s.(phase := Idle)
  }
}
