/**
 * Streamed events, the payload that persisting one builds around it, and the outbox row that asks for its delivery
 * (packages/database/src/generation-events.ts, apps/api/src/chat/outbox-relay.service.ts).
 */
module Events {
  import opened Common

  type GenerationId = nat
  type ConversationId = nat
  type MessageId = nat
  type UserId = int
  type Token = nat

  datatype Status = Pending | Starting | Running | CancelRequested | Completed | Failed | Cancelled

  predicate Active(s: Status) {
    s.Pending? || s.Starting? || s.Running? || s.CancelRequested?
  }

  predicate Terminal(s: Status) {
    !Active(s)
  }

  datatype Kind =
    | Text | TextChunk | ReasoningChunk
    | Activity | ActivityRemove
    | Log | LogUpdate | LogRemove
    | Chart | ChartLoading | Table
    | Error | Done
    | Other(name: string)

  datatype ActivityData = ActivityData(id: string, body: nat)

  // An event with the fields the block reducers read; an absent text is the empty string, and `rest` stands for the
  // fields that both sides only copy.
  datatype Event = Event(
    kind: Kind,
    title: string,
    content: string,
    analysis: bool,
    activity: Option<ActivityData>,
    activityId: string,
    chartData: Option<nat>,
    artifact: Option<nat>,
    rowCount: Option<int>,
    durationMs: Option<int>,
    display: bool,
    status: Option<Status>,
    rest: nat)

  const BLANK := Event(Other(""), "", "", false, None, "", None, None, None, None, false, None, 0)

  // What a worker streams while it runs; only the closing transactions append a Done event.
  type WorkerEvent = e: Event | !e.kind.Done? witness BLANK

  // A random UUID. Drawn once for each persisted event, so it is named after that event: no two draws collide.
  datatype EventId = EventId(generation: GenerationId, draw: nat)

  datatype Payload = Payload(
    event: Event,
    eventId: EventId,
    generation: GenerationId,
    conversation: ConversationId,
    message: MessageId,
    sequence: nat)

  datatype Envelope = Envelope(
    version: nat,
    kind: string,
    generation: GenerationId,
    user: UserId,
    conversation: ConversationId,
    message: MessageId,
    sequence: nat,
    event: Payload)

  datatype OutboxRow = OutboxRow(
    aggregate: GenerationId,
    envelope: Envelope,
    published: bool,
    deadLettered: bool,
    lock: Option<Token>,
    attempts: nat)

  function BuildPayload(g: GenerationId, conversation: ConversationId, message: MessageId, sequence: nat,
      e: Event): Payload {
    Payload(e, EventId(g, sequence), g, conversation, message, sequence)
  }

  function BuildRow(user: UserId, p: Payload): OutboxRow {
    OutboxRow(
      p.generation,
      Envelope(1, "generation.event", p.generation, user, p.conversation, p.message, p.sequence, p),
      false, false, None, 0)
  }

  const MAX_SAFE_INTEGER := 9007199254740991

  predicate IsSafeInteger(n: int) {
    -MAX_SAFE_INTEGER <= n <= MAX_SAFE_INTEGER
  }

  // The relay's validation of a row before it touches the stream.
  predicate PassesPublishChecks(eventId: EventId, row: OutboxRow) {
    var e := row.envelope;
    && e.version == 1
    && e.kind == "generation.event"
    && e.generation == row.aggregate
    && IsSafeInteger(e.user)
    && IsSafeInteger(e.sequence)
    && e.sequence >= 1
    && e.event.eventId == eventId
    && e.event.sequence == e.sequence
  }
}
