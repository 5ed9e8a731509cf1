/**
 * The lifecycle and the relays running together: what every interleaving of transactions, relay steps, expired locks,
 * lost replies and crashes keeps, and what a reader of a stream may therefore rely on.
 */
module DeliveryRuns {
  import opened Common
  import opened Events
  import opened AnalysisStates
  import opened Lifecycle
  import opened LifecycleProofs
  import opened LifecycleHistory
  import opened Relay

  // ---------- How a transaction may touch the outbox ----------

  // Existing rows stay as they are; a new row has not been delivered, buried or locked.
  ghost predicate OutboxGrows(a: Db, b: Db) {
    && (forall id :: id in a.outbox ==> id in b.outbox && b.outbox[id] == a.outbox[id])
    && (forall id :: id in b.outbox && id !in a.outbox ==> Idle(b.outbox[id]))
  }

  predicate Idle(row: OutboxRow) {
    !row.published && !row.deadLettered && row.lock.None?
  }

  ghost predicate UsersKept(a: Db, b: Db) {
    forall g :: g in a.generations ==> g in b.generations && b.generations[g].user == a.generations[g].user
  }

  ghost predicate Requests(a: Db, b: Db) {
    OutboxGrows(a, b) && UsersKept(a, b) && OutboxMirrorsLogs(b)
  }

  lemma SameRequests(a: Db, b: Db)
    requires OutboxMirrorsLogs(a) && b.outbox == a.outbox && b.logs == a.logs
          && b.generations.Keys == a.generations.Keys
    requires UsersKept(a, b)
    ensures Requests(a, b)
  {
    assert forall g :: LogOf(a, g) == LogOf(b, g);
    forall id | id in b.outbox ensures RowMirrors(b, id) {
      assert RowMirrors(a, id);
    }
  }

  lemma InsertRequests(db: Db, row: Generation, id: GenerationId)
    requires OutboxMirrorsLogs(db) && id !in db.generations
    ensures Requests(db, Insert(db, row, id))
  {
    var n := Insert(db, row, id);
    assert forall g :: g in db.generations ==> LogOf(n, g) == LogOf(db, g);
    assert LogOf(n, id) == [];
    forall k | k in n.outbox ensures RowMirrors(n, k) {
      assert RowMirrors(db, k);
    }
  }

  // Each of the generations `grown` gets one more log entry and the outbox row for it, and nothing else changes.
  ghost predicate Appended(a: Db, b: Db, grown: set<GenerationId>) {
    && b.generations.Keys == a.generations.Keys && grown <= a.generations.Keys
    && (forall g :: g !in grown ==> LogOf(b, g) == LogOf(a, g))
    && (forall g :: g in grown ==> LogExtended(a, b, g))
    && (forall id :: id in a.outbox ==> id in b.outbox && b.outbox[id] == a.outbox[id])
    && (forall id :: id in b.outbox && id !in a.outbox ==>
          id.generation in grown && id.draw == |LogOf(b, id.generation)|)
  }

  ghost predicate LogExtended(a: Db, b: Db, g: GenerationId)
    requires g in a.generations
  {
    var n := |LogOf(a, g)|;
    && |LogOf(b, g)| == n + 1
    && LogOf(b, g)[..n] == LogOf(a, g)
    && var p := LogOf(b, g)[n];
       && p.generation == g && p.sequence == n + 1 && p.eventId == EventId(g, n + 1)
       && p.eventId in b.outbox && b.outbox[p.eventId] == BuildRow(a.generations[g].user, p)
  }

  lemma ExtendedRowMirrors(a: Db, b: Db, grown: set<GenerationId>, id: EventId)
    requires OutboxMirrorsLogs(a) && Appended(a, b, grown) && UsersKept(a, b)
    requires id in b.outbox
    ensures RowMirrors(b, id) && (id !in a.outbox ==> Idle(b.outbox[id]))
  {
    var g := id.generation;
    if id in a.outbox {
      assert RowMirrors(a, id);
      if g in grown {
        assert LogExtended(a, b, g);
        assert LogOf(b, g)[..|LogOf(a, g)|][id.draw - 1] == LogOf(b, g)[id.draw - 1];
      }
    } else {
      assert LogExtended(a, b, g);
      assert id == EventId(g, id.draw);
    }
  }

  lemma AppendedRequests(a: Db, b: Db, grown: set<GenerationId>)
    requires OutboxMirrorsLogs(a) && Appended(a, b, grown) && UsersKept(a, b)
    ensures Requests(a, b)
  {
    forall id | id in b.outbox ensures RowMirrors(b, id) && (id !in a.outbox ==> Idle(b.outbox[id])) {
      ExtendedRowMirrors(a, b, grown, id);
    }
    forall id: EventId | id.generation in b.generations && 1 <= id.draw <= |LogOf(b, id.generation)|
        ensures id in b.outbox {
      if id.generation in grown && id.draw == |LogOf(b, id.generation)| {
        assert LogExtended(a, b, id.generation);
        assert id == EventId(id.generation, id.draw);
      } else {
        AppendedElsewhere(a, b, grown, id);
      }
    }
  }

  lemma AppendedElsewhere(a: Db, b: Db, grown: set<GenerationId>, id: EventId)
    requires OutboxMirrorsLogs(a) && Appended(a, b, grown) && id.generation in b.generations
          && 1 <= id.draw <= |LogOf(b, id.generation)|
    requires !(id.generation in grown && id.draw == |LogOf(b, id.generation)|)
    ensures id in b.outbox
  {
    if id.generation in grown {
      assert LogExtended(a, b, id.generation);
    }
    assert 1 <= id.draw <= |LogOf(a, id.generation)|;
  }

  lemma EnqueueRequests(db: Db, g: GenerationId, e: Event)
    requires OutboxMirrorsLogs(db) && g in db.generations && |LogOf(db, g)| == db.generations[g].lastSequence
    ensures Requests(db, Enqueue(db, g, e))
  {
    hide OutboxMirrorsLogs, BuildRow, Requests;
    var n, p := Enqueue(db, g, e), NextPayload(db, g, e);
    assert LogExtended(db, n, g) by {
      assert LogOf(n, g) == LogOf(db, g) + [p];
    }
    FreshRow(db, g);
    assert Appended(db, n, {g}) by {
      hide LogExtended;
    }
    AppendedRequests(db, n, {g});
  }

  lemma FreshRow(db: Db, g: GenerationId)
    requires OutboxMirrorsLogs(db)
    ensures EventId(g, |LogOf(db, g)| + 1) !in db.outbox
  {
  }

  lemma CloseExtends(db: Db, closing: map<GenerationId, Closing>, g: GenerationId)
    requires closing.Keys <= db.generations.Keys && g in closing && |LogOf(db, g)| == db.generations[g].lastSequence
    ensures LogExtended(db, Close(db, closing), g)
  {
    hide BuildRow;
    var n, p := Close(db, closing), NextPayload(db, g, closing[g].event);
    assert LogOf(n, g) == LogOf(db, g) + [p];
    assert p.eventId in ClosingRows(db.generations, closing);
  }

  lemma CloseKeepsOldRows(db: Db, closing: map<GenerationId, Closing>)
    requires OutboxMirrorsLogs(db) && closing.Keys <= db.generations.Keys
    requires forall g :: g in closing ==> |LogOf(db, g)| == db.generations[g].lastSequence
    ensures var n := Close(db, closing);
            && n.generations.Keys == db.generations.Keys
            && (forall id :: id in db.outbox ==> id in n.outbox && n.outbox[id] == db.outbox[id])
            && (forall id :: id in n.outbox && id !in db.outbox ==>
                  id.generation in closing && id.draw == |LogOf(db, id.generation)| + 1)
  {
    hide BuildRow, OutboxMirrorsLogs, CloseLogs, CloseTurns;
    forall id | id in ClosingIds(db.generations, closing) ensures id !in db.outbox {
      FreshRow(db, id.generation);
      assert id == EventId(id.generation, id.draw);
    }
  }

  lemma CloseKeepsOtherLogs(db: Db, closing: map<GenerationId, Closing>)
    requires closing.Keys <= db.generations.Keys
    ensures forall g :: g !in closing ==> LogOf(Close(db, closing), g) == LogOf(db, g)
  {
    hide CloseOutbox, CloseGenerations, CloseTurns;
  }

  lemma CloseExtendsAll(db: Db, n: Db, closing: map<GenerationId, Closing>)
    requires closing.Keys <= db.generations.Keys && n == Close(db, closing)
    requires forall g :: g in closing ==> |LogOf(db, g)| == db.generations[g].lastSequence
    ensures forall g :: g in closing ==> LogExtended(db, n, g) && |LogOf(n, g)| == |LogOf(db, g)| + 1
  {
    hide Close, LogExtended, LogOf;
    forall g | g in closing ensures LogExtended(db, n, g) && |LogOf(n, g)| == |LogOf(db, g)| + 1 {
      CloseExtends(db, closing, g);
      ExtendedLength(db, n, g);
    }
  }

  lemma CloseAppends(db: Db, closing: map<GenerationId, Closing>)
    requires OutboxMirrorsLogs(db) && closing.Keys <= db.generations.Keys
    requires forall g :: g in closing ==> |LogOf(db, g)| == db.generations[g].lastSequence
    ensures Appended(db, Close(db, closing), closing.Keys)
  {
    hide Close, LogExtended, OutboxMirrorsLogs, LogOf;
    CloseKeepsOldRows(db, closing);
    CloseKeepsOtherLogs(db, closing);
    CloseExtendsAll(db, Close(db, closing), closing);
  }

  lemma ExtendedLength(a: Db, b: Db, g: GenerationId)
    requires g in a.generations && LogExtended(a, b, g)
    ensures |LogOf(b, g)| == |LogOf(a, g)| + 1
  {
  }

  lemma CloseRequests(db: Db, closing: map<GenerationId, Closing>)
    requires OutboxMirrorsLogs(db) && closing.Keys <= db.generations.Keys
    requires forall g :: g in closing ==> |LogOf(db, g)| == db.generations[g].lastSequence
    ensures Requests(db, Close(db, closing))
  {
    hide Requests, OutboxMirrorsLogs, Appended, CloseLogs, CloseOutbox;
    CloseAppends(db, closing);
    AppendedRequests(db, Close(db, closing), closing.Keys);
  }

  // ---------- Every step ----------

  ghost predicate LogsNumbered(db: Db) {
    forall g :: g in db.generations ==> |LogOf(db, g)| == db.generations[g].lastSequence
  }

  lemma InvNumbers(db: Db)
    requires Inv(db)
    ensures LogsNumbered(db)
  {
    forall g | g in db.generations ensures |LogOf(db, g)| == db.generations[g].lastSequence {
      assert LogComplete(db, g);
    }
  }

  lemma FinalizeRequests(db: Db, g: GenerationId, writer: Option<Token>, status: TerminalStatus)
    requires OutboxMirrorsLogs(db) && LogsNumbered(db)
    ensures Requests(db, Finalize(db, g, writer, status).0)
  {
    hide OutboxMirrorsLogs, OutboxGrows, UsersKept, Close;
    var (n, r) := Finalize(db, g, writer, status);
    assert UsersKept(db, db) by { UsersStay(db, db); }
    SameRequests(db, db);
    if r.Finalized? {
      if status.Completed? {
        var promoted := Promote(db, g);
        UsersStay(db, promoted);
        SameRequests(db, promoted);
        CloseRequests(promoted, Completing(g));
        assert OutboxGrows(db, n) && UsersKept(db, n) by { RequestsAfterSame(db, promoted, n); }
      } else {
        CloseRequests(db, map[g := Closing(status, TerminalEvent(status))]);
      }
    }
  }

  lemma RequestsAfterSame(a: Db, b: Db, c: Db)
    requires b.outbox == a.outbox && UsersKept(a, b) && Requests(b, c)
    ensures Requests(a, c)
  {
  }

  lemma UsersStay(a: Db, b: Db)
    requires b.generations == a.generations
    ensures UsersKept(a, b)
  {
  }

  lemma FailStaleRequests(db: Db, aged: set<GenerationId>)
    requires OutboxMirrorsLogs(db) && LogsNumbered(db)
    ensures Requests(db, FailStale(db, aged))
  {
    hide Requests, OutboxMirrorsLogs, Close;
    CloseRequests(db, StaleClosing(db, aged));
  }

  lemma FailQueuedRequests(db: Db, g: GenerationId)
    requires OutboxMirrorsLogs(db) && LogsNumbered(db)
    ensures Requests(db, FailQueued(db, g))
  {
    hide Requests, OutboxMirrorsLogs, Close;
    SameRequests(db, db);
    if g in db.generations {
      CloseRequests(db, map[g := Closing(Failed, TerminalEvent(Failed))]);
    }
  }

  lemma PublishRequests(db: Db, g: GenerationId, t: Token, e: WorkerEvent)
    requires OutboxMirrorsLogs(db) && LogsNumbered(db)
    ensures Requests(db, Publish(db, g, t, e).0)
  {
    hide Requests, OutboxMirrorsLogs, Enqueue;
    SameRequests(db, db);
    if Owned(db, g, t) {
      EnqueueRequests(db, g, e);
    }
  }

  lemma CreateTurnRequests(db: Db, u: UserId, c: ConversationId, k: nat, h: nat, id: GenerationId, m: MessageId)
    requires OutboxMirrorsLogs(db)
    ensures Requests(db, CreateTurn(db, u, c, k, h, id, m).0)
  {
    hide Requests, OutboxMirrorsLogs;
    SameRequests(db, db);
    if CreateTurn(db, u, c, k, h, id, m).1.Created? {
      InsertRequests(db, Generation(u, c, m, k, h, Pending, None, 0), id);
    }
  }

  // The remaining transactions write neither logs nor outbox rows.
  predicate Silent(s: Step) {
    !s.CreateTurnStep? && !s.PublishStep? && !s.FinalizeStep? && !s.FailQueuedStep? && !s.FailStaleStep?
  }

  ghost predicate SameLogTables(a: Db, b: Db) {
    b.outbox == a.outbox && b.logs == a.logs && b.generations.Keys == a.generations.Keys && UsersKept(a, b)
  }

  lemma SetStatusKeepsLogTables(db: Db, g: GenerationId, status: Status, token: Option<Token>)
    requires g in db.generations
    ensures SameLogTables(db, SetStatus(db, g, status, token))
  {
  }

  lemma StatusesKeepLogTables(db: Db, g: GenerationId, t: Token, u: UserId)
    ensures SameLogTables(db, Claim(db, g, t).0) && SameLogTables(db, MarkRunning(db, g, t))
          && SameLogTables(db, Cancel(db, u, g).0)
  {
    hide SetStatus;
    if g in db.generations {
      SetStatusKeepsLogTables(db, g, Starting, Some(t));
      SetStatusKeepsLogTables(db, g, Running, Some(t));
      SetStatusKeepsLogTables(db, g, CancelRequested, db.generations[g].token);
    }
  }

  lemma BeginKeepsLogTables(db: Db, g: GenerationId, t: Token, ds: nat, q: string, ms: seq<Memory>, task: nat)
    ensures SameLogTables(db, Begin(db, g, t, ds, q, ms, task).0)
  {
    hide BeginState;
  }

  lemma SaveKeepsLogTables(db: Db, g: GenerationId, t: Token, expected: nat, state: AnalysisState)
    ensures SameLogTables(db, Save(db, g, t, expected, state).0)
  {
  }

  lemma ArtifactKeepsLogTables(db: Db, g: GenerationId, t: Token, id: ArtifactId, a: Artifact)
    ensures SameLogTables(db, WriteArtifact(db, g, t, id, a).0)
  {
  }

  lemma SilentKeepsLogTables(db: Db, s: Step)
    requires Silent(s)
    ensures SameLogTables(db, Apply(db, s))
  {
    hide Claim, MarkRunning, Cancel, Begin, Save, WriteArtifact;
    match s
    case NewConversationStep(c, u) =>
    case ClaimStep(id, t) => StatusesKeepLogTables(db, id, t, 0);
    case MarkRunningStep(id, t) => StatusesKeepLogTables(db, id, t, 0);
    case CancelStep(u, id) => StatusesKeepLogTables(db, id, 0, u);
    case BeginStep(id, t, ds, q, ms, task) => BeginKeepsLogTables(db, id, t, ds, q, ms, task);
    case SaveStep(id, t, expected, state) => SaveKeepsLogTables(db, id, t, expected, state);
    case ArtifactStep(id, t, aid, a) => ArtifactKeepsLogTables(db, id, t, aid, a);
  }

  lemma SilentRequests(db: Db, s: Step)
    requires OutboxMirrorsLogs(db) && Silent(s)
    ensures Requests(db, Apply(db, s))
  {
    SilentKeepsLogTables(db, s);
    hide Requests, OutboxMirrorsLogs, Apply, UsersKept;
    SameRequests(db, Apply(db, s));
  }

  lemma ApplyRequests(db: Db, s: Step)
    requires Inv(db) && OutboxMirrorsLogs(db)
    ensures Requests(db, Apply(db, s))
  {
    hide Inv, Requests, OutboxMirrorsLogs, LogsNumbered, CreateTurn, Publish, Finalize, FailQueued, FailStale;
    InvNumbers(db);
    if Silent(s) {
      SilentRequests(db, s);
    } else {
      match s
      case CreateTurnStep(u, c, k, h, id, m) => CreateTurnRequests(db, u, c, k, h, id, m);
      case PublishStep(id, t, e) => PublishRequests(db, id, t, e);
      case FinalizeStep(id, w, status) => FinalizeRequests(db, id, w, status);
      case FailQueuedStep(id) => FailQueuedRequests(db, id);
      case FailStaleStep(aged) => FailStaleRequests(db, aged);
    }
  }

  // ---------- The relay's invariant under transactions ----------

  lemma SettledStaysSettled(a: Db, b: Db, id: EventId)
    requires OutboxGrows(a, b) && OutboxMirrorsLogs(a) && OutboxMirrorsLogs(b) && id in a.outbox
          && PriorsSettled(a.outbox, id)
    ensures PriorsSettled(b.outbox, id)
  {
    forall prior | prior in b.outbox && prior.generation == id.generation && prior.draw < id.draw
      ensures !Outstanding(b.outbox[prior])
    {
      assert RowMirrors(a, id) && RowMirrors(b, prior);
      assert prior in a.outbox;
    }
  }

  lemma GrowthKeepsJobs(a: Delivery, b: Delivery)
    requires OutboxGrows(a.db, b.db) && OutboxMirrorsLogs(a.db) && OutboxMirrorsLogs(b.db) && b.jobs == a.jobs
          && JobsInOrder(a)
    ensures JobsInOrder(b)
  {
    forall j | j in b.jobs ensures j.1 in b.db.outbox && PriorsSettled(b.db.outbox, j.1) {
      SettledStaysSettled(a.db, b.db, j.1);
    }
  }

  lemma GrowthKeepsSent(a: Delivery, b: Delivery)
    requires OutboxGrows(a.db, b.db) && b == a.(db := b.db) && SentIsInStream(a) && OnlyRefusedAreDead(a.db)
    ensures SentIsInStream(b) && OnlyRefusedAreDead(b.db)
  {
    hide PassesPublishChecks;
  }

  lemma GrowthKeepsPrefixes(a: Db, b: Db, r: Redis)
    requires a.logs.Keys == a.generations.Keys && LogsGrow(a, b) && StreamsArePrefixes(a, r)
    ensures StreamsArePrefixes(b, r)
  {
    forall g ensures Sequence(r, g) <= |LogOf(b, g)| && StreamOf(r, g) == LogOf(b, g)[..Sequence(r, g)] {
      assert Sequence(r, g) <= |LogOf(a, g)|;
      if g in a.generations {
        assert LogOf(a, g) <= LogOf(b, g);
      }
    }
  }

  lemma {:induction false} EventsOfAbsent(s: seq<Payload>, g: GenerationId)
    requires forall p :: p in s ==> p.generation != g
    ensures EventsOf(s, g) == []
  {
    if s != [] {
      EventsOfAbsent(s[..|s| - 1], g);
    }
  }

  lemma GrowthKeepsInterleaving(a: Db, b: Db, r: Redis)
    requires a.logs.Keys == a.generations.Keys && UsersKept(a, b) && StreamsArePrefixes(a, r)
          && UserStreamsInterleave(a, r)
    ensures UserStreamsInterleave(b, r)
  {
    forall g | g in b.generations
      ensures EventsOf(UserStreamOf(r, b.generations[g].user), g) == StreamOf(r, g)
    {
      if g in a.generations {
        assert EventsOf(UserStreamOf(r, a.generations[g].user), g) == StreamOf(r, g);
      } else {
        assert Sequence(r, g) <= |LogOf(a, g)| && StreamOf(r, g) == LogOf(a, g)[..Sequence(r, g)];
        var s := UserStreamOf(r, b.generations[g].user);
        forall p | p in s ensures p.generation != g {
          var i :| 0 <= i < |s| && s[i] == p;
        }
        EventsOfAbsent(s, g);
      }
    }
  }

  lemma TransactionKeepsRelayInv(d: Delivery, s: Step)
    requires Inv(d.db) && RelayInv(d)
    ensures RelayInv(d.(db := Apply(d.db, s)))
  {
    hide OutboxMirrorsLogs, StreamsArePrefixes, SentIsInStream, JobsInOrder, OnlyRefusedAreDead,
        UserStreamsInterleave, Apply, Evolves;
    var n := d.(db := Apply(d.db, s));
    ApplyRequests(d.db, s);
    ApplyEvolves(d.db, s);
    TableKeys(d.db);
    EvolvedLogs(d.db, n.db);
    hide *;
    RequestsParts(d.db, n.db);
    GrowthKeepsJobs(d, n);
    GrowthKeepsSent(d, n);
    GrowthKeepsPrefixes(d.db, n.db, d.redis);
    GrowthKeepsInterleaving(d.db, n.db, d.redis);
    RelayInvOf(n);
  }

  lemma TableKeys(db: Db)
    requires Inv(db)
    ensures db.logs.Keys == db.generations.Keys
  {
  }

  lemma EvolvedLogs(a: Db, b: Db)
    requires Evolves(a, b)
    ensures LogsGrow(a, b)
  {
  }

  lemma RequestsParts(a: Db, b: Db)
    requires Requests(a, b)
    ensures OutboxGrows(a, b) && UsersKept(a, b) && OutboxMirrorsLogs(b)
  {
  }

  lemma RelayInvOf(d: Delivery)
    requires OutboxMirrorsLogs(d.db) && StreamsArePrefixes(d.db, d.redis) && SentIsInStream(d) && JobsInOrder(d)
    requires OnlyRefusedAreDead(d.db) && UserStreamsInterleave(d.db, d.redis)
    ensures RelayInv(d)
  {
    hide OutboxMirrorsLogs, StreamsArePrefixes, SentIsInStream, JobsInOrder, OnlyRefusedAreDead, UserStreamsInterleave;
  }

  lemma RelayInvParts(d: Delivery)
    requires RelayInv(d)
    ensures OutboxMirrorsLogs(d.db) && StreamsArePrefixes(d.db, d.redis) && SentIsInStream(d) && JobsInOrder(d)
    ensures OnlyRefusedAreDead(d.db) && UserStreamsInterleave(d.db, d.redis)
  {
    hide OutboxMirrorsLogs, StreamsArePrefixes, SentIsInStream, JobsInOrder, OnlyRefusedAreDead, UserStreamsInterleave;
  }

  // ---------- Runs ----------

  datatype Action = Transaction(step: Step) | Relaying(relayStep: RelayStep)

  function Start(userLimit: nat): Delivery {
    Delivery(Empty(userLimit), Redis(map[], map[], map[], {}), map[])
  }

  function Act(d: Delivery, a: Action): Delivery {
    match a
    case Transaction(s) => d.(db := Apply(d.db, s))
    case Relaying(s) => Deliver(d, s)
  }

  function ActAll(d: Delivery, actions: seq<Action>): Delivery {
    if actions == [] then d else Act(ActAll(d, actions[..|actions| - 1]), actions[|actions| - 1])
  }

  lemma StartInv(userLimit: nat)
    ensures Inv(Start(userLimit).db) && RelayInv(Start(userLimit))
  {
    EmptyInv(userLimit);
  }

  predicate SameTables(a: Db, b: Db) {
    b == a.(outbox := b.outbox)
  }

  lemma SendKeepsTables(d: Delivery, token: Token, id: EventId, replyLost: bool)
    ensures SameTables(d.db, Send(d, token, id, replyLost).db)
  {
    hide PublishScript, PassesPublishChecks, RecordFailure;
    FailKeepsTables(d, token, id, true);
    if id in d.db.outbox {
      var row := d.db.outbox[id];
      FailKeepsTables(d.(redis := PublishScript(d.redis, row.envelope.user, row.aggregate, id, row.envelope.event)),
          token, id, false);
    }
    FailKeepsTables(d, token, id, false);
  }

  lemma DeliverKeepsTables(d: Delivery, s: RelayStep)
    ensures SameTables(d.db, Deliver(d, s).db)
  {
    hide Send, Mark, MayLock, RecordFailure;
    match s
    case LockStep(t, chosen, expired) =>
    case SendStep(t, id, lost) => SendKeepsTables(d, t, id, lost);
    case MarkStep(t, id) => MarkKeepsTables(d, t, id);
    case FailStep(t, id) => FailKeepsTables(d, t, id, false);
    case CrashStep(t) =>
  }

  lemma MarkKeepsTables(d: Delivery, token: Token, id: EventId)
    ensures SameTables(d.db, Mark(d, token, id).db)
  {
  }

  lemma FailKeepsTables(d: Delivery, token: Token, id: EventId, refused: bool)
    ensures SameTables(d.db, RecordFailure(d, token, id, refused).db)
  {
  }

  lemma OutboxIsUnrelated(a: Db, b: Db)
    requires Inv(a) && b == a.(outbox := b.outbox)
    ensures Inv(b)
  {
    UnrelatedKeepsInv(a, b);
  }

  lemma ActKeepsInv(d: Delivery, a: Action)
    requires Inv(d.db) && RelayInv(d)
    ensures Inv(Act(d, a).db) && RelayInv(Act(d, a))
  {
    hide Inv, RelayInv, Apply, Deliver;
    match a
    case Transaction(s) =>
      ApplyKeepsInv(d.db, s);
      TransactionKeepsRelayInv(d, s);
    case Relaying(s) =>
      DeliverKeepsInv(d, s);
      DeliverKeepsTables(d, s);
      OutboxIsUnrelated(d.db, Deliver(d, s).db);
  }

  lemma {:induction false} ActAllKeepsInv(d: Delivery, actions: seq<Action>)
    requires Inv(d.db) && RelayInv(d)
    ensures Inv(ActAll(d, actions).db) && RelayInv(ActAll(d, actions))
  {
    hide Inv, RelayInv, Act;
    if actions != [] {
      ActAllKeepsInv(d, actions[..|actions| - 1]);
      ActKeepsInv(ActAll(d, actions[..|actions| - 1]), actions[|actions| - 1]);
    }
  }

  // ---------- What a lock protects ----------

  predicate Locks(a: Action, token: Token) {
    a.Relaying? && a.relayStep.LockStep? && a.relayStep.token == token
  }

  // If a row bears the lock after a step, it did so before, with the same attempts.
  predicate LockKept(a: map<EventId, OutboxRow>, b: map<EventId, OutboxRow>, id: EventId, token: Token)
    requires id in a
  {
    && id in b
    && (b[id].lock == Some(token) ==> a[id].lock == Some(token) && b[id].attempts == a[id].attempts)
  }

  lemma FailureKeepsLock(d: Delivery, t: Token, e: EventId, refused: bool, id: EventId, token: Token)
    requires id in d.db.outbox
    ensures LockKept(d.db.outbox, RecordFailure(d, t, e, refused).db.outbox, id, token)
  {
  }

  lemma SendKeepsLock(d: Delivery, t: Token, e: EventId, lost: bool, id: EventId, token: Token)
    requires id in d.db.outbox
    ensures LockKept(d.db.outbox, Send(d, t, e, lost).db.outbox, id, token)
  {
    hide PublishScript, PassesPublishChecks, RecordFailure;
    FailureKeepsLock(d, t, e, true, id, token);
    FailureKeepsLock(d, t, e, false, id, token);
    if e in d.db.outbox {
      var row := d.db.outbox[e];
      FailureKeepsLock(d.(redis := PublishScript(d.redis, row.envelope.user, row.aggregate, e, row.envelope.event)),
          t, e, false, id, token);
    }
  }

  lemma ActKeepsLock(d: Delivery, a: Action, id: EventId, token: Token)
    requires Inv(d.db) && RelayInv(d) && id in d.db.outbox && !Locks(a, token)
    ensures LockKept(d.db.outbox, Act(d, a).db.outbox, id, token)
  {
    hide Inv, RelayInv, Apply, Send, RecordFailure, MayLock, UsersKept, OutboxMirrorsLogs;
    match a
    case Transaction(s) =>
      RelayInvParts(d);
      ApplyRequests(d.db, s);
    case Relaying(s) =>
      match s
      case SendStep(t, e, lost) => SendKeepsLock(d, t, e, lost, id, token);
      case FailStep(t, e) => FailureKeepsLock(d, t, e, false, id, token);
      case _ =>
  }

  // As long as a row bears the lock that a relay took, its attempts are those that the relay read with it: adding one
  // to the row, or to what was read, comes to the same.
  lemma {:induction false} LockedAttemptsStay(d: Delivery, actions: seq<Action>, id: EventId, token: Token)
    requires Inv(d.db) && RelayInv(d) && id in d.db.outbox && forall a :: a in actions ==> !Locks(a, token)
    ensures LockKept(d.db.outbox, ActAll(d, actions).db.outbox, id, token)
  {
    hide Inv, RelayInv, Act, Locks;
    if actions != [] {
      var front := actions[..|actions| - 1];
      LockedAttemptsStay(d, front, id, token);
      ActAllKeepsInv(d, front);
      ActKeepsLock(ActAll(d, front), actions[|actions| - 1], id, token);
    }
  }

  // ---------- What a reader of a stream may rely on ----------

  lemma ReachableInv(userLimit: nat, actions: seq<Action>)
    ensures Inv(ActAll(Start(userLimit), actions).db) && RelayInv(ActAll(Start(userLimit), actions))
  {
    StartInv(userLimit);
    ActAllKeepsInv(Start(userLimit), actions);
  }

  // However relays interleave, repeat and die, a generation's stream is its log's prefix 1..k: no gap, no repetition,
  // no reordering.
  lemma StreamIsLogPrefix(userLimit: nat, actions: seq<Action>, g: GenerationId)
    ensures var d := ActAll(Start(userLimit), actions);
            && StreamOf(d.redis, g) <= LogOf(d.db, g)
            && Sequence(d.redis, g) == |StreamOf(d.redis, g)|
            && forall i :: 0 <= i < |StreamOf(d.redis, g)| ==>
                 StreamOf(d.redis, g)[i].sequence == i + 1 && StreamOf(d.redis, g)[i].eventId == EventId(g, i + 1)
  {
    ReachableInv(userLimit, actions);
    var d := ActAll(Start(userLimit), actions);
    hide ActAll;
    RelayInvParts(d);
    TableKeys(d.db);
    StreamIsPrefix(d, g);
  }

  lemma StreamIsPrefix(d: Delivery, g: GenerationId)
    requires OutboxMirrorsLogs(d.db) && StreamsArePrefixes(d.db, d.redis)
          && (g !in d.db.generations ==> LogOf(d.db, g) == [])
    ensures StreamOf(d.redis, g) <= LogOf(d.db, g) && Sequence(d.redis, g) == |StreamOf(d.redis, g)|
    ensures forall i :: 0 <= i < |StreamOf(d.redis, g)| ==>
              StreamOf(d.redis, g)[i].sequence == i + 1 && StreamOf(d.redis, g)[i].eventId == EventId(g, i + 1)
  {
    assert Sequence(d.redis, g) <= |LogOf(d.db, g)| && StreamOf(d.redis, g) == LogOf(d.db, g)[..Sequence(d.redis, g)];
    forall i | 0 <= i < |StreamOf(d.redis, g)|
      ensures StreamOf(d.redis, g)[i].sequence == i + 1 && StreamOf(d.redis, g)[i].eventId == EventId(g, i + 1)
    {
      assert RowMirrors(d.db, EventId(g, i + 1));
    }
  }

  // A row marked published is in the stream, at the place its number says.
  lemma PublishedIsInStream(userLimit: nat, actions: seq<Action>, id: EventId)
    ensures var d := ActAll(Start(userLimit), actions);
            id in d.db.outbox && d.db.outbox[id].published ==>
              1 <= id.draw <= |StreamOf(d.redis, id.generation)|
                  && StreamOf(d.redis, id.generation)[id.draw - 1].eventId == id
  {
    ReachableInv(userLimit, actions);
    var d := ActAll(Start(userLimit), actions);
    StreamIsLogPrefix(userLimit, actions, id.generation);
    hide ActAll;
    RelayInvParts(d);
    if id in d.db.outbox && d.db.outbox[id].published {
      assert InStream(d.redis, id);
    }
  }

  ghost predicate Settled(db: Db, g: GenerationId) {
    forall id :: id in db.outbox && id.generation == g ==> !Outstanding(db.outbox[id])
  }

  // Once no row of a generation is outstanding, its stream is the whole log; only numbers beyond the safe integers
  // could have been refused on the way.
  lemma SettledStreamIsTheLog(d: Delivery, g: GenerationId)
    requires RelayInv(d) && Settled(d.db, g) && g in d.db.generations
    requires IsSafeInteger(d.db.generations[g].user) && |LogOf(d.db, g)| <= MAX_SAFE_INTEGER
    ensures StreamOf(d.redis, g) == LogOf(d.db, g)
  {
    hide UserStreamsInterleave, JobsInOrder, PassesPublishChecks;
    assert Sequence(d.redis, g) <= |LogOf(d.db, g)| && StreamOf(d.redis, g) == LogOf(d.db, g)[..Sequence(d.redis, g)];
    if LogOf(d.db, g) != [] {
      var last := EventId(g, |LogOf(d.db, g)|);
      assert RowMirrors(d.db, last);
      ChecksPassExactlyWhenSafe(d.db, last);
      assert InStream(d.redis, last);
    }
  }

  lemma DeliverKeepsStreams(d: Delivery, s: RelayStep, g: GenerationId)
    ensures StreamOf(d.redis, g) <= StreamOf(Deliver(d, s).redis, g)
  {
    hide PassesPublishChecks, MayLock;
  }

  // ---------- No stream gets stuck ----------

  function Deliveries(d: Delivery, steps: seq<RelayStep>): Delivery
    decreases |steps|
  {
    if steps == [] then d else Deliveries(Deliver(d, steps[0]), steps[1..])
  }

  function OneDispatch(token: Token, id: EventId): seq<RelayStep> {
    [LockStep(token, {id}, {id}), SendStep(token, id, false), MarkStep(token, id)]
  }

  // The row after a dispatch that nothing disturbs.
  predicate SettledBy(before: OutboxRow, after: OutboxRow, id: EventId) {
    && after.envelope == before.envelope && after.aggregate == before.aggregate
    && if PassesPublishChecks(id, before) then after.published else after.deadLettered
  }

  lemma DispatchUnfolds(d: Delivery, token: Token, id: EventId)
    ensures Deliveries(d, OneDispatch(token, id)) == Mark(Send(Lock(d, token, {id}, {id}), token, id, false), token, id)
  {
    hide Lock, Send, Mark;
    var steps := OneDispatch(token, id);
    var a := Lock(d, token, {id}, {id});
    var b := Send(a, token, id, false);
    assert steps[1..] == [SendStep(token, id, false), MarkStep(token, id)];
    assert steps[1..][1..] == [MarkStep(token, id)];
    assert Deliveries(b, [MarkStep(token, id)]) == Mark(b, token, id) by {
      assert Deliveries(Mark(b, token, id), [MarkStep(token, id)][1..]) == Mark(b, token, id);
    }
  }

  lemma LockTakes(d: Delivery, token: Token, id: EventId)
    requires Candidate(d.db.outbox, id, {id})
    ensures var n := Lock(d, token, {id}, {id});
            && RowsProgress(d.db, n.db) && (token, id) in n.jobs && n.jobs[(token, id)].Locked?
            && n.db.outbox[id] == d.db.outbox[id].(lock := Some(token))
            && Outstanding(n.db.outbox[id])
  {
    hide PassesPublishChecks;
    assert MayLock(d.db.outbox, {id}, {id});
    LockProgress(d, token, {id}, {id});
    assert (token, id) in Batch(token, {id});
  }

  lemma SendPasses(d: Delivery, token: Token, id: EventId)
    requires (token, id) in d.jobs && d.jobs[(token, id)].Locked? && id in d.db.outbox
          && PassesPublishChecks(id, d.db.outbox[id])
    ensures var n := Send(d, token, id, false);
            n.db == d.db && n.jobs == d.jobs[(token, id) := Sent]
  {
    hide PassesPublishChecks, PublishScript;
  }

  lemma RefusalSettles(d: Delivery, token: Token, id: EventId)
    requires (token, id) in d.jobs && d.jobs[(token, id)].Locked? && id in d.db.outbox
          && !PassesPublishChecks(id, d.db.outbox[id])
    requires d.db.outbox[id].lock == Some(token)
    ensures var n := Mark(Send(d, token, id, false), token, id);
            RowsProgress(d.db, n.db) && SettledBy(d.db.outbox[id], n.db.outbox[id], id)
  {
    hide PassesPublishChecks, PublishScript;
    assert (token, id) !in Send(d, token, id, false).jobs;
  }

  lemma MarkSettles(d: Delivery, token: Token, id: EventId)
    requires (token, id) in d.jobs && d.jobs[(token, id)].Sent? && id in d.db.outbox
          && PassesPublishChecks(id, d.db.outbox[id])
    requires d.db.outbox[id].lock == Some(token)
    ensures var n := Mark(d, token, id);
            RowsProgress(d.db, n.db) && SettledBy(d.db.outbox[id], n.db.outbox[id], id)
  {
    hide PassesPublishChecks;
  }

  // Whatever earlier relays left behind, locking, sending and marking the oldest outstanding row settles it.
  lemma OneDispatchSettles(d: Delivery, token: Token, id: EventId)
    requires Candidate(d.db.outbox, id, {id})
    ensures var n := Deliveries(d, OneDispatch(token, id));
            id in d.db.outbox && RowsProgress(d.db, n.db) && SettledBy(d.db.outbox[id], n.db.outbox[id], id)
  {
    DispatchUnfolds(d, token, id);
    LockTakes(d, token, id);
    var locked := Lock(d, token, {id}, {id});
    var row := d.db.outbox[id];
    assert PassesPublishChecks(id, locked.db.outbox[id]) == PassesPublishChecks(id, row);
    hide PassesPublishChecks, Lock, Send, Mark, Candidate, Deliveries;
    if PassesPublishChecks(id, row) {
      SendPasses(locked, token, id);
      MarkSettles(Send(locked, token, id, false), token, id);
    } else {
      RefusalSettles(locked, token, id);
    }
    RowsProgressTransitive(d.db, locked.db, Mark(Send(locked, token, id, false), token, id).db);
  }

  lemma RowsProgressTransitive(a: Db, b: Db, c: Db)
    requires RowsProgress(a, b) && RowsProgress(b, c)
    ensures RowsProgress(a, c)
  {
  }

  lemma {:induction false} DeliveriesKeepInv(d: Delivery, steps: seq<RelayStep>)
    requires RelayInv(d)
    ensures RelayInv(Deliveries(d, steps))
    decreases |steps|
  {
    hide RelayInv, Deliver;
    if steps != [] {
      DeliverKeepsInv(d, steps[0]);
      DeliveriesKeepInv(Deliver(d, steps[0]), steps[1..]);
    }
  }

  lemma {:induction false} DeliveriesConcat(d: Delivery, first: seq<RelayStep>, second: seq<RelayStep>)
    ensures Deliveries(d, first + second) == Deliveries(Deliveries(d, first), second)
    decreases |first|
  {
    hide Deliver;
    if first == [] {
      assert first + second == second;
    } else {
      assert (first + second)[1..] == first[1..] + second;
      DeliveriesConcat(Deliver(d, first[0]), first[1..], second);
    }
  }

  ghost predicate SettledUpTo(db: Db, g: GenerationId, k: nat) {
    forall id :: id in db.outbox && id.generation == g && id.draw <= k ==> !Outstanding(db.outbox[id])
  }

  lemma NextIsCandidate(db: Db, g: GenerationId, k: nat)
    requires OutboxMirrorsLogs(db) && SettledUpTo(db, g, k) && EventId(g, k + 1) in db.outbox
          && Outstanding(db.outbox[EventId(g, k + 1)])
    ensures Candidate(db.outbox, EventId(g, k + 1), {EventId(g, k + 1)})
  {
    var id := EventId(g, k + 1);
    assert RowMirrors(db, id);
    forall prior | prior in db.outbox && db.outbox[prior].aggregate == g && Outstanding(db.outbox[prior])
      ensures db.outbox[id].envelope.sequence <= db.outbox[prior].envelope.sequence
    {
      assert RowMirrors(db, prior);
    }
  }

  lemma SettledOneMore(a: Db, b: Db, g: GenerationId, k: nat)
    requires SettledUpTo(a, g, k) && RowsProgress(a, b)
    requires EventId(g, k + 1) in b.outbox ==> !Outstanding(b.outbox[EventId(g, k + 1)])
    ensures SettledUpTo(b, g, k + 1)
  {
    forall id | id in b.outbox && id.generation == g && id.draw <= k + 1 ensures !Outstanding(b.outbox[id]) {
      assert id == EventId(g, id.draw);
    }
  }

  // From any state, however many rows wait and whoever holds their locks, some continuation of relay steps alone
  // settles every row of a generation.
  lemma {:induction false} DrainFrom(d: Delivery, g: GenerationId, token: Token, k: nat) returns (steps: seq<RelayStep>)
    requires RelayInv(d) && g in d.db.generations && SettledUpTo(d.db, g, k) && k <= |LogOf(d.db, g)|
    ensures RowsProgress(d.db, Deliveries(d, steps).db) && Settled(Deliveries(d, steps).db, g)
    decreases |LogOf(d.db, g)| - k
  {
    hide StreamsArePrefixes, SentIsInStream, JobsInOrder, OnlyRefusedAreDead, UserStreamsInterleave, Candidate,
        Deliver, PassesPublishChecks;
    var id := EventId(g, k + 1);
    if k == |LogOf(d.db, g)| {
      steps := [];
    } else if !Outstanding(d.db.outbox[id]) {
      SettledOneMore(d.db, d.db, g, k);
      steps := DrainFrom(d, g, token, k + 1);
    } else {
      NextIsCandidate(d.db, g, k);
      OneDispatchSettles(d, token, id);
      var first := OneDispatch(token, id);
      var n := Deliveries(d, first);
      hide OneDispatch, Deliveries;
      DeliveriesKeepInv(d, first);
      assert LogOf(n.db, g) == LogOf(d.db, g);
      SettledOneMore(d.db, n.db, g, k);
      var rest := DrainFrom(n, g, token, k + 1);
      DeliveriesConcat(d, first, rest);
      RowsProgressTransitive(d.db, n.db, Deliveries(n, rest).db);
      steps := first + rest;
    }
  }

  // No reachable state is stuck: a generation's whole log can still reach its stream.
  lemma EveryLogCanBeDelivered(userLimit: nat, actions: seq<Action>, g: GenerationId, token: Token)
    requires var db := ActAll(Start(userLimit), actions).db;
             g in db.generations && IsSafeInteger(db.generations[g].user) && |LogOf(db, g)| <= MAX_SAFE_INTEGER
    ensures var d := ActAll(Start(userLimit), actions);
            exists steps :: StreamOf(Deliveries(d, steps).redis, g) == LogOf(d.db, g)
  {
    ReachableInv(userLimit, actions);
    var d := ActAll(Start(userLimit), actions);
    hide ActAll, RelayInv, Inv;
    NoneBelowOne(d, g);
    var steps := DrainFrom(d, g, token, 0);
    DeliveriesKeepInv(d, steps);
    var n := Deliveries(d, steps);
    hide Deliveries;
    assert LogOf(n.db, g) == LogOf(d.db, g);
    SettledStreamIsTheLog(n, g);
  }

  lemma NoneBelowOne(d: Delivery, g: GenerationId)
    requires RelayInv(d)
    ensures SettledUpTo(d.db, g, 0)
  {
    hide StreamsArePrefixes, SentIsInStream, JobsInOrder, OnlyRefusedAreDead, UserStreamsInterleave;
  }
}
