/**
 * The workers beside the rest of the system: a worker claims a generation, emits events through its text buffer, and
 * writes what the buffer passes on one transaction after the other, until its run is over and everything is written
 * (apps/worker/src/chat/generation.service.ts, apps/worker/src/chat/chat.service.ts). This joins what a worker emits to
 * what a browser shows, without supposing anything about the timers, the writes or the deliveries in between.
 */
module Workers {
  import opened Common
  import opened Events
  import opened AnalysisStates
  import opened Lifecycle
  import opened LifecycleHistory
  import opened Relay
  import opened DeliveryRuns
  import opened Client
  import opened ClientProofs
  import opened EndToEnd
  import opened TextEvents
  import opened Reducers
  import opened WorkerToBrowser

  // `queue` is what the buffer has passed on and is not written yet. A write that fails breaks the queue: the events
  // behind it are never written.
  datatype Worker = Worker(
    token: Token,
    emitted: seq<WorkerEvent>,
    pending: Option<WorkerEvent>,
    queue: seq<WorkerEvent>,
    ended: bool,
    broken: bool)

  // `moves` is the history of the world.
  datatype Site = Site(world: World, moves: seq<Move>, workers: map<GenerationId, Worker>)

  // A transaction may fail before it is committed, or its reply may be lost after that.
  datatype Fault = NoFault | NotCommitted | ReplyLost

  datatype SiteStep =
    | OutsideStep(move: Move)
    | ClaimedStep(id: GenerationId, token: Token, lost: bool)
    | EmittedStep(id: GenerationId, event: WorkerEvent)
    | TimerStep(id: GenerationId)
    | RunOverStep(id: GenerationId)
    | WrittenStep(id: GenerationId, fault: Fault)
    | CompletedStep(id: GenerationId)

  // ---------- One worker ----------

  // The next event is put into the buffer, unless it is a hidden table.
  function AfterEmit(k: Worker, e: WorkerEvent): Worker {
    var n := k.(emitted := k.emitted + [e]);
    if IsSent(e) then n.(queue := k.queue + PassedOn(k.pending, e), pending := HeldAfter(k.pending, e)) else n
  }

  function Flushed(k: Worker): Worker {
    k.(queue := k.queue + Waiting(k.pending), pending := None)
  }

  // The next event in line is known to be written, or nothing more will be.
  function AfterWrite(k: Worker, done: bool): Worker
    requires k.queue != []
  {
    if done then k.(queue := k.queue[1..]) else k.(broken := true)
  }

  // A worker whose run is not over opens a log only when no log of that title is open.
  predicate MayEmit(k: Worker, e: WorkerEvent) {
    !k.ended && Emittable(EmitAll([], k.emitted), e)
  }

  predicate Drained(k: Worker) {
    k.ended && k.queue == [] && !k.broken
  }

  // What is written, queued and held joins to what was sent.
  ghost predicate WorkerSound(k: Worker, published: seq<Event>) {
    && OnlyText(k.pending) && (k.ended ==> k.pending.None?) && AllEmittable(k.emitted)
    && (!k.broken ==> Merge(published + k.queue + Waiting(k.pending)) == Merge(SentOf(k.emitted)))
  }

  lemma OneMoreEmittable(emitted: seq<Event>, e: Event)
    requires AllEmittable(emitted) && Emittable(EmitAll([], emitted), e)
    ensures AllEmittable(emitted + [e])
    ensures SentOf(emitted + [e]) == SentOf(emitted) + if IsSent(e) then [e] else []
  {
    hide Emittable, EmitAll;
    var all := emitted + [e];
    assert all[..|emitted|] == emitted;
    forall i | 0 <= i < |all| ensures Emittable(EmitAll([], all[..i]), all[i]) {
      if i < |emitted| {
        assert all[..i] == emitted[..i];
      }
    }
  }

  lemma EmitKeepsWorker(k: Worker, e: WorkerEvent, published: seq<Event>)
    requires WorkerSound(k, published) && MayEmit(k, e)
    ensures WorkerSound(AfterEmit(k, e), published)
  {
    hide Merge, SentOf, AllEmittable, Emittable, EmitAll, IsSent, PassedOn, HeldAfter;
    OneMoreEmittable(k.emitted, e);
    assert SentOf(k.emitted) + [] == SentOf(k.emitted);
    if IsSent(e) && !k.broken {
      SendJoins(published + k.queue, k.pending, SentOf(k.emitted), e);
      assert published + (k.queue + PassedOn(k.pending, e)) == published + k.queue + PassedOn(k.pending, e);
    } else if IsSent(e) {
      HeldIsText(k.pending, e);
    }
  }

  lemma HeldIsText(pending: Option<WorkerEvent>, e: WorkerEvent)
    requires OnlyText(pending)
    ensures OnlyText(HeldAfter(pending, e))
  {
  }

  lemma FlushKeepsWorker(k: Worker, published: seq<Event>, over: bool)
    requires WorkerSound(k, published)
    ensures WorkerSound(Flushed(k).(ended := k.ended || over), published)
  {
    hide Merge, SentOf, AllEmittable;
    assert published + (k.queue + Waiting(k.pending)) + [] == published + k.queue + Waiting(k.pending);
  }

  lemma WriteKeepsWorker(k: Worker, published: seq<Event>, written: bool, heard: bool)
    requires WorkerSound(k, published) && k.queue != []
    ensures WorkerSound(AfterWrite(k, written && heard), published + if written then [k.queue[0]] else [])
  {
    hide Merge, SentOf, AllEmittable, Waiting;
    assert published + [k.queue[0]] + k.queue[1..] == published + k.queue;
  }

  // ---------- The site ----------

  function Transact(s: Step): Move {
    Backend(Transaction(s))
  }

  function After(s: Site, m: Move): Site {
    s.(world := Next(s.world, m), moves := s.moves + [m])
  }

  function Put(s: Site, g: GenerationId, k: Worker): Site {
    s.(workers := s.workers[g := k])
  }

  // Only workers claim, publish and complete.
  predicate ByWorkers(m: Move) {
    && m.Backend? && m.action.Transaction?
    && var s := m.action.step;
       s.ClaimStep? || s.PublishStep? || (s.FinalizeStep? && s.status.Completed?)
  }

  function Write(s: Site, g: GenerationId, fault: Fault): Site
    requires g in s.workers && s.workers[g].queue != []
  {
    var k := s.workers[g];
    if fault.NotCommitted? then Put(s, g, AfterWrite(k, false))
    else
      var written := Publish(s.world.delivery.db, g, k.token, k.queue[0]).1;
      Put(After(s, Transact(PublishStep(g, k.token, k.queue[0]))), g, AfterWrite(k, written && fault.NoFault?))
  }

  function SiteNext(s: Site, step: SiteStep): Site {
    match step
    case OutsideStep(m) => if ByWorkers(m) then s else After(s, m)
    case ClaimedStep(g, t, lost) =>
      var n := After(s, Transact(ClaimStep(g, t)));
      if Claim(s.world.delivery.db, g, t).1 && !lost then Put(n, g, Worker(t, [], None, [], false, false)) else n
    case EmittedStep(g, e) =>
      if g in s.workers && MayEmit(s.workers[g], e) then Put(s, g, AfterEmit(s.workers[g], e)) else s
    case TimerStep(g) => if g in s.workers then Put(s, g, Flushed(s.workers[g])) else s
    case RunOverStep(g) => if g in s.workers then Put(s, g, Flushed(s.workers[g]).(ended := true)) else s
    case WrittenStep(g, fault) =>
      if g in s.workers && s.workers[g].queue != [] && !s.workers[g].broken then Write(s, g, fault) else s
    case CompletedStep(g) =>
      if g in s.workers && Drained(s.workers[g])
      then After(s, Transact(FinalizeStep(g, Some(s.workers[g].token), Completed)))
      else s
  }

  function SiteAfter(s: Site, steps: seq<SiteStep>): Site {
    if steps == [] then s else SiteNext(SiteAfter(s, steps[..|steps| - 1]), steps[|steps| - 1])
  }

  function StartSite(userLimit: nat, user: UserId, loaded: set<ConversationId>): Site {
    Site(StartWorld(userLimit, user, loaded), [], map[])
  }

  predicate Started(db: Db, g: GenerationId) {
    g in db.generations && !db.generations[g].status.Pending?
  }

  predicate IsCompleted(db: Db, g: GenerationId) {
    g in db.generations && db.generations[g].status.Completed?
  }

  // Without a worker nothing was published; a completed generation's worker has written all it had.
  ghost predicate SiteSound(start: World, s: Site, g: GenerationId) {
    var db, published := s.world.delivery.db, Published(start, s.moves, g);
    && s.world == Reach(start, s.moves)
    && (if g in s.workers then Started(db, g) && WorkerSound(s.workers[g], published) else published == [])
    && (IsCompleted(db, g) ==> g in s.workers && Drained(s.workers[g]))
  }

  // ---------- One move ----------

  lemma CloseCompletes(db: Db, closing: map<GenerationId, Closing>, g: GenerationId)
    requires closing.Keys <= db.generations.Keys && IsCompleted(Close(db, closing), g)
    ensures IsCompleted(db, g) || (g in closing && closing[g].status.Completed?)
  {
    hide CloseTurns, CloseLogs, CloseOutbox;
  }

  lemma FinalizeCompletes(db: Db, id: GenerationId, writer: Option<Token>, status: TerminalStatus, g: GenerationId)
    requires IsCompleted(Finalize(db, id, writer, status).0, g)
    ensures IsCompleted(db, g) || (id == g && status.Completed?)
  {
    hide Close, TerminalEvent;
    if Finalize(db, id, writer, status).1.Finalized? {
      CloseCompletes(if status.Completed? then Promote(db, id) else db,
          map[id := Closing(status, TerminalEvent(status))], g);
    }
  }

  lemma FailQueuedCompletesNone(db: Db, id: GenerationId, g: GenerationId)
    requires IsCompleted(FailQueued(db, id), g)
    ensures IsCompleted(db, g)
  {
    hide Close, TerminalEvent;
    if FailQueued(db, id) != db {
      CloseCompletes(db, map[id := Closing(Failed, TerminalEvent(Failed))], g);
    }
  }

  lemma StaleCompletesNone(db: Db, aged: set<GenerationId>, g: GenerationId)
    requires IsCompleted(FailStale(db, aged), g)
    ensures IsCompleted(db, g)
  {
    hide Close, TerminalEvent;
    CloseCompletes(db, StaleClosing(db, aged), g);
  }

  // A generation is completed by nothing but a finalize that says so.
  lemma OnlyFinalizeCompletes(db: Db, s: Step, g: GenerationId)
    requires IsCompleted(Apply(db, s), g)
    ensures IsCompleted(db, g) || (s.FinalizeStep? && s.id == g && s.status.Completed?)
  {
    hide Finalize, FailQueued, FailStale, BeginState, BuildRow, ActiveOf;
    match s
    case FinalizeStep(id, w, status) => FinalizeCompletes(db, id, w, status, g);
    case FailQueuedStep(id) => FailQueuedCompletesNone(db, id, g);
    case FailStaleStep(aged) => StaleCompletesNone(db, aged, g);
    case _ =>
  }

  predicate Completes(m: Move, g: GenerationId) {
    && m.Backend? && m.action.Transaction?
    && m.action.step.FinalizeStep? && m.action.step.id == g && m.action.step.status.Completed?
  }

  lemma MoveKeepsRow(w: World, m: Move, g: GenerationId)
    requires WorldInv(w)
    ensures Started(w.delivery.db, g) ==> Started(Next(w, m).delivery.db, g)
    ensures IsCompleted(Next(w, m).delivery.db, g) ==> IsCompleted(w.delivery.db, g) || Completes(m, g)
  {
    hide Inv, RelayInv, ClientInv, Apply, Deliver, StepClient, Streamed, RowEvolves, LogsGrow;
    if m.Backend? {
      ActEvolves(w.delivery, m.action);
      EvolvedIsStarted(w.delivery.db, Act(w.delivery, m.action).db, g);
      match m.action
      case Transaction(s) =>
        if IsCompleted(Apply(w.delivery.db, s), g) {
          OnlyFinalizeCompletes(w.delivery.db, s, g);
        }
      case Relaying(s) => DeliverKeepsTables(w.delivery, s);
    }
  }

  lemma EvolvedIsStarted(a: Db, b: Db, g: GenerationId)
    requires RowsEvolve(a, b)
    ensures Started(a, g) ==> Started(b, g)
  {
    assert Started(a, g) ==> RowEvolves(a.generations[g], b.generations[g]);
  }

  // What one move adds to what the worker of g published.
  function PublishedBy(w: World, m: Move, g: GenerationId): seq<Event> {
    if m.Backend? && m.action.Transaction? && Publishes(w.delivery.db, m.action.step, g) then [m.action.step.event]
    else []
  }

  lemma MovePublishes(start: World, s: Site, m: Move, g: GenerationId)
    requires s.world == Reach(start, s.moves)
    ensures var n := After(s, m);
            && n.world == Reach(start, n.moves)
            && Published(start, n.moves, g) == Published(start, s.moves, g) + PublishedBy(s.world, m, g)
  {
    hide Next, Publishes;
    assert (s.moves + [m])[..|s.moves|] == s.moves;
  }

  // ---------- Every step keeps the site sound ----------

  // A move that publishes nothing for g and does not complete it.
  predicate Quiet(w: World, m: Move, g: GenerationId) {
    PublishedBy(w, m, g) == [] && !Completes(m, g)
  }

  lemma OutsideIsQuiet(w: World, m: Move, g: GenerationId)
    ensures !ByWorkers(m) ==> Quiet(w, m, g)
    ensures m.Backend? && m.action.Transaction? && m.action.step.ClaimStep? ==> Quiet(w, m, g)
  {
    hide Publish;
  }

  lemma QuietKeepsSound(start: World, s: Site, m: Move, g: GenerationId)
    requires SiteSound(start, s, g) && WorldInv(s.world) && Quiet(s.world, m, g)
    ensures SiteSound(start, After(s, m), g)
  {
    hide Next, Reach, Published, PublishedBy, WorldInv, WorkerSound, Drained, Started, IsCompleted, Completes;
    MovePublishes(start, s, m, g);
    MoveKeepsRow(s.world, m, g);
    assert Published(start, s.moves, g) + [] == Published(start, s.moves, g);
  }

  // A change inside a worker that leaves what is finished finished.
  lemma InsideKeepsSound(start: World, s: Site, k: Worker, h: GenerationId, g: GenerationId)
    requires SiteSound(start, s, g)
    requires g == h ==>
               && g in s.workers && WorkerSound(k, Published(start, s.moves, g))
               && (Drained(s.workers[g]) ==> Drained(k))
    ensures SiteSound(start, Put(s, h, k), g)
  {
    hide Reach, Published, WorkerSound, Drained, Started, IsCompleted;
  }

  lemma ClaimStarts(db: Db, g: GenerationId, t: Token)
    requires Claim(db, g, t).1
    ensures !Started(db, g) && Started(Apply(db, ClaimStep(g, t)), g)
          && !IsCompleted(Apply(db, ClaimStep(g, t)), g)
  {
  }

  lemma NewWorkerIsSound(t: Token)
    ensures WorkerSound(Worker(t, [], None, [], false, false), [])
  {
    hide Emittable;
    var none: seq<Event> := [];
    assert none + [] + [] == none;
  }

  lemma NewWorkerKeepsSound(start: World, s: Site, h: GenerationId, t: Token, g: GenerationId)
    requires SiteSound(start, s, g)
    requires g == h ==> g !in s.workers && Started(s.world.delivery.db, g) && !IsCompleted(s.world.delivery.db, g)
    ensures SiteSound(start, Put(s, h, Worker(t, [], None, [], false, false)), g)
  {
    NewWorkerIsSound(t);
    hide Reach, Published, WorkerSound, Drained, Started, IsCompleted;
  }

  lemma NotClaimedTwice(start: World, s: Site, g: GenerationId)
    requires SiteSound(start, s, g) && !Started(s.world.delivery.db, g)
    ensures g !in s.workers
  {
    hide Reach, Published, WorkerSound, Drained, Started, IsCompleted;
  }

  lemma ClaimKeepsSound(start: World, s: Site, h: GenerationId, t: Token, lost: bool, g: GenerationId)
    requires SiteSound(start, s, g) && WorldInv(s.world)
    ensures SiteSound(start, SiteNext(s, ClaimedStep(h, t, lost)), g)
  {
    hide SiteSound, WorldInv, Claim, Apply, Started, IsCompleted, Quiet;
    var m := Transact(ClaimStep(h, t));
    OutsideIsQuiet(s.world, m, g);
    QuietKeepsSound(start, s, m, g);
    if Claim(s.world.delivery.db, h, t).1 && !lost {
      ClaimStarts(s.world.delivery.db, h, t);
      if g == h {
        NotClaimedTwice(start, s, g);
      }
      NewWorkerKeepsSound(start, After(s, m), h, t, g);
    }
  }

  lemma WriteKeepsSound(start: World, s: Site, h: GenerationId, fault: Fault, g: GenerationId)
    requires SiteSound(start, s, g) && WorldInv(s.world)
    requires h in s.workers && s.workers[h].queue != [] && !s.workers[h].broken
    ensures SiteSound(start, Write(s, h, fault), g)
  {
    var k := s.workers[h];
    if fault.NotCommitted? {
      hide Published, Reach, Started, IsCompleted, Merge;
      InsideKeepsSound(start, s, AfterWrite(k, false), h, g);
    } else if g != h {
      OtherWriteKeepsSound(start, s, h, fault, g);
    } else {
      OwnWriteKeepsSound(start, s, fault, g);
    }
  }

  lemma OtherWriteKeepsSound(start: World, s: Site, h: GenerationId, fault: Fault, g: GenerationId)
    requires SiteSound(start, s, g) && WorldInv(s.world) && !fault.NotCommitted? && g != h
    requires h in s.workers && s.workers[h].queue != []
    ensures SiteSound(start, Write(s, h, fault), g)
  {
    hide SiteSound, WorldInv, Next, Publish;
    var m := Transact(PublishStep(h, s.workers[h].token, s.workers[h].queue[0]));
    QuietKeepsSound(start, s, m, g);
    InsideKeepsSound(start, After(s, m), Write(s, h, fault).workers[h], h, g);
  }

  // A worker with something to write belongs to a generation that has started and is not completed.
  lemma WritingIsOpen(start: World, s: Site, g: GenerationId)
    requires SiteSound(start, s, g) && g in s.workers && s.workers[g].queue != []
    ensures s.world == Reach(start, s.moves) && Started(s.world.delivery.db, g)
          && !IsCompleted(s.world.delivery.db, g)
  {
    hide Reach, Published, WorkerSound, Started, IsCompleted;
  }

  lemma OwnWritePublishes(w: World, k: Worker, g: GenerationId)
    requires k.queue != []
    ensures var m := Transact(PublishStep(g, k.token, k.queue[0]));
            && !Completes(m, g)
            && PublishedBy(w, m, g) == if Publish(w.delivery.db, g, k.token, k.queue[0]).1 then [k.queue[0]] else []
  {
    hide Publish;
  }

  lemma OwnWriteMoves(start: World, s: Site, k: Worker, g: GenerationId)
    requires SiteSound(start, s, g) && WorldInv(s.world) && g in s.workers && k == s.workers[g] && k.queue != []
    ensures var n := After(s, Transact(PublishStep(g, k.token, k.queue[0])));
            && n.world == Reach(start, n.moves)
            && Started(n.world.delivery.db, g) && !IsCompleted(n.world.delivery.db, g)
            && Published(start, n.moves, g) == Published(start, s.moves, g)
                 + if Publish(s.world.delivery.db, g, k.token, k.queue[0]).1 then [k.queue[0]] else []
  {
    WritingIsOpen(start, s, g);
    OwnWritePublishes(s.world, k, g);
    var m := Transact(PublishStep(g, k.token, k.queue[0]));
    hide SiteSound, Next, Reach, Published, PublishedBy, WorldInv, Publish, Started, IsCompleted, Completes, Transact;
    MovePublishes(start, s, m, g);
    MoveKeepsRow(s.world, m, g);
  }

  lemma WorkerMakesSound(start: World, s: Site, k: Worker, g: GenerationId)
    requires s.world == Reach(start, s.moves) && WorkerSound(k, Published(start, s.moves, g))
    requires Started(s.world.delivery.db, g) && !IsCompleted(s.world.delivery.db, g)
    ensures SiteSound(start, Put(s, g, k), g)
  {
    hide Reach, Published, Started, IsCompleted, WorkerSound, Drained;
  }

  lemma OwnWriteKeepsSound(start: World, s: Site, fault: Fault, g: GenerationId)
    requires SiteSound(start, s, g) && WorldInv(s.world) && !fault.NotCommitted?
    requires g in s.workers && s.workers[g].queue != [] && !s.workers[g].broken
    ensures SiteSound(start, Write(s, g, fault), g)
  {
    var k := s.workers[g];
    OwnWriteMoves(start, s, k, g);
    hide Next, Reach, Published, WorldInv, Publish, Started, IsCompleted, WorkerSound, AfterWrite, Drained;
    var written := Publish(s.world.delivery.db, g, k.token, k.queue[0]).1;
    WriteKeepsWorker(k, Published(start, s.moves, g), written, fault.NoFault?);
    WorkerMakesSound(start, After(s, Transact(PublishStep(g, k.token, k.queue[0]))),
        AfterWrite(k, written && fault.NoFault?), g);
  }

  lemma CompleteKeepsSound(start: World, s: Site, h: GenerationId, g: GenerationId)
    requires SiteSound(start, s, g) && WorldInv(s.world) && h in s.workers && Drained(s.workers[h])
    ensures SiteSound(start, After(s, Transact(FinalizeStep(h, Some(s.workers[h].token), Completed))), g)
  {
    hide Next, Reach, Published, WorldInv, WorkerSound, Drained, Started, IsCompleted;
    var m := Transact(FinalizeStep(h, Some(s.workers[h].token), Completed));
    MovePublishes(start, s, m, g);
    MoveKeepsRow(s.world, m, g);
    assert Published(start, s.moves, g) + [] == Published(start, s.moves, g);
  }

  lemma FlushKeepsSound(start: World, s: Site, h: GenerationId, over: bool, g: GenerationId)
    requires SiteSound(start, s, g) && h in s.workers
    ensures SiteSound(start, Put(s, h, Flushed(s.workers[h]).(ended := s.workers[h].ended || over)), g)
  {
    var k := s.workers[h];
    if g == h {
      FlushKeepsWorker(k, Published(start, s.moves, g), over);
    }
    InsideKeepsSound(start, s, Flushed(k).(ended := k.ended || over), h, g);
  }

  lemma StepKeepsSound(start: World, s: Site, step: SiteStep, g: GenerationId)
    requires SiteSound(start, s, g) && WorldInv(s.world)
    ensures SiteSound(start, SiteNext(s, step), g)
  {
    hide SiteSound, WorldInv, After, Write, Quiet, ByWorkers, MayEmit, AfterEmit, Claim, Drained;
    match step
    case OutsideStep(m) =>
      if !ByWorkers(m) {
        OutsideIsQuiet(s.world, m, g);
        QuietKeepsSound(start, s, m, g);
      }
    case ClaimedStep(h, t, lost) => ClaimKeepsSound(start, s, h, t, lost, g);
    case EmittedStep(h, e) =>
      if h in s.workers && MayEmit(s.workers[h], e) {
        EmitKeepsSound(start, s, h, e, g);
      }
    case TimerStep(h) =>
      if h in s.workers {
        FlushKeepsSound(start, s, h, false, g);
      }
    case RunOverStep(h) =>
      if h in s.workers {
        FlushKeepsSound(start, s, h, true, g);
      }
    case WrittenStep(h, fault) =>
      if h in s.workers && s.workers[h].queue != [] && !s.workers[h].broken {
        WriteKeepsSound(start, s, h, fault, g);
      }
    case CompletedStep(h) =>
      if h in s.workers && Drained(s.workers[h]) {
        CompleteKeepsSound(start, s, h, g);
      }
  }

  lemma EmitKeepsSound(start: World, s: Site, h: GenerationId, e: WorkerEvent, g: GenerationId)
    requires SiteSound(start, s, g) && h in s.workers && MayEmit(s.workers[h], e)
    ensures SiteSound(start, Put(s, h, AfterEmit(s.workers[h], e)), g)
  {
    if g == h {
      EmitKeepsWorker(s.workers[h], e, Published(start, s.moves, g));
    }
    InsideKeepsSound(start, s, AfterEmit(s.workers[h], e), h, g);
  }

  // ---------- Whole runs of the site ----------

  lemma SiteStarts(userLimit: nat, user: UserId, loaded: set<ConversationId>, g: GenerationId)
    ensures SiteSound(StartWorld(userLimit, user, loaded), StartSite(userLimit, user, loaded), g)
  {
  }

  lemma {:induction false} SiteKeepsSound(userLimit: nat, user: UserId, loaded: set<ConversationId>,
      steps: seq<SiteStep>, g: GenerationId)
    ensures SiteSound(StartWorld(userLimit, user, loaded), SiteAfter(StartSite(userLimit, user, loaded), steps), g)
    decreases |steps|
  {
    hide SiteNext, StartWorld, StartSite, WorldInv;
    if steps == [] {
      SiteStarts(userLimit, user, loaded, g);
      hide SiteSound;
    } else {
      var start, front := StartWorld(userLimit, user, loaded), steps[..|steps| - 1];
      var s := SiteAfter(StartSite(userLimit, user, loaded), front);
      SiteKeepsSound(userLimit, user, loaded, front, g);
      SoundIsReached(start, s, g);
      hide SiteSound;
      StartWorldInv(userLimit, user, loaded);
      ReachKeepsInv(start, s.moves);
      StepKeepsSound(start, s, steps[|steps| - 1], g);
    }
  }

  lemma SoundIsReached(start: World, s: Site, g: GenerationId)
    requires SiteSound(start, s, g)
    ensures s.world == Reach(start, s.moves)
    ensures IsCompleted(s.world.delivery.db, g) ==> g in s.workers && Drained(s.workers[g])
    ensures g in s.workers && Drained(s.workers[g]) ==>
              && AllEmittable(s.workers[g].emitted)
              && Merge(Published(start, s.moves, g)) == Merge(SentOf(s.workers[g].emitted))
  {
    hide Reach, Published, Started, AllEmittable, Merge, SentOf;
    assert Published(start, s.moves, g) + [] + [] == Published(start, s.moves, g);
  }

  // Whatever the workers, the timers, failing writes, the relays, the network and the resyncs do: once the worker of g
  // has written all it had, a browser that has seen the end of g shows the worker's own blocks.
  lemma DrainedWorkerIsShown(userLimit: nat, user: UserId, loaded: set<ConversationId>, steps: seq<SiteStep>,
      s: Site, g: GenerationId)
    requires s == SiteAfter(StartSite(userLimit, user, loaded), steps)
    requires g in s.workers && Drained(s.workers[g])
    requires DoneShown(s.world.session.browser, s.world.delivery.db, g)
    ensures var b := s.world.session.browser;
            b.views[g].conversation in b.messages ==>
              BlocksOf(b, b.views[g].conversation, b.views[g].message) == Shown(EmitAll([], s.workers[g].emitted))
  {
    hide Reach, SiteAfter, SiteSound, Published, StartWorld, StartSite, AllEmittable, Merge, SentOf, EmitAll, Shown,
        Drained, DoneShown;
    SiteKeepsSound(userLimit, user, loaded, steps, g);
    SoundIsReached(StartWorld(userLimit, user, loaded), s, g);
    FinishedBrowserShowsTheWorkersBlocks(userLimit, user, loaded, s.moves, s.world, g, s.workers[g].emitted);
  }

  // A completed generation always has such a worker: only it completes, and only after everything is written. So a
  // browser that has seen the end of a completed generation shows exactly what the worker stores with it, and the fetch
  // that follows changes nothing, unless it corrects the status that a late cancel reply left.
  lemma CompletedIsShown(userLimit: nat, user: UserId, loaded: set<ConversationId>, steps: seq<SiteStep>, s: Site,
      g: GenerationId)
    requires s == SiteAfter(StartSite(userLimit, user, loaded), steps)
    requires DoneShown(s.world.session.browser, s.world.delivery.db, g) && IsCompleted(s.world.delivery.db, g)
    ensures g in s.workers
    ensures var b, stored := s.world.session.browser, Shown(EmitAll([], s.workers[g].emitted));
            var v := b.views[g];
            && (v.conversation in b.messages ==> BlocksOf(b, v.conversation, v.message) == stored)
            && (NoLateCancels(StartWorld(userLimit, user, loaded), s.moves) ==>
                  var n := FetchMessage(b, g, s.world.delivery.db.generations[g], stored);
                  n.views == b.views && BlocksOf(n, v.conversation, v.message) == BlocksOf(b, v.conversation, v.message))
  {
    hide Reach, SiteAfter, SiteSound, Published, NoLateCancels, StartWorld, StartSite, AllEmittable, Merge, SentOf,
        EmitAll, Shown, Drained, IsCompleted, FetchMessage, BlocksOf;
    SiteKeepsSound(userLimit, user, loaded, steps, g);
    SoundIsReached(StartWorld(userLimit, user, loaded), s, g);
    DrainedWorkerIsShown(userLimit, user, loaded, steps, s, g);
    if NoLateCancels(StartWorld(userLimit, user, loaded), s.moves) {
      FetchKeepsFinishedView(userLimit, user, loaded, s.moves, s.world, g, s.workers[g].emitted);
    }
  }
}
