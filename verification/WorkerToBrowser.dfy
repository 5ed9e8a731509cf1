/**
 * From the worker's blocks to the browser's: a generation's log holds exactly what its worker published, closed by one
 * done event, so a browser that has seen the end shows the blocks that the worker stored.
 */
module WorkerToBrowser {
  import opened Common
  import opened Events
  import opened AnalysisStates
  import opened Lifecycle
  import opened LifecycleProofs
  import opened LifecycleHistory
  import opened Relay
  import opened DeliveryRuns
  import opened Blocks
  import opened Client
  import opened ClientProofs
  import opened EndToEnd
  import opened TextEvents
  import opened Reducers

  // ---------- One transaction and one log ----------

  predicate Publishes(db: Db, s: Step, g: GenerationId) {
    s.PublishStep? && s.id == g && Publish(db, s.id, s.token, s.event).1
  }

  predicate Ends(db: Db, s: Step, g: GenerationId) {
    ActiveIn(db, g) && g in Apply(db, s).generations && Terminal(Apply(db, s).generations[g].status)
  }

  function Grown(db: Db, s: Step, g: GenerationId): nat {
    (if Publishes(db, s, g) then 1 else 0) + if Ends(db, s, g) then 1 else 0
  }

  ghost predicate Counts(db: Db, n: Db, g: GenerationId, more: nat)
    requires g in db.generations
  {
    g in n.generations && n.generations[g].lastSequence == db.generations[g].lastSequence + more
  }

  lemma ClosingCounts(db: Db, closing: map<GenerationId, Closing>, g: GenerationId)
    requires Closable(db, closing) && g in db.generations
    ensures Counts(db, Close(db, closing), g, if g in closing then 1 else 0)
    ensures Terminal(Close(db, closing).generations[g].status) && ActiveIn(db, g) <==> g in closing
  {
    hide CloseTurns, CloseLogs, CloseOutbox;
  }

  lemma FinalizeCounts(db: Db, id: GenerationId, writer: Option<Token>, status: TerminalStatus, g: GenerationId)
    requires g in db.generations
    ensures Counts(db, Apply(db, FinalizeStep(id, writer, status)), g, Grown(db, FinalizeStep(id, writer, status), g))
  {
    hide Close;
    if Finalize(db, id, writer, status).1.Finalized? {
      var from := if status.Completed? then Promote(db, id) else db;
      SingleIsClosable(from, id, status);
      ClosingCounts(from, map[id := Closing(status, TerminalEvent(status))], g);
    }
  }

  lemma FailQueuedCounts(db: Db, id: GenerationId, g: GenerationId)
    requires g in db.generations
    ensures Counts(db, Apply(db, FailQueuedStep(id)), g, Grown(db, FailQueuedStep(id), g))
  {
    hide Close;
    if id in db.generations && db.generations[id].status.Pending? && db.generations[id].token.None? {
      SingleIsClosable(db, id, Failed);
      ClosingCounts(db, map[id := Closing(Failed, TerminalEvent(Failed))], g);
    }
  }

  lemma FailStaleCounts(db: Db, aged: set<GenerationId>, g: GenerationId)
    requires g in db.generations
    ensures Counts(db, Apply(db, FailStaleStep(aged)), g, Grown(db, FailStaleStep(aged), g))
  {
    hide Close, StaleClosing;
    StaleIsClosable(db, aged);
    ClosingCounts(db, StaleClosing(db, aged), g);
  }

  predicate ChangesStatus(s: Step) {
    s.ClaimStep? || s.MarkRunningStep? || s.CancelStep?
  }

  ghost predicate StaysOpen(db: Db, n: Db, g: GenerationId)
    requires g in db.generations
  {
    Counts(db, n, g, 0) && (ActiveIn(db, g) ==> ActiveIn(n, g))
  }

  lemma SetStatusStaysOpen(db: Db, id: GenerationId, status: Status, token: Option<Token>, g: GenerationId)
    requires g in db.generations && id in db.generations && Active(status)
    ensures StaysOpen(db, SetStatus(db, id, status, token), g) && StaysOpen(db, db, g)
  {
  }

  lemma StatusCounts(db: Db, s: Step, g: GenerationId)
    requires g in db.generations && ChangesStatus(s)
    ensures Counts(db, Apply(db, s), g, 0) && !Ends(db, s, g)
  {
    assert StaysOpen(db, Apply(db, s), g) by {
      hide SetStatus, StaysOpen;
      SetStatusStaysOpen(db, g, Pending, None, g);
      if s.id in db.generations {
        match s
        case ClaimStep(id, t) => SetStatusStaysOpen(db, id, Starting, Some(t), g);
        case MarkRunningStep(id, t) => SetStatusStaysOpen(db, id, Running, Some(t), g);
        case CancelStep(_, id) => SetStatusStaysOpen(db, id, CancelRequested, db.generations[id].token, g);
      }
    }
    hide Apply;
  }

  lemma PublishCounts(db: Db, s: Step, g: GenerationId)
    requires g in db.generations && s.PublishStep?
    ensures Counts(db, Apply(db, s), g, if Publishes(db, s, g) then 1 else 0) && !Ends(db, s, g)
  {
    hide BuildRow;
  }

  lemma CreateTurnCounts(db: Db, s: Step, g: GenerationId)
    requires g in db.generations && s.CreateTurnStep?
    ensures Counts(db, Apply(db, s), g, 0) && !Ends(db, s, g)
  {
    hide ActiveOf;
  }

  // The remaining transactions leave all generation rows alone.
  lemma QuietCounts(db: Db, s: Step, g: GenerationId)
    requires g in db.generations && (s.NewConversationStep? || s.BeginStep? || s.SaveStep? || s.ArtifactStep?)
    ensures Counts(db, Apply(db, s), g, 0) && !Ends(db, s, g)
  {
    hide BeginState, Owned;
  }

  // A transaction lengthens a log by a published event or by the done event, and not otherwise.
  lemma StepCounts(db: Db, s: Step, g: GenerationId)
    requires g in db.generations
    ensures Counts(db, Apply(db, s), g, Grown(db, s, g))
  {
    hide Apply, Counts, Ends;
    match s
    case FinalizeStep(id, w, status) => FinalizeCounts(db, id, w, status, g);
    case FailQueuedStep(id) => FailQueuedCounts(db, id, g);
    case FailStaleStep(aged) => FailStaleCounts(db, aged, g);
    case PublishStep(_, _, _) => PublishCounts(db, s, g);
    case CreateTurnStep(_, _, _, _, _, _) => CreateTurnCounts(db, s, g);
    case _ =>
      if ChangesStatus(s) {
        StatusCounts(db, s, g);
      } else {
        QuietCounts(db, s, g);
      }
  }

  lemma LastOfClosed(db: Db, g: GenerationId)
    requires Inv(db) && g in db.generations && Terminal(db.generations[g].status)
    ensures |LogOf(db, g)| > 0 && LogOf(db, g)[|LogOf(db, g)| - 1].event == TerminalEvent(db.generations[g].status)
  {
    assert LogComplete(db, g);
  }

  lemma PublishedLast(db: Db, s: Step, g: GenerationId)
    requires Publishes(db, s, g)
    ensures LogOf(Apply(db, s), g) == LogOf(db, g) + [NextPayload(db, g, s.event)]
    ensures NextPayload(db, g, s.event).event == s.event && !Ends(db, s, g)
  {
  }

  // The events that a transaction appends to the log of g.
  function Appended(db: Db, s: Step, g: GenerationId): seq<Event> {
    if Publishes(db, s, g) then [s.event]
    else if Ends(db, s, g) then [TerminalEvent(Apply(db, s).generations[g].status)]
    else []
  }

  lemma EventsInLast(log: seq<Payload>, p: Payload)
    ensures EventsIn(log + [p]) == EventsIn(log) + [p.event]
  {
    assert (log + [p])[..|log|] == log;
  }

  lemma LogGrows(db: Db, s: Step, g: GenerationId)
    requires Inv(db) && g in db.generations
    ensures Inv(Apply(db, s)) && g in Apply(db, s).generations
    ensures LogOf(db, g) <= LogOf(Apply(db, s), g)
    ensures |LogOf(Apply(db, s), g)| == |LogOf(db, g)| + Grown(db, s, g)
  {
    hide Inv, Apply, RowsEvolve, KeysAndArtifactsGrow, StatesGrow, Grown;
    LifecycleProofs.ApplyKeepsInv(db, s);
    ApplyEvolves(db, s);
    StepCounts(db, s, g);
    LogLength(db, g);
    LogLength(Apply(db, s), g);
  }

  lemma EndedLast(before: seq<Payload>, n: Db, g: GenerationId)
    requires Inv(n) && g in n.generations && Terminal(n.generations[g].status)
    requires |LogOf(n, g)| == |before| + 1 && before <= LogOf(n, g)
    ensures LogOf(n, g) == before + [LogOf(n, g)[|before|]]
          && LogOf(n, g)[|before|].event == TerminalEvent(n.generations[g].status)
  {
    hide Inv, LogOf, TerminalEvent;
    LastOfClosed(n, g);
  }

  lemma LogStep(db: Db, s: Step, g: GenerationId)
    requires Inv(db) && g in db.generations
    ensures EventsIn(LogOf(Apply(db, s), g)) == EventsIn(LogOf(db, g)) + Appended(db, s, g)
  {
    hide Inv, LogOf, EventsIn, Apply, Publish, TerminalEvent, NextPayload;
    var before, n := LogOf(db, g), Apply(db, s);
    LogGrows(db, s, g);
    if Publishes(db, s, g) {
      PublishedLast(db, s, g);
      EventsInLast(before, NextPayload(db, g, s.event));
    } else if Ends(db, s, g) {
      EndedLast(before, n, g);
      EventsInLast(before, LogOf(n, g)[|before|]);
    } else {
      assert LogOf(n, g) == before;
    }
  }

  // ---------- Whole runs ----------

  // What the worker of g published over a run, in order.
  function Published(w: World, moves: seq<Move>, g: GenerationId): seq<Event> {
    if moves == [] then []
    else
      var front, m := moves[..|moves| - 1], moves[|moves| - 1];
      var before := Reach(w, front);
      Published(w, front, g)
      + if m.Backend? && m.action.Transaction? && Publishes(before.delivery.db, m.action.step, g)
          then [m.action.step.event] else []
  }

  function Ending(db: Db, g: GenerationId): seq<Event> {
    if g in db.generations && Terminal(db.generations[g].status) then [TerminalEvent(db.generations[g].status)] else []
  }

  lemma UnknownHasNoLog(db: Db, g: GenerationId)
    requires Inv(db) && g !in db.generations
    ensures LogOf(db, g) == []
  {
    assert RowsAgree(db);
  }

  lemma ClosingAddsNone(db: Db, closing: map<GenerationId, Closing>)
    requires closing.Keys <= db.generations.Keys
    ensures Close(db, closing).generations.Keys == db.generations.Keys
  {
  }

  lemma ClosersAddNone(db: Db, s: Step)
    requires s.FinalizeStep? || s.FailQueuedStep? || s.FailStaleStep?
    ensures Apply(db, s).generations.Keys == db.generations.Keys
  {
    hide Close, TerminalEvent;
    match s
    case FinalizeStep(id, w, status) =>
      if Finalize(db, id, w, status).1.Finalized? {
        ClosingAddsNone(if status.Completed? then Promote(db, id)
            else db, map[id := Closing(status, TerminalEvent(status))]);
      }
    case FailQueuedStep(id) =>
      if FailQueued(db, id) != db {
        ClosingAddsNone(db, map[id := Closing(Failed, TerminalEvent(Failed))]);
      }
    case FailStaleStep(aged) => ClosingAddsNone(db, StaleClosing(db, aged));
  }

  // Only createTurn adds a generation, and it starts with an empty log.
  lemma NewIsPending(db: Db, s: Step, g: GenerationId)
    requires g !in db.generations && g in Apply(db, s).generations
    ensures s.CreateTurnStep? && Apply(db, s).generations[g].status.Pending?
          && Apply(db, s).generations[g].lastSequence == 0
  {
    if s.FinalizeStep? || s.FailQueuedStep? || s.FailStaleStep? {
      ClosersAddNone(db, s);
      hide Apply;
    } else {
      hide BeginState, ActiveOf, BuildRow;
    }
  }

  lemma NewHasNoLog(db: Db, s: Step, g: GenerationId)
    requires Inv(db) && g !in db.generations && g in Apply(db, s).generations
    ensures LogOf(Apply(db, s), g) == [] && !Terminal(Apply(db, s).generations[g].status) && !Publishes(db, s, g)
  {
    hide Inv, LogOf;
    NewIsPending(db, s, g);
    hide Apply;
    LifecycleProofs.ApplyKeepsInv(db, s);
    LogLength(Apply(db, s), g);
  }

  // A log holds what was published, and the done event once the generation has ended: one transaction keeps that.
  lemma TransactionExtends(db: Db, s: Step, g: GenerationId, published: seq<Event>)
    requires Inv(db) && EventsIn(LogOf(db, g)) == published + Ending(db, g)
    ensures var n := Apply(db, s);
            EventsIn(LogOf(n, g)) == (published + if Publishes(db, s, g) then [s.event] else []) + Ending(n, g)
  {
    hide Inv, Apply, LogOf, EventsIn, TerminalEvent, Publish;
    var n := Apply(db, s);
    if g in db.generations {
      LogStep(db, s, g);
      EndingStep(db, s, g);
    } else {
      UnknownHasNoLog(db, g);
      LifecycleProofs.ApplyKeepsInv(db, s);
      if g in n.generations {
        NewHasNoLog(db, s, g);
      } else {
        UnknownHasNoLog(n, g);
        UnknownPublishesNothing(db, s, g);
      }
    }
  }

  lemma UnknownPublishesNothing(db: Db, s: Step, g: GenerationId)
    requires g !in db.generations
    ensures !Publishes(db, s, g)
  {
  }

  lemma EndingStep(db: Db, s: Step, g: GenerationId)
    requires Inv(db) && g in db.generations
    ensures Ending(Apply(db, s), g) == if Ends(db, s, g) then [TerminalEvent(Apply(db, s).generations[g].status)]
          else Ending(db, g)
    ensures Ending(db, g) != [] ==> !Publishes(db, s, g) && !Ends(db, s, g)
    ensures Publishes(db, s, g) ==> Ending(Apply(db, s), g) == []
  {
    hide Inv, Apply, LogsGrow, KeysAndArtifactsGrow, StatesGrow, TerminalEvent;
    ApplyEvolves(db, s);
    assert RowEvolves(db.generations[g], Apply(db, s).generations[g]);
    if Publishes(db, s, g) {
      PublishedLast(db, s, g);
    }
  }

  lemma OtherMovesKeepLogs(w: World, m: Move, g: GenerationId)
    requires !(m.Backend? && m.action.Transaction?)
    ensures LogOf(Next(w, m).delivery.db, g) == LogOf(w.delivery.db, g)
          && Ending(Next(w, m).delivery.db, g) == Ending(w.delivery.db, g)
  {
    hide Deliver, StepClient, Streamed, TerminalEvent;
    if m.Backend? {
      DeliverKeepsTables(w.delivery, m.action.relayStep);
    }
  }

  // In every reachable state of the whole system, the log of a generation is what its worker published, followed by the
  // done event once the generation has ended.
  lemma {:induction false} LogIsWhatWasPublished(w: World, moves: seq<Move>, g: GenerationId)
    requires WorldInv(w) && w.delivery.db.generations == map[] && w.delivery.db.logs == map[]
    ensures var db := Reach(w, moves).delivery.db;
            EventsIn(LogOf(db, g)) == Published(w, moves, g) + Ending(db, g)
    decreases |moves|
  {
    hide WorldInv, Next, LogOf, EventsIn, Ending, Publishes, Apply;
    if moves == [] {
      StartsEmpty(w.delivery.db, g);
    } else {
      var front, m := moves[..|moves| - 1], moves[|moves| - 1];
      var before := Reach(w, front);
      LogIsWhatWasPublished(w, front, g);
      ReachKeepsInv(w, front);
      if m.Backend? && m.action.Transaction? {
        TransactionMove(before, m, g, Published(w, front, g));
      } else {
        OtherMovesKeepLogs(before, m, g);
        assert Published(w, moves, g) == Published(w, front, g);
      }
    }
  }

  lemma StartsEmpty(db: Db, g: GenerationId)
    requires db.generations == map[] && db.logs == map[]
    ensures EventsIn(LogOf(db, g)) == [] && Ending(db, g) == []
  {
  }

  lemma TransactionMove(w: World, m: Move, g: GenerationId, published: seq<Event>)
    requires WorldInv(w) && m.Backend? && m.action.Transaction?
    requires EventsIn(LogOf(w.delivery.db, g)) == published + Ending(w.delivery.db, g)
    ensures var n := Next(w, m).delivery.db;
            EventsIn(LogOf(n, g)) == (published + if Publishes(w.delivery.db, m.action.step, g)
                then [m.action.step.event] else []) + Ending(n, g)
  {
    hide RelayInv, ClientInv, Inv, Apply, LogOf, EventsIn, Ending, Publishes;
    TransactionExtends(w.delivery.db, m.action.step, g, published);
  }

  // ---------- The two ends ----------

  lemma DoneShowsNothing(events: seq<Event>, db: Db, g: GenerationId)
    ensures FoldEvents([], events + Ending(db, g)) == FoldEvents([], events)
  {
    if Ending(db, g) != [] {
      FoldLast([], events, Ending(db, g)[0]);
    } else {
      assert events + Ending(db, g) == events;
    }
  }

  // A browser that has seen the end of a generation shows exactly the blocks that its worker stored, if what was
  // published joins to what was sent: whatever the timers, the relays, the network and the resyncs did on the way.
  lemma FinishedBrowserShowsTheWorkersBlocks(userLimit: nat, user: UserId, loaded: set<ConversationId>,
      moves: seq<Move>, w: World, g: GenerationId, emitted: seq<Event>)
    requires w == Reach(StartWorld(userLimit, user, loaded), moves) && DoneShown(w.session.browser, w.delivery.db, g)
    requires AllEmittable(emitted)
    requires Merge(Published(StartWorld(userLimit, user, loaded), moves, g)) == Merge(SentOf(emitted))
    ensures var b := w.session.browser;
            b.views[g].conversation in b.messages ==>
              BlocksOf(b, b.views[g].conversation, b.views[g].message) == Shown(EmitAll([], emitted))
  {
    var start := StartWorld(userLimit, user, loaded);
    StartWorldInv(userLimit, user, loaded);
    var published := Published(start, moves, g);
    assert start.delivery.db.generations == map[] && start.delivery.db.logs == map[];
    hide Reach, WorldInv, Published, Fold, LogOf, StartWorld, AllEmittable, Merge, Shown, EmitAll, SentOf;
    FinishedViewShowsTheLog(userLimit, user, loaded, moves, w, g);
    LogIsWhatWasPublished(start, moves, g);
    DoneShowsNothing(published, w.delivery.db, g);
    BrowserShowsTheWorkersBlocks(emitted, published, LogOf(w.delivery.db, g));
  }

  // fetchMessages, for one message and its generation's row: the view is overwritten, and so are the blocks unless the
  // generation still runs.
  function FetchMessage(b: Browser, g: GenerationId, row: Generation, stored: seq<Block>): Browser {
    var n := b.(views := b.views[g := View(row.conversation, row.message, row.status, row.lastSequence)]);
    if Active(row.status) && row.conversation in b.messages && row.message in b.messages[row.conversation] then n
    else PutMessage(n, row.conversation, row.message, stored)
  }

  lemma FinishedRow(w: World, g: GenerationId)
    requires WorldInv(w) && g in w.session.browser.views
    ensures var b, db := w.session.browser, w.delivery.db;
            && g in db.generations && |LogOf(db, g)| == db.generations[g].lastSequence
            && b.views[g].conversation == db.generations[g].conversation
                && b.views[g].message == db.generations[g].message
  {
    hide RelayInv, MessagesOwned, Fold, Inv;
    assert ViewTracks(w.session.browser, w.delivery.db, g);
    LogLength(w.delivery.db, g);
  }

  lemma SameFetched(b: Browser, g: GenerationId, row: Generation, stored: seq<Block>)
    requires g in b.views && b.views[g] == View(row.conversation, row.message, row.status, row.lastSequence)
          && Terminal(row.status)
    requires row.conversation in b.messages ==> BlocksOf(b, row.conversation, row.message) == stored
    ensures var n := FetchMessage(b, g, row, stored);
            n.views == b.views && BlocksOf(n, row.conversation, row.message)
                == BlocksOf(b, row.conversation, row.message)
  {
  }

  // The fetch that follows the done event brings nothing new when the stored blocks are the worker's: neither the view
  // nor what the message shows changes.
  lemma FetchKeepsFinishedView(userLimit: nat, user: UserId, loaded: set<ConversationId>,
      moves: seq<Move>, w: World, g: GenerationId, emitted: seq<Event>)
    requires NoLateCancels(StartWorld(userLimit, user, loaded), moves)
    requires w == Reach(StartWorld(userLimit, user, loaded), moves) && DoneShown(w.session.browser, w.delivery.db, g)
    requires AllEmittable(emitted)
    requires Merge(Published(StartWorld(userLimit, user, loaded), moves, g)) == Merge(SentOf(emitted))
    ensures var b := w.session.browser;
            var v := b.views[g];
            && g in w.delivery.db.generations
            && var n := FetchMessage(b, g, w.delivery.db.generations[g], Shown(EmitAll([], emitted)));
               n.views == b.views && BlocksOf(n, v.conversation, v.message) == BlocksOf(b, v.conversation, v.message)
  {
    hide Reach, WorldInv, NoLateCancels, Published, Fold, LogOf, StartWorld, AllEmittable, Merge, Shown, EmitAll,
        SentOf, FetchMessage, BlocksOf, EndsShown;
    StartWorldInv(userLimit, user, loaded);
    ReachKeepsInv(StartWorld(userLimit, user, loaded), moves);
    FinishedViewIsFinal(userLimit, user, loaded, moves, w, g);
    FinishedBrowserShowsTheWorkersBlocks(userLimit, user, loaded, moves, w, g, emitted);
    FinishedRow(w, g);
    SameFetched(w.session.browser, g, w.delivery.db.generations[g], Shown(EmitAll([], emitted)));
  }
}
