/**
 * Everything at once: transactions, relays and one browser take steps in any order. In every reachable state the
 * browser shows the fold of a prefix of each registered generation's log.
 */
module EndToEnd {
  import opened Events
  import opened Lifecycle
  import opened LifecycleHistory
  import opened Relay
  import opened DeliveryRuns
  import opened Blocks
  import opened Client
  import opened ClientProofs

  datatype World = World(delivery: Delivery, session: Session)

  datatype Move = Backend(action: Action) | Browsing(step: ClientStep)

  // The connection may hand the browser any entry of any stream, at any time and any number of times.
  predicate Streamed(w: World, step: ClientStep) {
    step.ReceiveStep? ==> step.event in StreamOf(w.delivery.redis, step.event.generation)
  }

  function Next(w: World, m: Move): World {
    match m
    case Backend(a) => w.(delivery := Act(w.delivery, a))
    case Browsing(step) => if Streamed(w, step) then w.(session := StepClient(w.session, w.delivery.db, step)) else w
  }

  function Reach(w: World, moves: seq<Move>): World {
    if moves == [] then w else Next(Reach(w, moves[..|moves| - 1]), moves[|moves| - 1])
  }

  // A browser that has loaded some conversations, none of which has shown a response yet.
  function FreshBrowser(user: UserId, loaded: set<ConversationId>): Browser {
    Browser(user, map[], map c | c in loaded :: map[])
  }

  function StartWorld(userLimit: nat, user: UserId, loaded: set<ConversationId>): World {
    World(Start(userLimit), Session(FreshBrowser(user, loaded), Idle))
  }

  ghost predicate WorldInv(w: World) {
    Inv(w.delivery.db) && RelayInv(w.delivery) && ClientInv(w.session, w.delivery.db)
  }

  lemma StartWorldInv(userLimit: nat, user: UserId, loaded: set<ConversationId>)
    ensures WorldInv(StartWorld(userLimit, user, loaded))
    ensures EndsShown(FreshBrowser(user, loaded), Start(userLimit).db)
  {
    StartInv(userLimit);
    hide Inv, RelayInv, Start;
  }

  lemma InvSoundLogs(db: Db)
    requires Inv(db)
    ensures LogsSound(db)
  {
    hide MessagesDistinct, LogsComplete;
  }

  // The backend only ever adds to what the browser relies on.
  lemma ActEvolves(d: Delivery, a: Action)
    requires Inv(d.db)
    ensures RowsEvolve(d.db, Act(d, a).db) && LogsGrow(d.db, Act(d, a).db)
  {
    hide Inv, Apply, Deliver, RowEvolves;
    match a
    case Transaction(s) =>
      ApplyEvolves(d.db, s);
    case Relaying(s) =>
      DeliverKeepsTables(d, s);
      OutboxEvolves(d.db, Deliver(d, s).db);
  }

  lemma OutboxEvolves(a: Db, b: Db)
    requires SameTables(a, b)
    ensures RowsEvolve(a, b) && LogsGrow(a, b)
  {
  }

  // The browser is only offered what the log holds.
  lemma StreamedIsLogged(w: World, step: ClientStep)
    requires RelayInv(w.delivery) && Streamed(w, step) && step.ReceiveStep?
    ensures step.event in LogOf(w.delivery.db, step.event.generation)
  {
    hide OutboxMirrorsLogs, UserStreamsInterleave, JobsInOrder, SentIsInStream, OnlyRefusedAreDead;
    var g := step.event.generation;
    assert StreamOf(w.delivery.redis, g) == LogOf(w.delivery.db, g)[..Sequence(w.delivery.redis, g)];
  }

  predicate LateCancel(w: World, m: Move) {
    m.Browsing? && LateCancelReply(w.session, w.delivery.db, m.step)
  }

  lemma NextKeepsInv(w: World, m: Move)
    requires WorldInv(w)
    ensures WorldInv(Next(w, m))
    ensures EndsShown(w.session.browser, w.delivery.db) && !LateCancel(w, m) ==>
              EndsShown(Next(w, m).session.browser, Next(w, m).delivery.db)
  {
    hide Inv, RelayInv, LogsSound, Act, StepClient, EndsShown, RowsEvolve, LogsGrow, LateCancelReply;
    var db := w.delivery.db;
    InvSoundLogs(db);
    match m
    case Backend(a) =>
      ActKeepsInv(w.delivery, a);
      ActEvolves(w.delivery, a);
      EvolutionKeepsInv(w.session, db, Act(w.delivery, a).db);
      if EndsShown(w.session.browser, db) {
        EvolutionKeepsEnds(w.session.browser, db, Act(w.delivery, a).db);
      }
    case Browsing(step) =>
      StepClientKeepsInv(w.session, db, step);
      if EndsShown(w.session.browser, db) && !LateCancelReply(w.session, db, step) {
        StepClientKeepsEnds(w.session, db, step);
      }
  }

  lemma {:induction false} ReachKeepsInv(w: World, moves: seq<Move>)
    requires WorldInv(w)
    ensures WorldInv(Reach(w, moves))
  {
    hide WorldInv, Next, EndsShown;
    if moves != [] {
      ReachKeepsInv(w, moves[..|moves| - 1]);
      NextKeepsInv(Reach(w, moves[..|moves| - 1]), moves[|moves| - 1]);
    }
  }

  // ---------- The end-to-end claims ----------

  // However events are delivered, repeated, reordered or skipped, and whatever resyncs run in between, a registered
  // message shows the fold of the first `sequence` events of its generation's log.
  lemma BrowserShowsALogPrefix(userLimit: nat, user: UserId, loaded: set<ConversationId>, moves: seq<Move>,
      g: GenerationId)
    ensures var w := Reach(StartWorld(userLimit, user, loaded), moves);
            var b, db := w.session.browser, w.delivery.db;
            g in b.views ==>
              && g in db.generations && b.views[g].sequence <= |LogOf(db, g)|
              && (b.views[g].conversation in b.messages ==>
                   BlocksOf(b, b.views[g].conversation, b.views[g].message)
                       == Fold([], LogOf(db, g)[..b.views[g].sequence]))
  {
    StartWorldInv(userLimit, user, loaded);
    ReachKeepsInv(StartWorld(userLimit, user, loaded), moves);
    var w := Reach(StartWorld(userLimit, user, loaded), moves);
    hide Reach, Inv, RelayInv, Fold, MessagesOwned, StartWorld;
    if g in w.session.browser.views {
      assert ViewTracks(w.session.browser, w.delivery.db, g);
    }
  }

  // A resync that a gap started is always answered with events, and leaves the event it started from a duplicate.
  lemma GapResyncNeedsNoSnapshot(userLimit: nat, user: UserId, loaded: set<ConversationId>, moves: seq<Move>,
      checkpoint: seq<Block>)
    ensures var w := Reach(StartWorld(userLimit, user, loaded), moves);
            var s, db := w.session, w.delivery.db;
            s.phase.RowRead? ==>
              && var g := s.phase.event.generation;
              && g in s.browser.views
              && HistorySeen(s, db, checkpoint) == EventsMode(EventsAfter(LogOf(db, g), s.phase.after))
              && var b := ApplyHistory(s.browser, g, HistorySeen(s, db, checkpoint));
                 g in b.views && b.views[g].sequence == |LogOf(db, g)| && ApplyEvent(b, s.phase.event).1.Duplicate?
  {
    StartWorldInv(userLimit, user, loaded);
    ReachKeepsInv(StartWorld(userLimit, user, loaded), moves);
    var w := Reach(StartWorld(userLimit, user, loaded), moves);
    hide Reach, RelayInv, StartWorld, LogsSound, ClientInv;
    InvSoundLogs(w.delivery.db);
    hide Inv;
    if w.session.phase.RowRead? {
      GapIsClosedFromTheLog(w.session, w.delivery.db, checkpoint);
    }
  }

  ghost predicate NoLateCancels(w: World, moves: seq<Move>) {
    forall i :: 0 <= i < |moves| ==> !LateCancel(Reach(w, moves[..i]), moves[i])
  }

  lemma {:induction false} ReachKeepsEnds(w: World, moves: seq<Move>)
    requires WorldInv(w) && EndsShown(w.session.browser, w.delivery.db) && NoLateCancels(w, moves)
    ensures EndsShown(Reach(w, moves).session.browser, Reach(w, moves).delivery.db)
  {
    hide WorldInv, Next, EndsShown, LateCancel;
    if moves != [] {
      var front := moves[..|moves| - 1];
      forall i | 0 <= i < |front| ensures !LateCancel(Reach(w, front[..i]), front[i]) {
        assert front[..i] == moves[..i];
      }
      ReachKeepsEnds(w, front);
      ReachKeepsInv(w, front);
      assert !LateCancel(Reach(w, moves[..|moves| - 1]), moves[|moves| - 1]);
      NextKeepsInv(Reach(w, front), moves[|moves| - 1]);
    }
  }

  lemma FinishedView(w: World, g: GenerationId)
    requires WorldInv(w) && DoneShown(w.session.browser, w.delivery.db, g)
    ensures var b, db := w.session.browser, w.delivery.db;
            && Terminal(db.generations[g].status) && b.views[g].sequence == |LogOf(db, g)|
            && (b.views[g].conversation in b.messages ==>
                 BlocksOf(b, b.views[g].conversation, b.views[g].message) == Fold([], LogOf(db, g)))
  {
    hide Inv, RelayInv, LogsSound, MessagesOwned, Fold, BlocksOf;
    var b, db := w.session.browser, w.delivery.db;
    InvSoundLogs(db);
    DoneNamesStatus(db, g, b.views[g].sequence - 1);
    assert ViewTracks(b, db, g);
    assert LogOf(db, g)[..|LogOf(db, g)|] == LogOf(db, g);
  }

  // A browser that has applied the done event shows the whole log.
  lemma FinishedViewShowsTheLog(userLimit: nat, user: UserId, loaded: set<ConversationId>, moves: seq<Move>, w: World,
      g: GenerationId)
    requires w == Reach(StartWorld(userLimit, user, loaded), moves) && DoneShown(w.session.browser, w.delivery.db, g)
    ensures var b, db := w.session.browser, w.delivery.db;
            && Terminal(db.generations[g].status) && b.views[g].sequence == |LogOf(db, g)|
            && (b.views[g].conversation in b.messages ==>
                 BlocksOf(b, b.views[g].conversation, b.views[g].message) == Fold([], LogOf(db, g)))
  {
    StartWorldInv(userLimit, user, loaded);
    hide Reach, WorldInv, Fold, LogOf;
    ReachKeepsInv(StartWorld(userLimit, user, loaded), moves);
    FinishedView(w, g);
  }

  // A browser that has applied the done event shows the whole log and the status that the generation ended with, unless
  // the reply to a cancel request came in after that.
  lemma FinishedViewIsFinal(userLimit: nat, user: UserId, loaded: set<ConversationId>, moves: seq<Move>, w: World,
      g: GenerationId)
    requires NoLateCancels(StartWorld(userLimit, user, loaded), moves)
    requires w == Reach(StartWorld(userLimit, user, loaded), moves) && DoneShown(w.session.browser, w.delivery.db, g)
    ensures var b, db := w.session.browser, w.delivery.db;
            && Terminal(db.generations[g].status) && b.views[g].status == db.generations[g].status
            && b.views[g].sequence == |LogOf(db, g)|
            && (b.views[g].conversation in b.messages ==>
                 BlocksOf(b, b.views[g].conversation, b.views[g].message) == Fold([], LogOf(db, g)))
  {
    StartWorldInv(userLimit, user, loaded);
    hide Reach, WorldInv, NoLateCancels, Fold, LogOf;
    ReachKeepsEnds(StartWorld(userLimit, user, loaded), moves);
    FinishedViewShowsTheLog(userLimit, user, loaded, moves, w, g);
  }
}
