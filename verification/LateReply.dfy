/**
 * A run in which the reply to a cancel request comes too late: the browser has seen the end of the generation already,
 * and shows the reply instead (apps/web/src/stores/chat.ts).
 */
module LateReply {
  import opened Common
  import opened Events
  import opened Lifecycle
  import opened Relay
  import opened DeliveryRuns
  import opened Blocks
  import opened Client
  import opened ClientProofs
  import opened EndToEnd

  // A turn is asked and cancelled before a worker takes it; its done event reaches the browser before the reply to the
  // cancel request does.
  function LateReplyRun(u: UserId, c: ConversationId, g: GenerationId, m: MessageId, t: Token): seq<Move> {
    [Backend(Transaction(NewConversationStep(c, u))), Backend(Transaction(CreateTurnStep(u, c, 0, 0, g, m))),
     Browsing(RegisterStep(g)),
     Backend(Transaction(CancelStep(u, g))), Backend(Transaction(FinalizeStep(g, None, Cancelled))),
     Backend(Relaying(LockStep(t, {EventId(g, 1)}, {}))), Backend(Relaying(SendStep(t, EventId(g, 1), false))),
     Browsing(ReceiveStep(CancelledPayload(c, g, m))), Browsing(CancelClickedStep(g))]
  }

  function CancelledPayload(c: ConversationId, g: GenerationId, m: MessageId): Payload {
    BuildPayload(g, c, m, 1, TerminalEvent(Cancelled))
  }

  ghost predicate AskedTurn(db: Db, u: UserId, c: ConversationId, g: GenerationId, m: MessageId) {
    && db.generations == map[g := Generation(u, c, m, 0, 0, Pending, None, 0)]
    && db.logs == map[g := []] && db.outbox == map[]
  }

  ghost predicate CancelRequestedTurn(db: Db, u: UserId, c: ConversationId, g: GenerationId, m: MessageId) {
    && db.generations == map[g := Generation(u, c, m, 0, 0, CancelRequested, None, 0)]
    && db.logs == map[g := []] && db.outbox == map[]
  }

  ghost predicate CancelledTurn(db: Db, u: UserId, c: ConversationId, g: GenerationId, m: MessageId) {
    && g in db.generations && db.generations[g] == Generation(u, c, m, 0, 0, Cancelled, None, 1)
    && LogOf(db, g) == [CancelledPayload(c, g, m)]
    && db.outbox.Keys == {EventId(g, 1)} && db.outbox[EventId(g, 1)] == BuildRow(u, CancelledPayload(c, g, m))
  }

  lemma TurnIsAsked(userLimit: nat, u: UserId, c: ConversationId, g: GenerationId, m: MessageId)
    requires userLimit >= 1
    ensures AskedTurn(Apply(Apply(Empty(userLimit), NewConversationStep(c, u)), CreateTurnStep(u, c, 0, 0, g, m)),
                u, c, g, m)
  {
    assert ActiveOf(NewConversation(Empty(userLimit), c, u), u) == {};
  }

  lemma CancelIsAccepted(db: Db, u: UserId, c: ConversationId, g: GenerationId, m: MessageId)
    requires AskedTurn(db, u, c, g, m)
    ensures CancelRequestedTurn(Apply(db, CancelStep(u, g)), u, c, g, m)
  {
  }

  lemma OneClosingRow(generations: map<GenerationId, Generation>, g: GenerationId, k: Closing)
    requires g in generations
    ensures var n := generations[g].lastSequence + 1;
            var rows := CloseOutbox(map[], generations, map[g := k]);
            && rows.Keys == {EventId(g, n)}
            && rows[EventId(g, n)] == BuildRow(generations[g].user, PayloadAfter(g, generations[g], k.event))
  {
    hide BuildRow, PayloadAfter;
    var closing := map[g := k];
    forall id: EventId ensures id in ClosingIds(generations, closing) <==> id == EventId(g,
        generations[g].lastSequence + 1) {
      assert id == EventId(id.generation, id.draw);
    }
    assert CloseOutbox(map[], generations, closing).Keys == ClosingIds(generations, closing);
  }

  lemma OneClosed(db: Db, g: GenerationId, k: Closing)
    requires g in db.generations
    ensures var n := Close(db, map[g := k]);
            && g in n.generations && n.generations[g] == ClosedRow(db.generations[g], k)
            && LogOf(n, g) == LogOf(db, g) + [PayloadAfter(g, db.generations[g], k.event)]
            && n.outbox == CloseOutbox(db.outbox, db.generations, map[g := k])
  {
    hide CloseOutbox, CloseTurns, PayloadAfter, ClosedRow;
  }

  lemma TurnIsCancelled(db: Db, u: UserId, c: ConversationId, g: GenerationId, m: MessageId)
    requires CancelRequestedTurn(db, u, c, g, m)
    ensures CancelledTurn(Apply(db, FinalizeStep(g, None, Cancelled)), u, c, g, m)
  {
    hide Close, TerminalEvent, BuildRow, CloseOutbox;
    var k := Closing(Cancelled, TerminalEvent(Cancelled));
    assert MayFinalize(db, g, None, Cancelled);
    OneClosed(db, g, k);
    OneClosingRow(db.generations, g, k);
  }

  lemma EndIsStreamed(d: Delivery, u: UserId, c: ConversationId, g: GenerationId, m: MessageId, t: Token)
    requires CancelledTurn(d.db, u, c, g, m) && NothingSent(d) && IsSafeInteger(u)
    ensures var n := Deliver(Deliver(d, LockStep(t, {EventId(g, 1)}, {})), SendStep(t, EventId(g, 1), false));
            && n.db.generations == d.db.generations && n.db.logs == d.db.logs
            && StreamOf(n.redis, g) == [CancelledPayload(c, g, m)]
  {
    hide TerminalEvent;
    var id := EventId(g, 1);
    assert id in d.db.outbox && |{id}| == 1;
    assert MayLock(d.db.outbox, {id}, {});
    var locked := Deliver(d, LockStep(t, {id}, {}));
    assert (t, id) in Batch(t, {id});
    assert PassesPublishChecks(id, locked.db.outbox[id]);
  }

  lemma LateReplyIsShown(s: Session, db: Db, u: UserId, c: ConversationId, g: GenerationId, m: MessageId)
    requires g in db.generations && db.generations[g].user == u && LogOf(db, g) == [CancelledPayload(c, g, m)]
    requires JustRegistered(s, u, c, g, m)
    ensures var n := StepClient(s, db, ReceiveStep(CancelledPayload(c, g, m)));
            StepClient(n, db, CancelClickedStep(g)).browser.views == map[g := View(c, m, CancelRequested, 1)]
  {
    hide ApplyBlock;
  }

  lemma ReachOne(w: World, moves: seq<Move>, m: Move)
    ensures Reach(w, moves + [m]) == Next(Reach(w, moves), m)
  {
    hide Next;
    assert (moves + [m])[..|moves|] == moves;
  }

  lemma NineMoves(w: World, r: seq<Move>)
    requires |r| == 9
    ensures Reach(w, r[..2]) == Next(Next(w, r[0]), r[1])
    ensures Reach(w, r[..5]) == Next(Next(Next(Reach(w, r[..2]), r[2]), r[3]), r[4])
    ensures Reach(w, r[..7]) == Next(Next(Reach(w, r[..5]), r[5]), r[6])
    ensures Reach(w, r[..8]) == Next(Reach(w, r[..7]), r[7]) && Reach(w, r) == Next(Reach(w, r[..8]), r[8])
  {
    hide Next;
    forall i | 0 <= i < 9 ensures Reach(w, r[..i + 1]) == Next(Reach(w, r[..i]), r[i]) {
      assert r[..i + 1] == r[..i] + [r[i]];
      ReachOne(w, r[..i], r[i]);
    }
    assert r[..9] == r && Reach(w, r[..0]) == w;
    assert r[..0 + 1] == r[..1] && r[..1 + 1] == r[..2] && r[..2 + 1] == r[..3] && r[..3 + 1] == r[..4];
    assert r[..4 + 1] == r[..5] && r[..5 + 1] == r[..6] && r[..6 + 1] == r[..7] && r[..7 + 1] == r[..8];
  }

  ghost predicate NothingSent(d: Delivery) {
    d.redis == Redis(map[], map[], map[], {}) && d.jobs == map[]
  }

  ghost predicate JustRegistered(s: Session, u: UserId, c: ConversationId, g: GenerationId, m: MessageId) {
    s.phase.Idle? && s.browser.user == u && s.browser.views == map[g := View(c, m, Pending, 0)]
  }

  lemma AskingMoves(userLimit: nat, u: UserId, c: ConversationId, g: GenerationId, m: MessageId, r: seq<Move>, w: World)
    requires userLimit >= 1 && |r| == 9 && r[0] == Backend(Transaction(NewConversationStep(c, u)))
    requires r[1] == Backend(Transaction(CreateTurnStep(u, c, 0, 0, g, m)))
    requires w == Next(Next(StartWorld(userLimit, u, {c}), r[0]), r[1])
    ensures AskedTurn(w.delivery.db, u, c, g, m) && NothingSent(w.delivery)
    ensures w.session == Session(FreshBrowser(u, {c}), Idle)
  {
    hide Apply, AskedTurn;
    TurnIsAsked(userLimit, u, c, g, m);
  }

  lemma RegisteringMove(w: World, u: UserId, c: ConversationId, g: GenerationId, m: MessageId)
    requires AskedTurn(w.delivery.db, u, c, g, m) && w.session == Session(FreshBrowser(u, {c}), Idle)
    ensures var n := Next(w, Browsing(RegisterStep(g)));
            n.delivery == w.delivery && JustRegistered(n.session, u, c, g, m)
  {
  }

  lemma CancellingMoves(w: World, u: UserId, c: ConversationId, g: GenerationId, m: MessageId, n: World)
    requires AskedTurn(w.delivery.db, u, c, g, m)
    requires n == Next(Next(w, Backend(Transaction(CancelStep(u, g)))),
                     Backend(Transaction(FinalizeStep(g, None, Cancelled))))
    ensures CancelledTurn(n.delivery.db, u, c, g, m)
    ensures n.session == w.session && (NothingSent(w.delivery) ==> NothingSent(n.delivery))
  {
    hide Apply, AskedTurn, CancelRequestedTurn, CancelledTurn;
    CancelIsAccepted(w.delivery.db, u, c, g, m);
    TurnIsCancelled(Apply(w.delivery.db, CancelStep(u, g)), u, c, g, m);
  }

  ghost predicate EndStreamed(w: World, u: UserId, c: ConversationId, g: GenerationId, m: MessageId) {
    var db := w.delivery.db;
    && g in db.generations && db.generations[g] == Generation(u, c, m, 0, 0, Cancelled, None, 1)
    && LogOf(db, g) == [CancelledPayload(c, g, m)]
    && StreamOf(w.delivery.redis, g) == [CancelledPayload(c, g, m)]
  }

  lemma DeliveringMoves(w: World, u: UserId, c: ConversationId, g: GenerationId, m: MessageId, t: Token, n: World)
    requires CancelledTurn(w.delivery.db, u, c, g, m) && NothingSent(w.delivery) && IsSafeInteger(u)
    requires n == Next(Next(w, Backend(Relaying(LockStep(t, {EventId(g, 1)}, {})))),
                     Backend(Relaying(SendStep(t, EventId(g, 1), false))))
    ensures EndStreamed(n, u, c, g, m) && n.session == w.session
  {
    hide Deliver;
    EndIsStreamed(w.delivery, u, c, g, m, t);
  }

  lemma LateReplyMoves(w: World, u: UserId, c: ConversationId, g: GenerationId, m: MessageId, n: World)
    requires EndStreamed(w, u, c, g, m) && JustRegistered(w.session, u, c, g, m)
    requires n == Next(Next(w, Browsing(ReceiveStep(CancelledPayload(c, g, m)))), Browsing(CancelClickedStep(g)))
    ensures var b, db := n.session.browser, n.delivery.db;
            && DoneShown(b, db, g) && db.generations[g].status == Cancelled && b.views[g].status == CancelRequested
  {
    hide StepClient;
    LateReplyIsShown(w.session, w.delivery.db, u, c, g, m);
  }

  // So the status that a browser shows after the end may be wrong: here the generation is cancelled and its done event
  // was seen, and yet the browser shows that the cancel is still requested.
  lemma LateCancelReplyIsReachable(userLimit: nat, u: UserId, c: ConversationId, g: GenerationId, m: MessageId,
      t: Token)
    requires userLimit >= 1 && IsSafeInteger(u)
    ensures var w := Reach(StartWorld(userLimit, u, {c}), LateReplyRun(u, c, g, m, t));
            var b, db := w.session.browser, w.delivery.db;
            && DoneShown(b, db, g) && db.generations[g].status == Cancelled
            && b.views[g].status == CancelRequested && !EndsShown(b, db)
  {
    var w0, r := StartWorld(userLimit, u, {c}), LateReplyRun(u, c, g, m, t);
    hide Next, Reach, StartWorld, DoneShown, AskedTurn, CancelledTurn, EndStreamed, NothingSent, JustRegistered,
        FreshBrowser;
    NineMoves(w0, r);
    var w2, w5, w7 := Reach(w0, r[..2]), Reach(w0, r[..5]), Reach(w0, r[..7]);
    AskingMoves(userLimit, u, c, g, m, r, w2);
    RegisteringMove(w2, u, c, g, m);
    CancellingMoves(Next(w2, r[2]), u, c, g, m, w5);
    DeliveringMoves(w5, u, c, g, m, t, w7);
    LateReplyMoves(w7, u, c, g, m, Reach(w0, r));
  }
}
