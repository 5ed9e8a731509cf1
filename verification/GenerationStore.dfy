/**
 * The tables as mutable state, and the services that write them row by row: the same transactions as in Lifecycle, each
 * proved to leave exactly the rows, and to give exactly the reply, that the function there specifies.
 */
module GenerationStores {
  import opened Common
  import opened Events
  import opened AnalysisStates
  import opened Lifecycle
  import opened LifecycleProofs
  import opened LifecycleHistory

  // ---------- A closing transaction, row by row ----------

  type Closings = map<GenerationId, Closing>

  function Only(closing: Closings, done: set<GenerationId>): Closings {
    map g | g in closing && g in done :: closing[g]
  }

  // The generation rows while the transaction runs: every closing row has its terminal status, and those in `done` have
  // also been given their done event.
  function Partly(rows: map<GenerationId, Generation>, closing: Closings, done: set<GenerationId>)
    : map<GenerationId, Generation>
  {
    map g | g in rows ::
      if g in closing && g in done then ClosedRow(rows[g], closing[g])
      else if g in closing then rows[g].(status := closing[g].status, token := None)
      else rows[g]
  }

  lemma NothingDone(rows: map<GenerationId, Generation>, turns: map<GenerationId, Status>,
                    logs: map<GenerationId, seq<Payload>>, outbox: map<EventId, OutboxRow>, closing: Closings)
    ensures Only(closing, {}) == map[]
    ensures turns == CloseTurns(turns, map[]) && logs == CloseLogs(logs, rows, map[])
          && outbox == CloseOutbox(outbox, rows, map[])
  {
    forall g | g in logs ensures CloseLogs(logs, rows, map[])[g] == logs[g] {
      assert logs[g] + [] == logs[g];
    }
  }

  lemma AllDone(rows: map<GenerationId, Generation>, closing: Closings)
    ensures Only(closing, closing.Keys) == closing
    ensures Partly(rows, closing, closing.Keys) == CloseGenerations(rows, closing)
  {
  }

  lemma PartlyOne(rows: map<GenerationId, Generation>, g: GenerationId, c: Closing)
    requires g in rows
    ensures rows[g := rows[g].(status := c.status, token := None)] == Partly(rows, map[g := c], {})
  {
  }

  lemma OnlyKeys(closing: Closings, done: set<GenerationId>)
    ensures Only(closing, done).Keys == closing.Keys * done
  {
  }

  lemma PartlyRow(rows: map<GenerationId, Generation>, closing: Closings, done: set<GenerationId>, g: GenerationId)
    requires closing.Keys <= rows.Keys && g in closing && g !in done
    ensures g in Partly(rows, closing, done)
    ensures Partly(rows, closing, done)[g] == rows[g].(status := closing[g].status, token := None)
  {
  }

  lemma DoneRow(rows: map<GenerationId, Generation>, closing: Closings, done: set<GenerationId>, g: GenerationId)
    requires closing.Keys <= rows.Keys && g in closing && g !in done
    ensures var part := Partly(rows, closing, done);
            part[g := part[g].(lastSequence := part[g].lastSequence + 1)] == Partly(rows, closing, done + {g})
  {
  }

  lemma DoneTurn(turns: map<GenerationId, Status>, closing: Closings, done: set<GenerationId>, g: GenerationId)
    requires g in closing && g !in done
    ensures var part := CloseTurns(turns, Only(closing, done));
            (if g in part && part[g].Pending? then part[g := closing[g].status] else part)
                == CloseTurns(turns, Only(closing, done + {g}))
  {
  }

  lemma DoneLog(logs: map<GenerationId, seq<Payload>>, rows: map<GenerationId, Generation>, closing: Closings,
      done: set<GenerationId>, g: GenerationId)
    requires closing.Keys <= rows.Keys && g in closing && g !in done
    ensures var part := CloseLogs(logs, rows, Only(closing, done));
            part[g := (if g in part then part[g] else []) + [PayloadAfter(g, rows[g], closing[g].event)]]
            == CloseLogs(logs, rows, Only(closing, done + {g}))
  {
    var part, next := CloseLogs(logs, rows, Only(closing, done)), CloseLogs(logs, rows, Only(closing, done + {g}));
    assert g in part ==> part[g] == logs[g] + [] == logs[g];
    assert forall h :: h != g && h in closing ==> (h in Only(closing, done) <==> h in Only(closing, done + {g}));
  }

  lemma DoneOutboxRow(rows: map<GenerationId, Generation>, closing: Closings, done: set<GenerationId>, g: GenerationId)
    requires closing.Keys <= rows.Keys && g in closing && g !in done
    ensures ClosingRows(rows, Only(closing, done + {g})) ==
            ClosingRows(rows, Only(closing, done))[EventId(g, rows[g].lastSequence + 1) :=
                BuildRow(rows[g].user, PayloadAfter(g, rows[g], closing[g].event))]
  {
    hide ClosingIds, BuildRow, PayloadAfter;
  }

  lemma DoneOutbox(outbox: map<EventId, OutboxRow>, rows: map<GenerationId, Generation>, closing: Closings,
      done: set<GenerationId>, g: GenerationId)
    requires closing.Keys <= rows.Keys && g in closing && g !in done
    ensures CloseOutbox(outbox, rows, Only(closing, done))[EventId(g, rows[g].lastSequence + 1) :=
          BuildRow(rows[g].user, PayloadAfter(g, rows[g], closing[g].event))]
            == CloseOutbox(outbox, rows, Only(closing, done + {g}))
  {
    hide ClosingRows, BuildRow, PayloadAfter;
    DoneOutboxRow(rows, closing, done, g);
  }

  lemma PromotionIgnoresRows(db: Db, rows: map<GenerationId, Generation>, g: GenerationId)
    ensures PromotionReply(db.(generations := rows), g) == PromotionReply(db, g)
    ensures g in db.drafts ==> Promote(db, g) == db.(committed := Promote(db.(generations := rows), g).committed)
  {
  }

  class GenerationStore {
    const userLimit: nat
    var owners: map<ConversationId, UserId>
    var generations: map<GenerationId, Generation>
    var keys: map<(UserId, nat), GenerationId>
    var turns: map<GenerationId, Status>
    var drafts: map<GenerationId, Draft>
    var committed: map<ConversationId, Committed>
    var artifacts: map<ArtifactId, Artifact>
    var logs: map<GenerationId, seq<Payload>>
    var outbox: map<EventId, OutboxRow>

    function Rows(): Db
      reads this
    {
      Db(userLimit, owners, generations, keys, turns, drafts, committed, artifacts, logs, outbox)
    }

    constructor (userLimit: nat)
      ensures Rows() == Empty(userLimit)
    {
      this.userLimit := userLimit;
      owners, generations, keys, turns, drafts := map[], map[], map[], map[], map[];
      committed, artifacts, logs, outbox := map[], map[], map[], map[];
    }

    method CreateTurn(user: UserId, conversation: ConversationId, key: nat, requestHash: nat, id: GenerationId,
        message: MessageId)
      returns (r: CreateReply)
      modifies this
      ensures (Rows(), r) == Lifecycle.CreateTurn(old(Rows()), user, conversation, key, requestHash, id, message)
    {
      if (user, key) in keys {
        var g := keys[(user, key)];
        if g in generations && generations[g].requestHash == requestHash {
          return Replayed(g);
        }
        return KeyReused;
      }
      if conversation !in owners || owners[conversation] != user {
        return NoConversation;
      }
      if exists g :: g in generations && Active(generations[g].status) && generations[g].conversation == conversation {
        assert exists g :: g in generations && ActiveIn(Rows(), g) && generations[g].conversation == conversation;
        return ConversationActive;
      }
      var active := set g | g in generations && Active(generations[g].status) && generations[g].user == user;
      assert active == ActiveOf(Rows(), user);
      if |active| >= userLimit {
        return TooManyActive;
      }
      if id in generations || exists g :: g in generations && generations[g].message == message {
        return Aborted;
      }
      generations := generations[id := Generation(user, conversation, message, key, requestHash, Pending, None, 0)];
      keys := keys[(user, key) := id];
      turns := turns[id := Pending];
      logs := logs[id := []];
      return Created(id);
    }

    method Cancel(user: UserId, g: GenerationId) returns (found: bool)
      modifies this
      ensures (Rows(), found) == Lifecycle.Cancel(old(Rows()), user, g)
    {
      found := g in generations && Active(generations[g].status) && generations[g].user == user;
      if found {
        generations := generations[g := generations[g].(status := CancelRequested)];
      }
    }

    /** The first and the last statement of claim; the worker is preempted between any two. */
    method Claim(g: GenerationId, t: Token) returns (claimed: bool)
      modifies this
      ensures (Rows(), claimed) == Lifecycle.Claim(old(Rows()), g, t)
    {
      claimed := g in generations && generations[g].status.Pending? && generations[g].token.None?;
      if claimed {
        generations := generations[g := generations[g].(status := Starting, token := Some(t))];
      }
    }

    method MarkRunning(g: GenerationId, t: Token)
      modifies this
      ensures Rows() == Lifecycle.MarkRunning(old(Rows()), g, t)
    {
      if g in generations && generations[g].token == Some(t) && generations[g].status.Starting? {
        generations := generations[g := generations[g].(status := Running)];
      }
    }

    method EnqueueGenerationEvent(g: GenerationId, e: Event)
      requires g in generations
      modifies this
      ensures Rows() == Lifecycle.Enqueue(old(Rows()), g, e)
    {
      var row := generations[g];
      generations := generations[g := row.(lastSequence := row.lastSequence + 1)];
      var payload := BuildPayload(g, row.conversation, row.message, generations[g].lastSequence, e);
      logs := logs[g := (if g in logs then logs[g] else []) + [payload]];
      outbox := outbox[payload.eventId := BuildRow(row.user, payload)];
    }

    method Publish(g: GenerationId, t: Token, e: WorkerEvent) returns (owned: bool)
      modifies this
      ensures (Rows(), owned) == Lifecycle.Publish(old(Rows()), g, t, e)
    {
      owned := Owned(Rows(), g, t);
      if owned {
        EnqueueGenerationEvent(g, e);
      }
    }

    method Begin(g: GenerationId, t: Token, datasource: nat, question: string, memories: seq<Memory>, freshTask: nat)
      returns (r: BeginReply)
      modifies this
      ensures (Rows(), r) == Lifecycle.Begin(old(Rows()), g, t, datasource, question, memories, freshTask)
    {
      if !Owned(Rows(), g, t) {
        return OwnershipLost;
      }
      if g in drafts {
        return Begun(drafts[g].state);
      }
      var c := generations[g].conversation;
      var base := 0;
      var previous := None;
      if c in committed {
        base, previous := committed[c].revision, Some(committed[c].state);
      }
      var state := BeginState(previous, base, c, datasource, question, memories, freshTask);
      drafts := drafts[g := Draft(c, base, state.revision, state)];
      return Begun(state);
    }

    method Save(g: GenerationId, t: Token, expected: nat, state: AnalysisState) returns (r: SaveReply)
      modifies this
      ensures (Rows(), r) == Lifecycle.Save(old(Rows()), g, t, expected, state)
    {
      if !Owned(Rows(), g, t) {
        return SaveOwnershipLost;
      }
      if g !in drafts || drafts[g].revision != expected || state.revision <= drafts[g].base {
        return SaveConflict;
      }
      drafts := drafts[g := drafts[g].(revision := state.revision, state := state)];
      return Saved;
    }

    /** promoteAnalysisDraft, inside the transaction of finalize. */
    method PromoteAnalysisDraft(g: GenerationId) returns (r: FinalizeReply)
      modifies this`committed
      ensures r == PromotionReply(old(Rows()), g) && (r.Finalized? ==> g in drafts)
      ensures committed == if r.Finalized? then Promote(old(Rows()), g).committed else old(committed)
    {
      if g !in drafts {
        return DraftMissing;
      }
      var d := drafts[g];
      var current := if d.conversation in committed then committed[d.conversation].revision else 0;
      if current != d.base {
        return StateConflict;
      }
      committed := committed[d.conversation := Committed(d.revision, d.state, g)];
      return Finalized;
    }

    method FinishOne(g: GenerationId, c: Closing)
      requires g in generations
      modifies this
      ensures Rows() == old(Rows()).(
                generations := old(generations)[g := old(generations)[g].(lastSequence :=
                    old(generations)[g].lastSequence + 1)],
                turns := if g in old(turns) && old(turns)[g].Pending? then old(turns)[g := c.status] else old(turns),
                logs := old(logs)[g := LogOf(old(Rows()), g) + [PayloadAfter(g, old(generations)[g], c.event)]],
                outbox := old(outbox)[EventId(g, old(generations)[g].lastSequence + 1) :=
                                        BuildRow(old(generations)[g].user,
                                            PayloadAfter(g, old(generations)[g], c.event))])
    {
      if g in turns && turns[g].Pending? {
        turns := turns[g := c.status];
      }
      EnqueueGenerationEvent(g, c.event);
    }

    /** UPDATE conversation_turn and the done event, for the rows that an UPDATE of generation has returned. */
    method FinishRows(closing: Closings, ghost before: Db)
      requires closing.Keys <= before.generations.Keys
      requires Rows() == before.(generations := Partly(before.generations, closing, {}))
      modifies this
      ensures Rows() == Close(before, closing)
    {
      hide CloseTurns, CloseLogs, CloseOutbox, Partly, BuildRow, Only;
      var rest := closing.Keys;
      ghost var done := {};
      NothingDone(before.generations, before.turns, before.logs, before.outbox, closing);
      while rest != {}
        invariant rest + done == closing.Keys && rest !! done
        invariant generations == Partly(before.generations, closing, done)
        invariant Only(closing, done).Keys <= before.generations.Keys
        invariant turns == CloseTurns(before.turns, Only(closing, done))
        invariant logs == CloseLogs(before.logs, before.generations, Only(closing, done))
        invariant outbox == CloseOutbox(before.outbox, before.generations, Only(closing, done))
        invariant Rows() == before.(generations := generations, turns := turns, logs := logs, outbox := outbox)
        decreases rest
      {
        var g :| g in rest;
        OnlyKeys(closing, done + {g});
        PartlyRow(before.generations, closing, done, g);
        DoneRow(before.generations, closing, done, g);
        DoneTurn(before.turns, closing, done, g);
        DoneLog(before.logs, before.generations, closing, done, g);
        DoneOutbox(before.outbox, before.generations, closing, done, g);
        FinishOne(g, closing[g]);
        rest := rest - {g};
        done := done + {g};
      }
      AllDone(before.generations, closing);
      assert done == closing.Keys;
    }

    /** The rest of a completing transaction: promotion, then turn and event, or a rollback of everything. */
    method PromoteAndFinish(g: GenerationId, before: map<GenerationId, Generation>, closing: Closings,
        ghost start: Db) returns (r: FinalizeReply)
      requires closing.Keys <= before.Keys && before == start.generations
      requires Rows() == start.(generations := Partly(before, closing, {}))
      modifies this
      ensures r == PromotionReply(start, g)
      ensures Rows() == if r.Finalized? then Close(Promote(start, g), closing) else start
    {
      hide Close, Partly, PromotionReply, Promote;
      r := PromoteAnalysisDraft(g);
      PromotionIgnoresRows(start, Partly(before, closing, {}), g);
      if r.Finalized? {
        FinishRows(closing, Promote(start, g));
      } else {
        generations := before; // the transaction rolls back
      }
    }

    method Finalize(g: GenerationId, writer: Option<Token>, status: Status) returns (r: FinalizeReply)
      requires Terminal(status)
      modifies this
      ensures (Rows(), r) == Lifecycle.Finalize(old(Rows()), g, writer, status)
    {
      hide Close, Partly, TerminalEvent;
      if !MayFinalize(Rows(), g, writer, status) {
        return NotUpdated;
      }
      var before := generations;
      var closing := map[g := Closing(status, TerminalEvent(status))];
      generations := generations[g := generations[g].(status := status, token := None)];
      PartlyOne(before, g, closing[g]);
      assert Rows() == old(Rows()).(generations := Partly(before, closing, {}));
      if status.Completed? {
        r := PromoteAndFinish(g, before, closing, old(Rows()));
      } else {
        FinishRows(closing, old(Rows()));
        r := Finalized;
      }
    }

    method FailQueued(g: GenerationId)
      modifies this
      ensures Rows() == Lifecycle.FailQueued(old(Rows()), g)
    {
      if g in generations && generations[g].status.Pending? && generations[g].token.None? {
        var closing := map[g := Closing(Failed, TerminalEvent(Failed))];
        generations := generations[g := generations[g].(status := Failed)];
        assert generations == Partly(old(generations), closing, {});
        FinishRows(closing, old(Rows()));
      }
    }

    method FailStale(aged: set<GenerationId>)
      modifies this
      ensures Rows() == Lifecycle.FailStale(old(Rows()), aged)
    {
      var closing := StaleClosing(Rows(), aged);
      generations := Partly(generations, closing, {});
      FinishRows(closing, old(Rows()));
    }

    method AddConversation(c: ConversationId, user: UserId)
      modifies this`owners
      ensures Rows() == NewConversation(old(Rows()), c, user)
    {
      if c !in owners {
        owners := owners[c := user];
      }
    }

    /** writeArtifact: the insertion of evidence, under the fence. */
    method WriteArtifact(g: GenerationId, t: Token, id: ArtifactId, a: Artifact) returns (written: bool)
      modifies this`artifacts
      ensures (Rows(), written) == Lifecycle.WriteArtifact(old(Rows()), g, t, id, a)
    {
      written := Owned(Rows(), g, t) && id !in artifacts;
      if written {
        artifacts := artifacts[id := a];
      }
    }

    /** Any transaction: the rows stay sound, and only move forward. */
    method Perform(s: Step)
      requires Inv(Rows())
      modifies this
      ensures Rows() == Apply(old(Rows()), s) && Inv(Rows()) && Evolves(old(Rows()), Rows())
    {
      ApplyKeepsInv(Rows(), s);
      ApplyEvolves(Rows(), s);
      hide Inv, Evolves, Lifecycle.CreateTurn, Lifecycle.Claim, Lifecycle.MarkRunning, Lifecycle.Cancel,
          Lifecycle.Publish, Lifecycle.Begin,
        Lifecycle.Save, Lifecycle.WriteArtifact, Lifecycle.Finalize, Lifecycle.FailQueued, Lifecycle.FailStale,
            NewConversation;
      match s {
        case NewConversationStep(c, u) => AddConversation(c, u);
        case CreateTurnStep(u, c, k, h, id, m) => var _ := CreateTurn(u, c, k, h, id, m);
        case ClaimStep(id, t) => var _ := Claim(id, t);
        case MarkRunningStep(id, t) => MarkRunning(id, t);
        case CancelStep(u, id) => var _ := Cancel(u, id);
        case PublishStep(id, t, e) => var _ := Publish(id, t, e);
        case BeginStep(id, t, ds, q, ms, task) => var _ := Begin(id, t, ds, q, ms, task);
        case SaveStep(id, t, expected, state) => var _ := Save(id, t, expected, state);
        case ArtifactStep(id, t, aid, a) => var _ := WriteArtifact(id, t, aid, a);
        case FinalizeStep(id, w, status) => var _ := Finalize(id, w, status);
        case FailQueuedStep(id) => FailQueued(id);
        case FailStaleStep(aged) => FailStale(aged);
      }
    }
  }
}
