/**
 * One relay process over the outbox table and Redis: the publish script key by key, and dispatch with its batch, its
 * per-row try/catch and its flags. A dispatch that nothing interrupts is proved to be a run of the relay steps, so
 * everything shown there about interleaved steps holds of it too.
 */
module OutboxRelays {
  import opened Common
  import opened Events
  import opened Relay
  import opened DeliveryRuns
  import opened GenerationStores

  class RedisStore {
    var sequences: map<GenerationId, nat>
    var streams: map<GenerationId, seq<Payload>>
    var userStreams: map<UserId, seq<Payload>>
    var dedupe: set<EventId>

    function View(): Redis
      reads this
    {
      Redis(sequences, streams, userStreams, dedupe)
    }

    // PUBLISH_EVENT_SCRIPT.
    method PublishEvent(user: UserId, g: GenerationId, id: EventId, p: Payload)
      modifies this
      ensures View() == PublishScript(old(View()), user, g, id, p)
    {
      if id in dedupe {
        return;
      }
      var last := if g in sequences then sequences[g] else 0;
      if p.sequence <= last {
        return;
      }
      streams := streams[g := (if g in streams then streams[g] else []) + [p]];
      userStreams := userStreams[user := (if user in userStreams then userStreams[user] else []) + [p]];
      sequences := sequences[g := p.sequence];
      dedupe := dedupe + {id};
    }
  }

  // ---------- What a dispatch does, as relay steps ----------

  // How the calls that one row makes come out: all well, the script's reply lost, the row lookup or Redis failing
  // before the script, and the marking transaction failing before or after it commits.
  datatype Reply = Delivered | ScriptReplyLost | Unreachable | MarkFailed | MarkReplyLost

  // How the statement that records a failed row comes out. An error in it is caught outside the loop, so it ends the
  // batch whether it committed or not.
  datatype Recording = Recorded | NotRecorded | RecordingReplyLost

  datatype RowTurn = RowTurn(reply: Reply, recording: Recording)

  // The same for the locking statement, which comes before the loop.
  datatype Locking = GotRows | NothingLocked | LockingReplyLost

  // The payload is validated before anything is called, so a refused row has no other outcome.
  function RowSteps(token: Token, id: EventId, valid: bool, reply: Reply): seq<RelayStep> {
    if !valid then [SendStep(token, id, false)]
    else
      match reply
      case Delivered => [SendStep(token, id, false), MarkStep(token, id)]
      case ScriptReplyLost => [SendStep(token, id, true)]
      case Unreachable => [FailStep(token, id)]
      case MarkFailed => [SendStep(token, id, false), FailStep(token, id)]
      case MarkReplyLost => [SendStep(token, id, false), MarkStep(token, id), FailStep(token, id)]
  }

  // What a row's turn amounts to when its failure could not be recorded.
  function UnrecordedSteps(token: Token, id: EventId, valid: bool, reply: Reply): seq<RelayStep> {
    if !valid then []
    else
      match reply
      case Delivered => []
      case Unreachable => []
      case ScriptReplyLost => [SendStep(token, id, false)]
      case MarkFailed => [SendStep(token, id, false)]
      case MarkReplyLost => [SendStep(token, id, false), MarkStep(token, id)]
  }

  // The relay forgets the rest of a batch that breaks off, and leaves it locked.
  function BrokenSteps(token: Token, id: EventId, valid: bool, turn: RowTurn): seq<RelayStep> {
    (if turn.recording.RecordingReplyLost? then RowSteps(token, id, valid, turn.reply)
        else UnrecordedSteps(token, id, valid, turn.reply))
    + [CrashStep(token)]
  }

  function TurnOf(turns: map<EventId, RowTurn>, id: EventId): RowTurn {
    if id in turns then turns[id] else RowTurn(Delivered, Recorded)
  }

  predicate Valid(outbox: map<EventId, OutboxRow>, id: EventId) {
    id in outbox && PassesPublishChecks(id, outbox[id])
  }

  predicate Breaks(valid: bool, turn: RowTurn) {
    !(valid && turn.reply.Delivered?) && !turn.recording.Recorded?
  }

  function StepsFor(outbox: map<EventId, OutboxRow>, token: Token, id: EventId, turns: map<EventId, RowTurn>)
    : seq<RelayStep>
  {
    RowSteps(token, id, Valid(outbox, id), TurnOf(turns, id).reply)
  }

  // The first row that breaks the batch off; the number of rows if there is none.
  function FirstBreak(outbox: map<EventId, OutboxRow>, rows: seq<EventId>, turns: map<EventId, RowTurn>): (k: nat)
    ensures k <= |rows|
    ensures k < |rows| ==> Breaks(Valid(outbox, rows[k]), TurnOf(turns, rows[k]))
    ensures forall j :: 0 <= j < k ==> !Breaks(Valid(outbox, rows[j]), TurnOf(turns, rows[j]))
  {
    if rows == [] || Breaks(Valid(outbox, rows[0]), TurnOf(turns, rows[0])) then 0
        else 1 + FirstBreak(outbox, rows[1..], turns)
  }

  function BatchSteps(outbox: map<EventId, OutboxRow>, token: Token, rows: seq<EventId>, turns: map<EventId, RowTurn>)
    : seq<RelayStep>
  {
    if rows == [] then []
    else BatchSteps(outbox, token, rows[..|rows| - 1], turns) + StepsFor(outbox, token, rows[|rows| - 1], turns)
  }

  // The first candidates in creation order.
  function FirstCandidates(outbox: map<EventId, OutboxRow>, order: seq<EventId>, expired: set<EventId>,
      limit: nat): (chosen: seq<EventId>)
    ensures |chosen| <= limit
    ensures forall id :: id in chosen ==> id in order && Candidate(outbox, id, expired)
  {
    if order == [] || limit == 0 then []
    else if Candidate(outbox, order[0], expired) then [order[0]]
        + FirstCandidates(outbox, order[1..], expired, limit - 1)
    else FirstCandidates(outbox, order[1..], expired, limit)
  }

  // A batch: candidates in creation order, none passed over, and twenty of them or all there are.
  ghost predicate BatchOf(outbox: map<EventId, OutboxRow>, order: seq<EventId>, expired: set<EventId>, limit: nat,
      rows: seq<EventId>) {
    exists ps :: BatchAt(outbox, order, expired, limit, rows, ps)
  }

  ghost predicate BatchAt(outbox: map<EventId, OutboxRow>, order: seq<EventId>, expired: set<EventId>, limit: nat,
      rows: seq<EventId>, ps: seq<nat>) {
    && Picked(order, rows, ps) && |rows| <= limit
    && (forall k :: k in ps ==> Candidate(outbox, order[k], expired))
    && (forall k, p :: 0 <= k < p && p in ps && Candidate(outbox, order[k], expired) ==> k in ps)
    && (|rows| == limit || forall k :: 0 <= k < |order| && Candidate(outbox, order[k], expired) ==> k in ps)
  }

  lemma {:induction false} FirstCandidatesAreABatch(outbox: map<EventId, OutboxRow>, order: seq<EventId>,
      expired: set<EventId>, limit: nat) returns (ps: seq<nat>)
    ensures BatchAt(outbox, order, expired, limit, FirstCandidates(outbox, order, expired, limit), ps)
  {
    if order == [] || limit == 0 {
      ps := [];
    } else {
      var rest, take := order[1..], Candidate(outbox, order[0], expired);
      var left: nat := if take then limit - 1 else limit;
      var qs := FirstCandidatesAreABatch(outbox, rest, expired, left);
      var rows := FirstCandidates(outbox, rest, expired, left);
      assert FirstCandidates(outbox, order, expired, limit) == (if take then [order[0]] else []) + rows;
      hide FirstCandidates, BatchAt, Candidate;
      ps := OneMoreInBatch(outbox, order, expired, limit, rows, qs);
    }
  }

  lemma FirstTwenty(outbox: map<EventId, OutboxRow>, order: seq<EventId>, expired: set<EventId>)
    ensures BatchOf(outbox, order, expired, 20, FirstCandidates(outbox, order, expired, 20))
  {
    hide BatchAt, FirstCandidates;
    var ps := FirstCandidatesAreABatch(outbox, order, expired, 20);
  }

  lemma OneMoreInBatch(outbox: map<EventId, OutboxRow>, order: seq<EventId>, expired: set<EventId>, limit: nat,
      rows: seq<EventId>, ps: seq<nat>) returns (qs: seq<nat>)
    requires order != [] && limit > 0
    requires BatchAt(outbox, order[1..], expired, if Candidate(outbox, order[0], expired) then limit - 1 else limit,
          rows, ps)
    ensures BatchAt(outbox, order, expired, limit,
                (if Candidate(outbox, order[0], expired) then [order[0]] else []) + rows, qs)
  {
    hide Candidate;
    var rest, take := order[1..], Candidate(outbox, order[0], expired);
    qs := PickMore(order[0], rest, rows, ps, take);
    assert [order[0]] + rest == order;
    PickedWithin(rest, rows, ps);
    PickedWithin(order, (if take then [order[0]] else []) + rows, qs);
    hide Picked;
    forall k | 0 < k < |order| ensures order[k] == rest[k - 1] && (k in qs <==> k - 1 in ps) {
      assert (k - 1) + 1 == k;
    }
  }

  function Elements(rows: seq<EventId>): (ids: set<EventId>)
    ensures |ids| <= |rows|
    ensures forall id :: id in ids <==> id in rows
  {
    if rows == [] then {} else Elements(rows[..|rows| - 1]) + {rows[|rows| - 1]}
  }

  // The rows up to a break, and the break.
  function LoopSteps(outbox: map<EventId, OutboxRow>, token: Token, rows: seq<EventId>, turns: map<EventId, RowTurn>)
    : seq<RelayStep>
  {
    var k := FirstBreak(outbox, rows, turns);
    BatchSteps(outbox, token, rows[..k], turns)
    + if k < |rows| then BrokenSteps(token, rows[k], Valid(outbox, rows[k]), TurnOf(turns, rows[k])) else []
  }

  function DispatchSteps(outbox: map<EventId, OutboxRow>, token: Token, order: seq<EventId>, expired: set<EventId>,
      locking: Locking,
                         turns: map<EventId, RowTurn>): seq<RelayStep>
  {
    var chosen := FirstCandidates(outbox, order, expired, 20);
    match locking
    case NothingLocked => []
    case LockingReplyLost => [LockStep(token, Elements(chosen), expired), CrashStep(token)]
    case GotRows => [LockStep(token, Elements(chosen), expired)] + LoopSteps(outbox, token, chosen, turns)
  }

  predicate NoRepeats(rows: seq<EventId>) {
    forall i, j :: 0 <= i < j < |rows| ==> rows[i] != rows[j]
  }

  lemma {:induction false} CandidatesDoNotRepeat(outbox: map<EventId, OutboxRow>, order: seq<EventId>,
      expired: set<EventId>, limit: nat)
    requires NoRepeats(order)
    ensures NoRepeats(FirstCandidates(outbox, order, expired, limit))
  {
    hide Candidate;
    if order != [] && limit > 0 {
      CandidatesDoNotRepeat(outbox, order[1..], expired, limit - 1);
      CandidatesDoNotRepeat(outbox, order[1..], expired, limit);
    }
  }

  // Rows still waiting for their turn in the loop.
  predicate Waiting(d: Delivery, token: Token, rows: seq<EventId>) {
    forall id :: id in rows ==>
      id in d.db.outbox && !d.db.outbox[id].published && (token, id) in d.jobs && d.jobs[(token, id)].Locked?
  }

  lemma Single(d: Delivery, a: RelayStep)
    ensures Deliveries(d, [a]) == Deliver(d, a)
  {
    assert [a][1..] == [];
  }

  lemma Unfold(d: Delivery, a: RelayStep, b: RelayStep, c: RelayStep)
    ensures Deliveries(d, [a, b]) == Deliver(Deliver(d, a), b)
    ensures Deliveries(d, [a, b, c]) == Deliver(Deliver(Deliver(d, a), b), c)
  {
    hide Deliver, Deliveries;
    Single(d, a);
    Single(Deliver(d, a), b);
    Single(Deliver(Deliver(d, a), b), c);
    DeliveriesConcat(d, [a], [b]);
    DeliveriesConcat(d, [a, b], [c]);
    assert [a] + [b] == [a, b] && [a, b] + [c] == [a, b, c];
  }

  // The row and the streams after its turn, written out.
  function RowOutcome(d: Delivery, token: Token, id: EventId, valid: bool, reply: Reply): Delivery {
    if !valid then Send(d, token, id, false)
    else
      match reply
      case Delivered => Mark(Send(d, token, id, false), token, id)
      case ScriptReplyLost => Send(d, token, id, true)
      case Unreachable => RecordFailure(d, token, id, false)
      case MarkFailed => RecordFailure(Send(d, token, id, false), token, id, false)
      case MarkReplyLost => Mark(Send(d, token, id, false), token, id)
  }

  lemma OutcomeIsSteps(d: Delivery, token: Token, id: EventId, valid: bool, reply: Reply)
    requires (token, id) in d.jobs && d.jobs[(token, id)].Locked? && id in d.db.outbox
    requires valid == PassesPublishChecks(id, d.db.outbox[id])
    ensures RowOutcome(d, token, id, valid, reply) == Deliveries(d, RowSteps(token, id, valid, reply))
  {
    Single(d, SendStep(token, id, false));
    Single(d, SendStep(token, id, true));
    Single(d, FailStep(token, id));
    Unfold(d, SendStep(token, id, false), MarkStep(token, id), FailStep(token, id));
    Unfold(d, SendStep(token, id, false), FailStep(token, id), FailStep(token, id));
    hide PassesPublishChecks, PublishScript, Deliveries, RecordFailure;
    if valid && (reply.MarkFailed? || reply.MarkReplyLost?) {
      var sent := Send(d, token, id, false);
      assert (token, id) in sent.jobs && sent.jobs[(token, id)].Sent?;
      assert (token, id) !in Mark(sent, token, id).jobs;
    }
  }

  function UnrecordedOutcome(d: Delivery, token: Token, id: EventId, valid: bool, reply: Reply): Delivery {
    if !valid || reply.Delivered? || reply.Unreachable? then d
    else
      var sent := Send(d, token, id, false);
      if reply.MarkReplyLost? then Mark(sent, token, id) else sent
  }

  // The row's turn, when it breaks the batch off.
  function BrokenOutcome(d: Delivery, token: Token, id: EventId, valid: bool, turn: RowTurn): Delivery {
    Crash(if turn.recording.RecordingReplyLost? then RowOutcome(d, token, id, valid, turn.reply)
          else UnrecordedOutcome(d, token, id, valid, turn.reply),
          token)
  }

  lemma BrokenIsSteps(d: Delivery, token: Token, id: EventId, valid: bool, turn: RowTurn)
    requires (token, id) in d.jobs && d.jobs[(token, id)].Locked? && id in d.db.outbox
    requires valid == PassesPublishChecks(id, d.db.outbox[id])
    ensures BrokenOutcome(d, token, id, valid, turn) == Deliveries(d, BrokenSteps(token, id, valid, turn))
  {
    var steps := if turn.recording.RecordingReplyLost? then RowSteps(token, id, valid, turn.reply)
                 else UnrecordedSteps(token, id, valid, turn.reply);
    OutcomeIsSteps(d, token, id, valid, turn.reply);
    UnrecordedIsSteps(d, token, id, valid, turn.reply);
    hide Deliveries, RowOutcome, UnrecordedOutcome, RowSteps, UnrecordedSteps, PassesPublishChecks, Crash;
    DeliveriesConcat(d, steps, [CrashStep(token)]);
    Single(Deliveries(d, steps), CrashStep(token));
  }

  lemma UnrecordedIsSteps(d: Delivery, token: Token, id: EventId, valid: bool, reply: Reply)
    ensures UnrecordedOutcome(d, token, id, valid, reply) == Deliveries(d, UnrecordedSteps(token, id, valid, reply))
  {
    Single(d, SendStep(token, id, false));
    Unfold(d, SendStep(token, id, false), MarkStep(token, id), CrashStep(token));
    hide Send, Mark;
  }

  function MarkedRows(outbox: map<EventId, OutboxRow>, token: Token, id: EventId): map<EventId, OutboxRow> {
    if id in outbox && outbox[id].lock == Some(token) && !outbox[id].published then
      var row := outbox[id];
      outbox[id := row.(published := true, attempts := row.attempts + 1, lock := None)]
    else outbox
  }

  function FailedRows(outbox: map<EventId, OutboxRow>, token: Token, id: EventId, refused: bool)
    : map<EventId, OutboxRow>
  {
    if id in outbox && outbox[id].lock == Some(token) then
      var row := outbox[id];
      outbox[id := row.(attempts := row.attempts + 1, lock := None, deadLettered := row.deadLettered || refused)]
    else outbox
  }

  function RedisAfter(d: Delivery, id: EventId, called: bool): Redis
    requires id in d.db.outbox
  {
    var row := d.db.outbox[id];
    if called && row.aggregate in d.db.generations && d.db.generations[row.aggregate].user == row.envelope.user
    then PublishScript(d.redis, row.envelope.user, row.aggregate, id, row.envelope.event)
    else d.redis
  }

  function OutboxAfter(outbox: map<EventId, OutboxRow>, token: Token, id: EventId, valid: bool,
      reply: Reply): map<EventId, OutboxRow> {
    if valid && (reply.Delivered? || reply.MarkReplyLost?) then MarkedRows(outbox, token, id)
    else FailedRows(outbox, token, id, !valid)
  }

  lemma OutcomeTables(d: Delivery, token: Token, id: EventId, valid: bool, reply: Reply)
    requires (token, id) in d.jobs && d.jobs[(token, id)].Locked? && id in d.db.outbox
    requires valid == PassesPublishChecks(id, d.db.outbox[id])
    ensures RowOutcome(d, token, id, valid, reply) ==
            Delivery(d.db.(outbox := OutboxAfter(d.db.outbox, token, id, valid, reply)),
                     RedisAfter(d, id, valid && !reply.Unreachable?),
                     d.jobs - {(token, id)})
  {
    hide PassesPublishChecks, PublishScript;
    assert d.jobs[(token, id) := Sent] - {(token, id)} == d.jobs - {(token, id)};
  }

  function BrokenOutbox(outbox: map<EventId, OutboxRow>, token: Token, id: EventId, valid: bool,
      turn: RowTurn): map<EventId, OutboxRow> {
    if turn.recording.RecordingReplyLost? then OutboxAfter(outbox, token, id, valid, turn.reply)
    else if valid && turn.reply.MarkReplyLost? then MarkedRows(outbox, token, id)
    else outbox
  }

  function OthersJobs(jobs: map<Job, Phase>, token: Token): map<Job, Phase> {
    map j | j in jobs && j.0 != token :: jobs[j]
  }

  lemma BrokenTables(d: Delivery, token: Token, id: EventId, valid: bool, turn: RowTurn)
    requires (token, id) in d.jobs && d.jobs[(token, id)].Locked? && id in d.db.outbox
    requires valid == PassesPublishChecks(id, d.db.outbox[id]) && Breaks(valid, turn)
    ensures BrokenOutcome(d, token, id, valid, turn) ==
            Delivery(d.db.(outbox := BrokenOutbox(d.db.outbox, token, id, valid, turn)),
                     RedisAfter(d, id, valid && !turn.reply.Unreachable?),
                     OthersJobs(d.jobs, token))
  {
    hide PassesPublishChecks, PublishScript;
    assert OthersJobs(d.jobs - {(token, id)}, token) == OthersJobs(d.jobs, token);
    assert OthersJobs(d.jobs[(token, id) := Sent], token) == OthersJobs(d.jobs, token);
    assert OthersJobs(d.jobs[(token, id) := Sent] - {(token, id)}, token) == OthersJobs(d.jobs, token);
    if turn.recording.RecordingReplyLost? {
      OutcomeTables(d, token, id, valid, turn.reply);
      hide RowOutcome;
    }
  }

  // Dispatching changes neither which rows there are nor what they carry.
  ghost predicate SameEnvelopes(a: map<EventId, OutboxRow>, b: map<EventId, OutboxRow>) {
    && a.Keys == b.Keys
    && forall id :: id in a ==> b[id].aggregate == a[id].aggregate && b[id].envelope == a[id].envelope
  }

  // The loop of a dispatch after its first i rows.
  ghost predicate Midway(start: Delivery, now: Delivery, token: Token, rows: seq<EventId>, i: nat,
      expired: set<EventId>, turns: map<EventId, RowTurn>)
    requires i <= |rows|
  {
    && Waiting(now, token, rows[i..])
    && SameEnvelopes(start.db.outbox, now.db.outbox)
    && now == Deliveries(start, StepsUpTo(start, token, rows, i, expired, turns))
  }

  function StepsUpTo(start: Delivery, token: Token, rows: seq<EventId>, i: nat, expired: set<EventId>,
      turns: map<EventId, RowTurn>): seq<RelayStep>
    requires i <= |rows|
  {
    [LockStep(token, Elements(rows), expired)] + BatchSteps(start.db.outbox, token, rows[..i], turns)
  }

  lemma LoopStarts(start: Delivery, now: Delivery, token: Token, rows: seq<EventId>, expired: set<EventId>,
      turns: map<EventId, RowTurn>)
    requires now == Lock(start, token, Elements(rows), expired) && Waiting(now, token, rows)
    ensures Midway(start, now, token, rows, 0, expired, turns)
  {
    hide Waiting, Deliveries, Lock;
    LockKeepsEnvelopes(start, token, Elements(rows), expired);
    assert rows[0..] == rows;
    Single(start, LockStep(token, Elements(rows), expired));
    assert StepsUpTo(start, token, rows, 0, expired, turns) == [LockStep(token, Elements(rows), expired)];
  }

  lemma CandidateIsUnpublished(outbox: map<EventId, OutboxRow>, id: EventId, expired: set<EventId>)
    requires Candidate(outbox, id, expired)
    ensures id in outbox && !outbox[id].published
  {
  }

  lemma LockedRowWaits(d: Delivery, token: Token, chosen: set<EventId>, expired: set<EventId>, id: EventId)
    requires MayLock(d.db.outbox, chosen, expired) && id in chosen
    ensures var n := Lock(d, token, chosen, expired);
            id in n.db.outbox && !n.db.outbox[id].published && (token, id) in n.jobs && n.jobs[(token, id)].Locked?
  {
    CandidateIsUnpublished(d.db.outbox, id, expired);
    hide MayLock;
    assert (token, id) in Batch(token, chosen);
  }

  lemma LockedWait(d: Delivery, token: Token, rows: seq<EventId>, expired: set<EventId>)
    requires |rows| <= 20 && forall id :: id in rows ==> Candidate(d.db.outbox, id, expired)
    ensures MayLock(d.db.outbox, Elements(rows), expired)
    ensures Waiting(Lock(d, token, Elements(rows), expired), token, rows)
  {
    hide Candidate, Lock;
    forall id | id in rows {
      LockedRowWaits(d, token, Elements(rows), expired, id);
    }
  }

  lemma LockKeepsEnvelopes(d: Delivery, token: Token, chosen: set<EventId>, expired: set<EventId>)
    ensures SameEnvelopes(d.db.outbox, Lock(d, token, chosen, expired).db.outbox)
  {
    hide MayLock;
  }

  lemma WaitingShrinks(before: Delivery, after: Delivery, token: Token, rows: seq<EventId>, i: nat)
    requires i < |rows| && NoRepeats(rows) && Waiting(before, token, rows[i..])
    requires forall k :: k in before.db.outbox && k != rows[i] ==>
               k in after.db.outbox && after.db.outbox[k] == before.db.outbox[k]
    requires after.jobs == before.jobs - {(token, rows[i])}
    ensures Waiting(after, token, rows[i + 1..])
  {
    forall k | k in rows[i + 1..]
      ensures k in rows[i..] && k != rows[i]
    {
      var j :| i + 1 <= j < |rows| && rows[j] == k;
      assert rows[i..][j - i] == k;
    }
  }

  lemma StepsGrow(start: Delivery, before: Delivery, after: Delivery, token: Token, rows: seq<EventId>, i: nat,
      expired: set<EventId>, turns: map<EventId, RowTurn>)
    requires i < |rows| && before == Deliveries(start, StepsUpTo(start, token, rows, i, expired, turns))
    requires after == Deliveries(before, StepsFor(start.db.outbox, token, rows[i], turns))
    ensures after == Deliveries(start, StepsUpTo(start, token, rows, i + 1, expired, turns))
  {
    hide Deliveries, StepsFor;
    assert rows[..i + 1][..i] == rows[..i];
    var sofar := StepsUpTo(start, token, rows, i, expired, turns);
    DeliveriesConcat(start, sofar, StepsFor(start.db.outbox, token, rows[i], turns));
    assert sofar + StepsFor(start.db.outbox, token, rows[i], turns)
        == StepsUpTo(start, token, rows, i + 1, expired, turns);
  }

  // One turn of the loop: the rest keeps waiting, and the steps so far grow by the row's own.
  lemma OneTurn(start: Delivery, before: Delivery, after: Delivery, token: Token, rows: seq<EventId>, i: nat,
      expired: set<EventId>, turns: map<EventId, RowTurn>)
    requires i < |rows| && NoRepeats(rows) && Midway(start, before, token, rows, i, expired, turns)
    requires rows[i] in before.db.outbox
    requires after == RowOutcome(before, token, rows[i], PassesPublishChecks(rows[i], before.db.outbox[rows[i]]),
          TurnOf(turns, rows[i]).reply)
    ensures Midway(start, after, token, rows, i + 1, expired, turns)
  {
    var id := rows[i];
    var valid, reply := PassesPublishChecks(id, before.db.outbox[id]), TurnOf(turns, id).reply;
    assert rows[i..][0] == id;
    assert id in rows[i..];
    OutcomeIsSteps(before, token, id, valid, reply);
    OutcomeTables(before, token, id, valid, reply);
    assert StepsFor(start.db.outbox, token, id, turns) == RowSteps(token, id, valid, reply);
    hide RowOutcome, Deliveries, RowSteps, PassesPublishChecks, StepsFor, RedisAfter, OutboxAfter, Waiting, StepsUpTo,
        NoRepeats;
    OutboxAfterKeeps(before.db.outbox, token, id, valid, reply);
    WaitingShrinks(before, after, token, rows, i);
    StepsGrow(start, before, after, token, rows, i, expired, turns);
  }

  lemma NextIsWaiting(start: Delivery, now: Delivery, token: Token, rows: seq<EventId>, i: nat, expired: set<EventId>,
      turns: map<EventId, RowTurn>)
    requires i < |rows| && Midway(start, now, token, rows, i, expired, turns)
    ensures Waiting(now, token, [rows[i]])
  {
    hide Deliveries;
    assert rows[i..][0] == rows[i];
  }

  // A row that breaks the batch off: the rest of the steps is its own.
  lemma LastTurn(start: Delivery, before: Delivery, after: Delivery, token: Token, rows: seq<EventId>, i: nat,
      expired: set<EventId>, turns: map<EventId, RowTurn>)
    requires i < |rows| && Midway(start, before, token, rows, i, expired, turns) && rows[i] in before.db.outbox
    requires forall j :: 0 <= j < i ==> !Breaks(Valid(start.db.outbox, rows[j]), TurnOf(turns, rows[j]))
    requires var valid := PassesPublishChecks(rows[i], before.db.outbox[rows[i]]);
             Breaks(valid, TurnOf(turns, rows[i])) && after
                 == BrokenOutcome(before, token, rows[i], valid, TurnOf(turns, rows[i]))
    ensures after == Deliveries(start, [LockStep(token, Elements(rows), expired)]
          + LoopSteps(start.db.outbox, token, rows, turns))
  {
    var id := rows[i];
    var valid, turn := PassesPublishChecks(id, before.db.outbox[id]), TurnOf(turns, id);
    SameValidity(start, before, token, rows, i, expired, turns);
    WaitsFirst(start, before, token, rows, i, expired, turns);
    BrokenIsSteps(before, token, id, valid, turn);
    BreaksHere(start, token, rows, i, expired, turns);
    hide Deliveries, PassesPublishChecks, BrokenSteps, BrokenOutcome, Breaks, Waiting, SameEnvelopes, Valid,
        StepsUpTo, LoopSteps;
    DeliveriesConcat(start, StepsUpTo(start, token, rows, i, expired, turns), BrokenSteps(token, id, valid, turn));
  }

  lemma WaitsFirst(start: Delivery, now: Delivery, token: Token, rows: seq<EventId>, i: nat, expired: set<EventId>,
      turns: map<EventId, RowTurn>)
    requires i < |rows| && Midway(start, now, token, rows, i, expired, turns)
    ensures (token, rows[i]) in now.jobs && now.jobs[(token, rows[i])].Locked?
  {
    hide Deliveries, SameEnvelopes;
    assert rows[i..][0] == rows[i];
  }

  lemma BreaksHere(start: Delivery, token: Token, rows: seq<EventId>, i: nat, expired: set<EventId>,
      turns: map<EventId, RowTurn>)
    requires i < |rows| && forall j :: 0 <= j < i ==> !Breaks(Valid(start.db.outbox, rows[j]), TurnOf(turns, rows[j]))
    requires Breaks(Valid(start.db.outbox, rows[i]), TurnOf(turns, rows[i]))
    ensures StepsUpTo(start, token, rows, i, expired, turns)
            + BrokenSteps(token, rows[i], Valid(start.db.outbox, rows[i]), TurnOf(turns, rows[i]))
            == [LockStep(token, Elements(rows), expired)] + LoopSteps(start.db.outbox, token, rows, turns)
  {
    hide Breaks, Valid, BatchSteps, BrokenSteps, TurnOf, Elements;
    assert FirstBreak(start.db.outbox, rows, turns) == i;
  }

  lemma LoopEnds(start: Delivery, now: Delivery, token: Token, rows: seq<EventId>, expired: set<EventId>,
      turns: map<EventId, RowTurn>)
    requires Midway(start, now, token, rows, |rows|, expired, turns)
    requires forall j :: 0 <= j < |rows| ==> !Breaks(Valid(start.db.outbox, rows[j]), TurnOf(turns, rows[j]))
    ensures now == Deliveries(start, [LockStep(token, Elements(rows), expired)]
          + LoopSteps(start.db.outbox, token, rows, turns))
  {
    hide Deliveries, Waiting, SameEnvelopes, Breaks, Valid, BatchSteps;
    assert FirstBreak(start.db.outbox, rows, turns) == |rows| && rows[..|rows|] == rows;
    assert StepsUpTo(start, token, rows, |rows|, expired, turns)
           == [LockStep(token, Elements(rows), expired)] + LoopSteps(start.db.outbox, token, rows, turns);
  }

  lemma OutboxAfterKeeps(outbox: map<EventId, OutboxRow>, token: Token, id: EventId, valid: bool, reply: Reply)
    ensures SameEnvelopes(outbox, OutboxAfter(outbox, token, id, valid, reply))
    ensures forall k :: k in outbox && k != id ==> OutboxAfter(outbox, token, id, valid, reply)[k] == outbox[k]
  {
  }

  // ---------- What becomes of the rows ----------

  // A row's turn ends with a published row, or with one that is unlocked for a retry, or buried if it was refused.
  ghost function RowEnd(id: EventId, row: OutboxRow, reply: Reply): OutboxRow {
    var valid := PassesPublishChecks(id, row);
    if valid && (reply.Delivered? || reply.MarkReplyLost?)
    then row.(published := true, attempts := row.attempts + 1, lock := None)
    else row.(attempts := row.attempts + 1, lock := None, deadLettered := row.deadLettered || !valid)
  }

  ghost predicate BreaksOff(id: EventId, row: OutboxRow, turn: RowTurn) {
    !turn.recording.Recorded? && (turn.reply.Delivered? ==> !PassesPublishChecks(id, row))
  }

  // The row that breaks a batch off has been recorded or stays locked.
  ghost function LastEnd(id: EventId, row: OutboxRow, turn: RowTurn, token: Token): OutboxRow {
    if turn.recording.RecordingReplyLost? || (PassesPublishChecks(id, row) && turn.reply.MarkReplyLost?)
    then RowEnd(id, row, turn.reply)
    else row.(lock := Some(token))
  }

  // After i turns: the first rows have ended, the others of the batch are locked, and no other row has changed.
  ghost predicate LoopAt(before: map<EventId, OutboxRow>, now: map<EventId, OutboxRow>, token: Token,
      rows: seq<EventId>, i: nat, turns: map<EventId, RowTurn>)
    requires i <= |rows|
  {
    && now.Keys == before.Keys && (forall j :: 0 <= j < |rows| ==> rows[j] in before)
    && (forall j :: 0 <= j < i ==>
          && !BreaksOff(rows[j], before[rows[j]], TurnOf(turns, rows[j]))
          && now[rows[j]] == RowEnd(rows[j], before[rows[j]], TurnOf(turns, rows[j]).reply))
    && (forall j :: i <= j < |rows| ==> now[rows[j]] == before[rows[j]].(lock := Some(token)))
    && (forall id :: id in before && id !in rows ==> now[id] == before[id])
  }

  // All turns, or all up to a row that breaks the batch off.
  ghost predicate LoopOver(before: map<EventId, OutboxRow>, after: map<EventId, OutboxRow>, token: Token,
      rows: seq<EventId>, turns: map<EventId, RowTurn>) {
    || LoopAt(before, after, token, rows, |rows|, turns)
    || exists k :: 0 <= k < |rows| && BrokenAt(before, after, token, rows, k, turns)
  }

  ghost predicate BrokenAt(before: map<EventId, OutboxRow>, after: map<EventId, OutboxRow>, token: Token,
      rows: seq<EventId>, k: nat, turns: map<EventId, RowTurn>)
    requires k < |rows|
  {
    && rows[k] in before && rows[k] in after
    && BreaksOff(rows[k], before[rows[k]], TurnOf(turns, rows[k]))
    && after[rows[k]] == LastEnd(rows[k], before[rows[k]], TurnOf(turns, rows[k]), token)
    && LoopAt(before, after[rows[k] := before[rows[k]].(lock := Some(token))], token, rows, k, turns)
  }

  lemma TurnWritten(outbox: map<EventId, OutboxRow>, token: Token, id: EventId, turn: RowTurn)
    requires id in outbox && !outbox[id].published
    ensures var row, valid := outbox[id], PassesPublishChecks(id, outbox[id]);
            && (Breaks(valid, turn) <==> BreaksOff(id, row, turn))
            && (if Breaks(valid, turn) then BrokenOutbox(outbox, token, id, valid, turn)
                else OutboxAfter(outbox, token, id, valid, turn.reply))
            == (if row.lock != Some(token) then outbox
                else outbox[id := if Breaks(valid, turn) then LastEnd(id, row, turn, token)
                                  else RowEnd(id, row, turn.reply)])
  {
    hide PassesPublishChecks;
    assert outbox == outbox[id := outbox[id]];
  }

  lemma LockIsNoPartOfTheChecks(id: EventId, row: OutboxRow, token: Token, turn: RowTurn)
    ensures var locked := row.(lock := Some(token));
            && RowEnd(id, locked, turn.reply) == RowEnd(id, row, turn.reply)
            && LastEnd(id, locked, turn, token) == LastEnd(id, row, turn, token)
            && BreaksOff(id, locked, turn) == BreaksOff(id, row, turn)
            && PassesPublishChecks(id, locked) == PassesPublishChecks(id, row)
  {
  }

  lemma LoopTurn(before: map<EventId, OutboxRow>, now: map<EventId, OutboxRow>, token: Token, rows: seq<EventId>,
      i: nat, turns: map<EventId, RowTurn>)
    requires i < |rows| && NoRepeats(rows) && LoopAt(before, now, token, rows, i, turns)
    ensures rows[i] in now && now[rows[i]].lock == Some(token)
    ensures var id, turn := rows[i], TurnOf(turns, rows[i]);
            && (!BreaksOff(id, now[id], turn) ==>
                  LoopAt(before, now[id := RowEnd(id, now[id], turn.reply)], token, rows, i + 1, turns))
            && (BreaksOff(id, now[id], turn) ==>
                  LoopOver(before, now[id := LastEnd(id, now[id], turn, token)], token, rows, turns))
  {
    var id, turn := rows[i], TurnOf(turns, rows[i]);
    LockIsNoPartOfTheChecks(id, before[id], token, turn);
    hide RowEnd, LastEnd, BreaksOff, PassesPublishChecks, TurnOf;
    if BreaksOff(id, now[id], turn) {
      LoopBreaks(before, now, token, rows, i, turns);
    }
  }

  lemma LoopBreaks(before: map<EventId, OutboxRow>, now: map<EventId, OutboxRow>, token: Token, rows: seq<EventId>,
      i: nat, turns: map<EventId, RowTurn>)
    requires i < |rows| && LoopAt(before, now, token, rows, i, turns) && rows[i] in now
    requires BreaksOff(rows[i], now[rows[i]], TurnOf(turns, rows[i]))
    ensures LoopOver(before, now[rows[i] := LastEnd(rows[i], now[rows[i]], TurnOf(turns, rows[i]), token)], token, rows,
                turns)
  {
    var id, turn := rows[i], TurnOf(turns, rows[i]);
    assert now[id] == before[id].(lock := Some(token));
    LockIsNoPartOfTheChecks(id, before[id], token, turn);
    hide RowEnd, LastEnd, BreaksOff, LoopAt;
    var after := now[id := LastEnd(id, now[id], turn, token)];
    assert after[id := before[id].(lock := Some(token))] == now;
    assert BrokenAt(before, after, token, rows, i, turns);
  }

  lemma AllTurns(before: map<EventId, OutboxRow>, now: map<EventId, OutboxRow>, token: Token, rows: seq<EventId>,
      turns: map<EventId, RowTurn>)
    requires LoopAt(before, now, token, rows, |rows|, turns)
    ensures LoopOver(before, now, token, rows, turns)
  {
  }

  lemma LockedLoop(d: Delivery, token: Token, rows: seq<EventId>, expired: set<EventId>, turns: map<EventId, RowTurn>)
    requires |rows| <= 20 && forall id :: id in rows ==> Candidate(d.db.outbox, id, expired)
    ensures LoopAt(d.db.outbox, Lock(d, token, Elements(rows), expired).db.outbox, token, rows, 0, turns)
  {
    LockedWait(d, token, rows, expired);
    forall id | id in rows ensures id in d.db.outbox {
      CandidateIsUnpublished(d.db.outbox, id, expired);
    }
    hide Candidate, Waiting, MayLock, LoopAt, LockedRows;
    LockedRowsStart(d.db.outbox, token, rows, turns);
  }

  lemma LockedRowsStart(outbox: map<EventId, OutboxRow>, token: Token, rows: seq<EventId>, turns: map<EventId, RowTurn>)
    requires forall id :: id in rows ==> id in outbox
    ensures LoopAt(outbox, LockedRows(outbox, token, Elements(rows)), token, rows, 0, turns)
  {
    hide RowEnd, BreaksOff, TurnOf;
  }

  // What a dispatch leaves of the outbox: the batch it took, each row of it at the end of its turn, and the rest as it
  // was.
  ghost predicate Dispatched(before: map<EventId, OutboxRow>, after: map<EventId, OutboxRow>, token: Token,
      order: seq<EventId>, expired: set<EventId>, locking: Locking, turns: map<EventId, RowTurn>) {
    match locking
    case NothingLocked => after == before
    case LockingReplyLost => exists rows ::
      BatchOf(before, order, expired, 20, rows) && LoopAt(before, after, token, rows, 0, turns)
    case GotRows => exists rows ::
      BatchOf(before, order, expired, 20, rows) && LoopOver(before, after, token, rows, turns)
  }

  // When every call comes out well, every row of the batch is settled, and there is one if there is a candidate.
  lemma DispatchSettles(before: map<EventId, OutboxRow>, after: map<EventId, OutboxRow>, token: Token,
      order: seq<EventId>, expired: set<EventId>, turns: map<EventId, RowTurn>)
    returns (rows: seq<EventId>)
    requires Dispatched(before, after, token, order, expired, GotRows, turns)
    requires forall id :: id in order ==> TurnOf(turns, id) == RowTurn(Delivered, Recorded)
    ensures BatchOf(before, order, expired, 20, rows) && after.Keys == before.Keys
    ensures forall id :: id in rows ==>
              && id in before && after[id].lock.None?
              && (if PassesPublishChecks(id, before[id]) then after[id].published else after[id].deadLettered)
    ensures forall id :: id in before && id !in rows ==> after[id] == before[id]
    ensures (exists id :: id in order && Candidate(before, id, expired)) ==> rows != []
  {
    rows :| BatchOf(before, order, expired, 20, rows) && LoopOver(before, after, token, rows, turns);
    BatchIsOrdered(before, order, expired, 20, rows);
    hide BatchOf, Candidate, PassesPublishChecks, BrokenAt;
    forall k | 0 <= k < |rows| ensures !BrokenAt(before, after, token, rows, k, turns) {
      assert rows[k] in order;
      WellTurnsDoNotBreak(before, after, token, rows, k, turns);
    }
    forall id | id in rows ensures id in before && after[id] == RowEnd(id, before[id], Delivered) {
      var j :| 0 <= j < |rows| && rows[j] == id;
      assert rows[j] in order;
    }
  }

  lemma WellTurnsDoNotBreak(before: map<EventId, OutboxRow>, after: map<EventId, OutboxRow>, token: Token,
      rows: seq<EventId>, k: nat, turns: map<EventId, RowTurn>)
    requires k < |rows| && TurnOf(turns, rows[k]) == RowTurn(Delivered, Recorded)
    ensures !BrokenAt(before, after, token, rows, k, turns)
  {
    hide LoopAt, LastEnd;
  }

  lemma BatchIsOrdered(outbox: map<EventId, OutboxRow>, order: seq<EventId>, expired: set<EventId>, limit: nat,
      rows: seq<EventId>)
    requires BatchOf(outbox, order, expired, limit, rows) && limit > 0
    ensures forall id :: id in rows ==> id in order && Candidate(outbox, id, expired)
    ensures (exists id :: id in order && Candidate(outbox, id, expired)) ==> rows != []
  {
    hide Candidate;
    var ps :| BatchAt(outbox, order, expired, limit, rows, ps);
    PickedWithin(order, rows, ps);
    if id :| id in order && Candidate(outbox, id, expired) {
      var k :| 0 <= k < |order| && order[k] == id;
      assert rows == [] ==> k in ps;
    }
  }

  class OutboxRelay {
    const store: GenerationStore
    const redis: RedisStore
    var running: bool
    var stopping: bool
    ghost var jobs: map<Job, Phase>

    constructor (store: GenerationStore, redis: RedisStore)
      ensures this.store == store && this.redis == redis && !running && !stopping && jobs == map[]
    {
      this.store, this.redis := store, redis;
      running, stopping, jobs := false, false, map[];
    }

    ghost function View(): Delivery
      reads this`jobs, store, redis
    {
      Delivery(store.Rows(), redis.View(), jobs)
    }

    // The locking statement: it locks the first twenty candidates and returns them.
    method LockRows(token: Token, order: seq<EventId>, expired: set<EventId>) returns (rows: seq<EventId>)
      modifies store`outbox, this`jobs
      ensures rows == FirstCandidates(old(store.outbox), order, expired, 20)
      ensures BatchOf(old(store.outbox), order, expired, 20, rows)
      ensures View() == Lock(old(View()), token, Elements(rows), expired)
      ensures Waiting(View(), token, rows)
    {
      rows := FirstCandidates(store.outbox, order, expired, 20);
      var chosen := Elements(rows);
      ghost var before := View();
      LockedWait(before, token, rows, expired);
      FirstTwenty(store.outbox, order, expired);
      hide BatchOf, Candidate, LockedRows, Waiting, FirstCandidates;
      store.outbox := LockedRows(store.outbox, token, chosen);
      jobs := jobs + map j | j in Batch(token, chosen) :: Locked;
    }

    method MarkRow(token: Token, id: EventId)
      modifies store`outbox
      ensures store.outbox == MarkedRows(old(store.outbox), token, id)
    {
      if id in store.outbox && store.outbox[id].lock == Some(token) && !store.outbox[id].published {
        var row := store.outbox[id];
        store.outbox := store.outbox[id := row.(published := true, attempts := row.attempts + 1, lock := None)];
      }
    }

    // The catch branch; it touches the row only under our own lock.
    method FailRow(token: Token, id: EventId, refused: bool)
      modifies store`outbox
      ensures store.outbox == FailedRows(old(store.outbox), token, id, refused)
    {
      if id in store.outbox && store.outbox[id].lock == Some(token) {
        var row := store.outbox[id];
        store.outbox := store.outbox[id :=
          row.(attempts := row.attempts + 1, lock := None, deadLettered := row.deadLettered || refused)];
      }
    }

    // One row: the try, and the catch that records a failure. `broken` says that recording it raised an error itself.
    method DeliverRow(token: Token, id: EventId, turn: RowTurn) returns (delivered: bool, broken: bool)
      requires Waiting(View(), token, [id])
      modifies store`outbox, redis, this`jobs
      ensures id in old(store.outbox)
      ensures var valid := PassesPublishChecks(id, old(store.outbox)[id]);
              && (delivered <==> valid && turn.reply.Delivered?)
              && (broken <==> Breaks(valid, turn))
              && View() == if broken then BrokenOutcome(old(View()), token, id, valid, turn)
                           else RowOutcome(old(View()), token, id, valid, turn.reply)
      ensures var row := old(store.outbox)[id];
              && (broken <==> BreaksOff(id, row, turn))
              && store.outbox == (if row.lock != Some(token) then old(store.outbox)
                   else old(store.outbox)[id := if broken then LastEnd(id, row, turn, token)
                                                else RowEnd(id, row, turn.reply)])
      ensures var row := old(store.outbox)[id];
              redis.View() ==
                if PassesPublishChecks(id, row) && !turn.reply.Unreachable? && row.aggregate in store.generations
                   && store.generations[row.aggregate].user == row.envelope.user
                then PublishScript(old(redis.View()), row.envelope.user, row.aggregate, id, row.envelope.event)
                else old(redis.View())
    {
      assert id in [id];
      var row := store.outbox[id];
      var valid := PassesPublishChecks(id, row);
      OutcomeTables(View(), token, id, valid, turn.reply);
      TurnWritten(store.outbox, token, id, turn);
      delivered, broken := valid && turn.reply.Delivered?, Breaks(valid, turn);
      if broken {
        BrokenTables(View(), token, id, valid, turn);
      }
      hide PublishScript, PassesPublishChecks, RowOutcome, BrokenOutcome, Breaks, BreaksOff, RowEnd, LastEnd;
      if valid && !turn.reply.Unreachable? {
        if row.aggregate in store.generations && store.generations[row.aggregate].user == row.envelope.user {
          redis.PublishEvent(row.envelope.user, row.aggregate, id, row.envelope.event);
        }
        if turn.reply.Delivered? || turn.reply.MarkReplyLost? {
          MarkRow(token, id);
        }
      }
      if !delivered && !(broken && turn.recording.NotRecorded?) {
        FailRow(token, id, !valid);
      }
      jobs := if broken then OthersJobs(jobs, token) else jobs - {(token, id)};
    }

    // The loop over the locked rows, which a failure to record a failure breaks off.
    method DeliverRows(ghost start: Delivery, token: Token, rows: seq<EventId>, ghost expired: set<EventId>,
        turns: map<EventId, RowTurn>)
      returns (delivered: nat)
      requires NoRepeats(rows) && Midway(start, View(), token, rows, 0, expired, turns)
      requires LoopAt(start.db.outbox, store.outbox, token, rows, 0, turns)
      modifies store`outbox, redis, this`jobs
      ensures LoopOver(start.db.outbox, store.outbox, token, rows, turns)
      ensures View() == Deliveries(start, [LockStep(token, Elements(rows), expired)]
            + LoopSteps(start.db.outbox, token, rows, turns))
    {
      hide PassesPublishChecks, Waiting, Deliveries, Midway, RowOutcome, BrokenOutcome, NoRepeats, TurnOf, Candidate,
          PublishScript, LoopSteps, Breaks, LoopAt, LoopOver, BreaksOff, RowEnd, LastEnd;
      delivered := 0;
      for i := 0 to |rows|
        invariant Midway(start, View(), token, rows, i, expired, turns)
        invariant LoopAt(start.db.outbox, store.outbox, token, rows, i, turns)
        invariant forall j :: 0 <= j < i ==> !Breaks(Valid(start.db.outbox, rows[j]), TurnOf(turns, rows[j]))
      {
        ghost var before := View();
        NextIsWaiting(start, before, token, rows, i, expired, turns);
        LoopTurn(start.db.outbox, store.outbox, token, rows, i, turns);
        var ok, broken := DeliverRow(token, rows[i], TurnOf(turns, rows[i]));
        SameValidity(start, before, token, rows, i, expired, turns);
        if broken {
          LastTurn(start, before, View(), token, rows, i, expired, turns);
          return;
        }
        OneTurn(start, before, View(), token, rows, i, expired, turns);
        if ok {
          delivered := delivered + 1;
        }
      }
      LoopEnds(start, View(), token, rows, expired, turns);
      AllTurns(start.db.outbox, store.outbox, token, rows, turns);
    }

    // What runs inside the flags: the locking statement, and the loop over what it returns.
    method DispatchBatch(token: Token, order: seq<EventId>, expired: set<EventId>, locking: Locking,
        turns: map<EventId, RowTurn>)
      returns (delivered: nat)
      requires NoRepeats(order)
      modifies this`jobs, store`outbox, redis
      ensures View() == Deliveries(old(View()), DispatchSteps(old(store.outbox), token, order, expired, locking, turns))
      ensures Dispatched(old(store.outbox), store.outbox, token, order, expired, locking, turns)
    {
      delivered := 0;
      if locking.NothingLocked? {
        return;
      }
      ghost var start := View();
      assert start.db.outbox == store.outbox;
      LostLocking(start, token, FirstCandidates(store.outbox, order, expired, 20), expired);
      LockedLoop(start, token, FirstCandidates(store.outbox, order, expired, 20), expired, turns);
      hide Lock, Waiting, Midway, Deliveries, LoopSteps, FirstCandidates, Elements, NoRepeats, BatchOf, LoopAt, LoopOver;
      var rows := LockRows(token, order, expired);
      if locking.LockingReplyLost? {
        jobs := OthersJobs(jobs, token);
        return;
      }
      CandidatesDoNotRepeat(start.db.outbox, order, expired, 20);
      LoopStarts(start, View(), token, rows, expired, turns);
      delivered := DeliverRows(start, token, rows, expired, turns);
    }

    method Dispatch(token: Token, order: seq<EventId>, expired: set<EventId>, locking: Locking,
        turns: map<EventId, RowTurn>) returns (delivered: nat)
      requires NoRepeats(order)
      modifies this, store`outbox, redis
      ensures View() ==
        if old(running || stopping) then old(View())
        else Deliveries(old(View()), DispatchSteps(old(store.outbox), token, order, expired, locking, turns))
      ensures if old(running || stopping) then store.outbox == old(store.outbox)
              else Dispatched(old(store.outbox), store.outbox, token, order, expired, locking, turns)
      ensures running == old(running) && stopping == old(stopping)
      ensures old(RelayInv(View())) ==> RelayInv(View())
    {
      delivered := 0;
      if running || stopping {
        return;
      }
      hide RelayInv, DispatchSteps, Deliveries, NoRepeats, Dispatched;
      ghost var start := View();
      if RelayInv(start) {
        DeliveriesKeepInv(start, DispatchSteps(store.outbox, token, order, expired, locking, turns));
      }
      running := true;
      delivered := DispatchBatch(token, order, expired, locking, turns);
      running := false;
    }
  }

  lemma LostLocking(start: Delivery, token: Token, rows: seq<EventId>, expired: set<EventId>)
    ensures var locked := Lock(start, token, Elements(rows), expired);
            Deliveries(start, [LockStep(token, Elements(rows), expired), CrashStep(token)])
            == locked.(jobs := OthersJobs(locked.jobs, token))
  {
    Unfold(start, LockStep(token, Elements(rows), expired), CrashStep(token), CrashStep(token));
    hide Lock, Deliveries;
  }

  lemma SameValidity(start: Delivery, now: Delivery, token: Token, rows: seq<EventId>, i: nat, expired: set<EventId>,
      turns: map<EventId, RowTurn>)
    requires i < |rows| && Midway(start, now, token, rows, i, expired, turns) && rows[i] in now.db.outbox
    ensures Valid(start.db.outbox, rows[i]) == PassesPublishChecks(rows[i], now.db.outbox[rows[i]])
  {
    hide Waiting, Deliveries;
  }
}
