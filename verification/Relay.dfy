/**
 * The outbox relay: any number of relays lock batches of rows, run the publish script, and record the outcome, while
 * locks expire, replies get lost and processes die at any point (apps/api/src/chat/outbox-relay.service.ts).
 */
module Relay {
  import opened Common
  import opened Events
  import opened Lifecycle

  datatype Redis = Redis(
    sequences: map<GenerationId, nat>,
    streams: map<GenerationId, seq<Payload>>,
    userStreams: map<UserId, seq<Payload>>,
    dedupe: set<EventId>)

  function Sequence(r: Redis, g: GenerationId): nat {
    if g in r.sequences then r.sequences[g] else 0
  }

  function StreamOf(r: Redis, g: GenerationId): seq<Payload> {
    if g in r.streams then r.streams[g] else []
  }

  function UserStreamOf(r: Redis, u: UserId): seq<Payload> {
    if u in r.userStreams then r.userStreams[u] else []
  }

  // PUBLISH_EVENT_SCRIPT: atomic, and harmless when it runs again.
  function PublishScript(r: Redis, user: UserId, g: GenerationId, id: EventId, p: Payload): Redis {
    if id in r.dedupe then r
    else if p.sequence <= Sequence(r, g) then r
    else
      Redis(r.sequences[g := p.sequence],
            r.streams[g := StreamOf(r, g) + [p]],
            r.userStreams[user := UserStreamOf(r, user) + [p]],
            r.dedupe + {id})
  }

  // What a relay holds in memory about a row of its batch: only locked, or already past the script.
  datatype Phase = Locked | Sent
  type Job = (Token, EventId)

  datatype Delivery = Delivery(db: Db, redis: Redis, jobs: map<Job, Phase>)

  predicate Outstanding(row: OutboxRow) {
    !row.published && !row.deadLettered
  }

  // A row that a relay may lock; `expired` are the locks older than their lease.
  predicate Candidate(outbox: map<EventId, OutboxRow>, id: EventId, expired: set<EventId>) {
    && id in outbox
    && Outstanding(outbox[id])
    && (outbox[id].lock.None? || id in expired)
    && (forall prior ::
          prior in outbox && outbox[prior].aggregate == outbox[id].aggregate && Outstanding(outbox[prior]) ==>
            outbox[id].envelope.sequence <= outbox[prior].envelope.sequence)
  }

  // One locking statement takes at most twenty rows.
  predicate MayLock(outbox: map<EventId, OutboxRow>, chosen: set<EventId>, expired: set<EventId>) {
    |chosen| <= 20 && forall id :: id in chosen ==> Candidate(outbox, id, expired)
  }

  datatype RelayStep =
    | LockStep(token: Token, chosen: set<EventId>, expired: set<EventId>)
    | SendStep(token: Token, id: EventId, replyLost: bool)
    | MarkStep(token: Token, id: EventId)
    | FailStep(token: Token, id: EventId)
    | CrashStep(token: Token)

  function Batch(token: Token, chosen: set<EventId>): (jobs: set<Job>)
    ensures forall j :: j in jobs <==> j.0 == token && j.1 in chosen
  {
    var jobs := set id | id in chosen :: (token, id);
    assert forall j: Job :: j == (j.0, j.1);
    jobs
  }

  function LockedRows(outbox: map<EventId, OutboxRow>, token: Token, chosen: set<EventId>): map<EventId, OutboxRow> {
    map id | id in outbox :: if id in chosen then outbox[id].(lock := Some(token)) else outbox[id]
  }

  function Lock(d: Delivery, token: Token, chosen: set<EventId>, expired: set<EventId>): Delivery {
    if !MayLock(d.db.outbox, chosen, expired) then d
    else
      d.(db := d.db.(outbox := LockedRows(d.db.outbox, token, chosen)),
         jobs := d.jobs + map j | j in Batch(token, chosen) :: Locked)
  }

  function Drop(d: Delivery, job: Job): Delivery {
    d.(jobs := d.jobs - {job})
  }

  // The catch branch: unlock for a retry, and bury the row if its payload was refused. Only while the lock is ours,
  // when the row's attempts are still those that were read with the lock.
  function RecordFailure(d: Delivery, token: Token, id: EventId, refused: bool): Delivery {
    var n := Drop(d, (token, id));
    if id in d.db.outbox && d.db.outbox[id].lock == Some(token) then
      var row := d.db.outbox[id];
      n.(db := n.db.(outbox := n.db.outbox[id :=
        row.(attempts := row.attempts + 1, lock := None, deadLettered := row.deadLettered || refused)]))
    else n
  }

  // publishEvent; a lost reply is handled as a failure although the script has run.
  function Send(d: Delivery, token: Token, id: EventId, replyLost: bool): Delivery {
    if (token, id) !in d.jobs || !d.jobs[(token, id)].Locked? || id !in d.db.outbox then d
    else
      var row := d.db.outbox[id];
      if !PassesPublishChecks(id, row) then RecordFailure(d, token, id, true)
      else
        var g := row.aggregate;
        var sent := if g in d.db.generations && d.db.generations[g].user == row.envelope.user
                    then d.(redis := PublishScript(d.redis, row.envelope.user, g, id, row.envelope.event))
                    else d;
        if replyLost then RecordFailure(sent, token, id, false)
        else sent.(jobs := sent.jobs[(token, id) := Sent])
  }

  // Marking requires that the script returned, and touches the row only if the lock is still ours.
  function Mark(d: Delivery, token: Token, id: EventId): Delivery {
    if (token, id) !in d.jobs || !d.jobs[(token, id)].Sent? then d
    else
      var n := Drop(d, (token, id));
      if id in d.db.outbox && d.db.outbox[id].lock == Some(token) && !d.db.outbox[id].published then
        var row := d.db.outbox[id];
        n.(db := n.db.(outbox := n.db.outbox[id := row.(published := true, attempts := row.attempts + 1,
            lock := None)]))
      else n
  }

  function Crash(d: Delivery, token: Token): Delivery {
    d.(jobs := map j | j in d.jobs && j.0 != token :: d.jobs[j])
  }

  function Deliver(d: Delivery, s: RelayStep): Delivery {
    match s
    case LockStep(t, chosen, expired) => Lock(d, t, chosen, expired)
    case SendStep(t, id, lost) => Send(d, t, id, lost)
    case MarkStep(t, id) => Mark(d, t, id)
    case FailStep(t, id) => if (t, id) in d.jobs then RecordFailure(d, t, id, false) else d
    case CrashStep(t) => Crash(d, t)
  }

  // ---------- The invariant ----------

  // One outbox row for each logged event, with the payload that the log holds.
  ghost predicate OutboxMirrorsLogs(db: Db) {
    && (forall id :: id in db.outbox <==> id.generation in db.generations && 1 <= id.draw <= |LogOf(db, id.generation)|)
    && (forall id :: id in db.outbox ==> RowMirrors(db, id))
  }

  predicate RowMirrors(db: Db, id: EventId)
    requires id in db.outbox
  {
    && id.generation in db.generations && 1 <= id.draw <= |LogOf(db, id.generation)|
    && var p := LogOf(db, id.generation)[id.draw - 1];
       && p.generation == id.generation && p.sequence == id.draw && p.eventId == id
       && db.outbox[id].aggregate == id.generation
       && db.outbox[id].envelope == BuildRow(db.generations[id.generation].user, p).envelope
  }

  ghost predicate StreamsArePrefixes(db: Db, r: Redis) {
    forall g :: Sequence(r, g) <= |LogOf(db, g)| && StreamOf(r, g) == LogOf(db, g)[..Sequence(r, g)]
  }

  // Whatever claims to have been sent is in the stream.
  predicate InStream(r: Redis, id: EventId) {
    id.draw <= Sequence(r, id.generation)
  }

  ghost predicate SentIsInStream(d: Delivery) {
    && (forall id :: id in d.db.outbox && d.db.outbox[id].published ==> InStream(d.redis, id))
    && (forall id :: id in d.redis.dedupe ==> InStream(d.redis, id))
    && (forall j :: j in d.jobs && d.jobs[j].Sent? ==> InStream(d.redis, j.1))
  }

  ghost predicate PriorsSettled(outbox: map<EventId, OutboxRow>, id: EventId) {
    forall prior :: prior in outbox && prior.generation == id.generation && prior.draw < id.draw
        ==> !Outstanding(outbox[prior])
  }

  ghost predicate JobsInOrder(d: Delivery) {
    forall j :: j in d.jobs ==> j.1 in d.db.outbox && PriorsSettled(d.db.outbox, j.1)
  }

  ghost predicate OnlyRefusedAreDead(db: Db) {
    forall id :: id in db.outbox && db.outbox[id].deadLettered ==> !PassesPublishChecks(id, db.outbox[id])
  }

  function EventsOf(s: seq<Payload>, g: GenerationId): seq<Payload> {
    if s == [] then []
    else EventsOf(s[..|s| - 1], g) + if s[|s| - 1].generation == g then [s[|s| - 1]] else []
  }

  // The stream that a user's browsers read is an interleaving of the streams of the user's generations.
  ghost predicate UserStreamsInterleave(db: Db, r: Redis) {
    && (forall g :: g in db.generations ==> EventsOf(UserStreamOf(r, db.generations[g].user), g) == StreamOf(r, g))
    && (forall u, i :: 0 <= i < |UserStreamOf(r, u)| ==>
         var p := UserStreamOf(r, u)[i]; p.generation in db.generations && db.generations[p.generation].user == u)
  }

  ghost predicate RelayInv(d: Delivery) {
    && OutboxMirrorsLogs(d.db)
    && StreamsArePrefixes(d.db, d.redis)
    && SentIsInStream(d)
    && JobsInOrder(d)
    && OnlyRefusedAreDead(d.db)
    && UserStreamsInterleave(d.db, d.redis)
  }

  // ---------- Payloads pass the relay's checks ----------

  // A row that enqueueGenerationEvent wrote is refused only for a number beyond the safe integers.
  lemma ChecksPassExactlyWhenSafe(db: Db, id: EventId)
    requires id in db.outbox && RowMirrors(db, id)
    ensures PassesPublishChecks(id, db.outbox[id])
            <==> IsSafeInteger(db.generations[id.generation].user) && id.draw <= MAX_SAFE_INTEGER
  {
  }

  // Refusal is upward closed: if a row passes, so do all rows before it.
  lemma PriorsArePublished(d: Delivery, id: EventId, prior: EventId)
    requires OutboxMirrorsLogs(d.db) && OnlyRefusedAreDead(d.db)
    requires id in d.db.outbox && PassesPublishChecks(id, d.db.outbox[id]) && PriorsSettled(d.db.outbox, id)
    requires prior.generation == id.generation && 1 <= prior.draw < id.draw
    ensures prior in d.db.outbox && d.db.outbox[prior].published
  {
    assert RowMirrors(d.db, id);
    assert prior in d.db.outbox;
    assert RowMirrors(d.db, prior);
    ChecksPassExactlyWhenSafe(d.db, id);
    ChecksPassExactlyWhenSafe(d.db, prior);
  }

  // ---------- The script extends the stream by exactly the next event, or does nothing ----------

  function Extended(r: Redis, user: UserId, p: Payload): Redis {
    Redis(r.sequences[p.generation := p.sequence],
          r.streams[p.generation := StreamOf(r, p.generation) + [p]],
          r.userStreams[user := UserStreamOf(r, user) + [p]],
          r.dedupe + {p.eventId})
  }

  lemma ScriptExtendsByOne(d: Delivery, id: EventId)
    requires OutboxMirrorsLogs(d.db) && OnlyRefusedAreDead(d.db) && SentIsInStream(d)
    requires id in d.db.outbox && PassesPublishChecks(id, d.db.outbox[id]) && PriorsSettled(d.db.outbox, id)
    ensures var row := d.db.outbox[id];
            var n := PublishScript(d.redis, row.envelope.user, row.aggregate, id, row.envelope.event);
            && RowMirrors(d.db, id)
            && d.db.generations[row.aggregate].user == row.envelope.user
            && if Sequence(d.redis, id.generation) + 1 == id.draw
               then n == Extended(d.redis, row.envelope.user, LogOf(d.db, id.generation)[id.draw - 1])
               else n == d.redis && InStream(d.redis, id)
  {
    assert RowMirrors(d.db, id);
    if 1 < id.draw {
      PriorsArePublished(d, id, EventId(id.generation, id.draw - 1));
    }
  }

  lemma ExtendedKeepsPrefixes(db: Db, r: Redis, user: UserId, p: Payload)
    requires StreamsArePrefixes(db, r)
    requires p.sequence == Sequence(r, p.generation) + 1 <= |LogOf(db, p.generation)|
    requires p == LogOf(db, p.generation)[p.sequence - 1]
    ensures StreamsArePrefixes(db, Extended(r, user, p))
  {
    var n := Extended(r, user, p);
    forall g ensures Sequence(n, g) <= |LogOf(db, g)| && StreamOf(n, g) == LogOf(db, g)[..Sequence(n, g)] {
      assert StreamOf(r, g) == LogOf(db, g)[..Sequence(r, g)];
      if g == p.generation {
        assert LogOf(db, g)[..p.sequence] == LogOf(db, g)[..p.sequence - 1] + [p];
      }
    }
  }

  lemma EventsOfLast(s: seq<Payload>, p: Payload, g: GenerationId)
    ensures EventsOf(s + [p], g) == EventsOf(s, g) + if p.generation == g then [p] else []
  {
    assert (s + [p])[..|s|] == s;
  }

  lemma ExtendedKeepsEvents(db: Db, r: Redis, user: UserId, p: Payload, g: GenerationId)
    requires g in db.generations && EventsOf(UserStreamOf(r, db.generations[g].user), g) == StreamOf(r, g)
    requires p.generation in db.generations && db.generations[p.generation].user == user
    ensures EventsOf(UserStreamOf(Extended(r, user, p), db.generations[g].user), g) == StreamOf(Extended(r, user, p), g)
  {
    if db.generations[g].user == user {
      EventsOfLast(UserStreamOf(r, user), p, g);
    }
  }

  lemma ExtendedKeepsAddressees(db: Db, r: Redis, user: UserId, p: Payload, u: UserId, i: nat)
    requires UserStreamsInterleave(db, r)
    requires p.generation in db.generations && db.generations[p.generation].user == user
    requires i < |UserStreamOf(Extended(r, user, p), u)|
    ensures var q := UserStreamOf(Extended(r, user, p), u)[i];
              q.generation in db.generations && db.generations[q.generation].user == u
  {
    hide EventsOf;
    if i < |UserStreamOf(r, u)| {
      assert UserStreamOf(Extended(r, user, p), u)[i] == UserStreamOf(r, u)[i];
    }
  }

  lemma ExtendedKeepsInterleaving(db: Db, r: Redis, user: UserId, p: Payload)
    requires UserStreamsInterleave(db, r)
    requires p.generation in db.generations && db.generations[p.generation].user == user
    ensures UserStreamsInterleave(db, Extended(r, user, p))
  {
    hide Extended, EventsOf, UserStreamOf, StreamOf;
    var n := Extended(r, user, p);
    forall g | g in db.generations ensures EventsOf(UserStreamOf(n, db.generations[g].user), g) == StreamOf(n, g) {
      ExtendedKeepsEvents(db, r, user, p, g);
    }
    forall u, i | 0 <= i < |UserStreamOf(n, u)|
      ensures var q := UserStreamOf(n, u)[i]; q.generation in db.generations && db.generations[q.generation].user == u
    {
      ExtendedKeepsAddressees(db, r, user, p, u, i);
    }
  }

  lemma SendKeepsStreams(d: Delivery, id: EventId, n: Redis)
    requires OutboxMirrorsLogs(d.db) && OnlyRefusedAreDead(d.db) && SentIsInStream(d)
    requires StreamsArePrefixes(d.db, d.redis) && UserStreamsInterleave(d.db, d.redis)
    requires id in d.db.outbox && PassesPublishChecks(id, d.db.outbox[id]) && PriorsSettled(d.db.outbox, id)
    requires n == PublishScript(d.redis, d.db.outbox[id].envelope.user, d.db.outbox[id].aggregate, id,
          d.db.outbox[id].envelope.event)
    ensures StreamsArePrefixes(d.db, n) && UserStreamsInterleave(d.db, n)
    ensures SentIsInStream(d.(redis := n)) && InStream(n, id)
  {
    hide OutboxMirrorsLogs, OnlyRefusedAreDead, StreamsArePrefixes, UserStreamsInterleave, PassesPublishChecks,
        PriorsSettled, PublishScript;
    ScriptExtendsByOne(d, id);
    if Sequence(d.redis, id.generation) + 1 == id.draw {
      var p := LogOf(d.db, id.generation)[id.draw - 1];
      ExtendedKeepsPrefixes(d.db, d.redis, d.db.outbox[id].envelope.user, p);
      ExtendedKeepsInterleaving(d.db, d.redis, d.db.outbox[id].envelope.user, p);
    }
  }

  // ---------- Row updates that only unlock, mark or bury ----------

  // The same rows, possibly relocked; published and buried rows stay so.
  ghost predicate RowsProgress(a: Db, b: Db) {
    && b == a.(outbox := b.outbox)
    && a.outbox.Keys == b.outbox.Keys
    && forall id :: id in a.outbox ==>
         && b.outbox[id].aggregate == a.outbox[id].aggregate && b.outbox[id].envelope == a.outbox[id].envelope
         && (a.outbox[id].published ==> b.outbox[id].published)
         && (a.outbox[id].deadLettered ==> b.outbox[id].deadLettered)
  }

  lemma ProgressKeepsMirror(a: Db, b: Db)
    requires RowsProgress(a, b) && OutboxMirrorsLogs(a)
    ensures OutboxMirrorsLogs(b)
  {
    forall id | id in b.outbox ensures RowMirrors(b, id) {
      assert RowMirrors(a, id);
    }
    assert forall g :: LogOf(a, g) == LogOf(b, g);
  }

  lemma ProgressKeepsSettled(a: Db, b: Db, id: EventId)
    requires RowsProgress(a, b) && PriorsSettled(a.outbox, id)
    ensures PriorsSettled(b.outbox, id)
  {
  }

  lemma ProgressKeepsOrder(a: Delivery, b: Delivery)
    requires RowsProgress(a.db, b.db) && JobsInOrder(a) && b.jobs.Keys <= a.jobs.Keys
    ensures JobsInOrder(b)
  {
    forall j | j in b.jobs ensures PriorsSettled(b.db.outbox, j.1) {
      ProgressKeepsSettled(a.db, b.db, j.1);
    }
  }

  lemma ProgressKeepsStreams(a: Db, b: Db, r: Redis)
    requires RowsProgress(a, b) && StreamsArePrefixes(a, r) && UserStreamsInterleave(a, r)
    ensures StreamsArePrefixes(b, r) && UserStreamsInterleave(b, r)
  {
    hide EventsOf, UserStreamOf, StreamOf, Sequence;
    assert a.generations == b.generations && a.logs == b.logs;
    assert forall g :: LogOf(a, g) == LogOf(b, g);
  }

  lemma ProgressKeepsInv(a: Delivery, b: Delivery)
    requires OutboxMirrorsLogs(a.db) && JobsInOrder(a) && b.jobs.Keys <= a.jobs.Keys
    requires RowsProgress(a.db, b.db)
    requires StreamsArePrefixes(a.db, b.redis) && UserStreamsInterleave(a.db, b.redis)
    requires SentIsInStream(b) && OnlyRefusedAreDead(b.db)
    ensures RelayInv(b)
  {
    hide RowsProgress, OutboxMirrorsLogs, JobsInOrder, StreamsArePrefixes, UserStreamsInterleave, SentIsInStream,
        OnlyRefusedAreDead;
    ProgressKeepsMirror(a.db, b.db);
    ProgressKeepsOrder(a, b);
    ProgressKeepsStreams(a.db, b.db, b.redis);
  }

  // ---------- Each relay step keeps the invariant ----------

  lemma RecordFailureKeepsInv(d: Delivery, token: Token, id: EventId, refused: bool)
    requires RelayInv(d)
    requires refused && id in d.db.outbox ==> !PassesPublishChecks(id, d.db.outbox[id])
    ensures RelayInv(RecordFailure(d, token, id, refused))
  {
    hide OutboxMirrorsLogs, JobsInOrder, StreamsArePrefixes, UserStreamsInterleave;
    ProgressKeepsInv(d, RecordFailure(d, token, id, refused));
  }

  lemma MarkKeepsInv(d: Delivery, token: Token, id: EventId)
    requires RelayInv(d)
    ensures RelayInv(Mark(d, token, id))
  {
    hide OutboxMirrorsLogs, JobsInOrder, StreamsArePrefixes, UserStreamsInterleave;
    ProgressKeepsInv(d, Mark(d, token, id));
  }

  lemma CrashKeepsInv(d: Delivery, token: Token)
    requires RelayInv(d)
    ensures RelayInv(Crash(d, token))
  {
    hide OutboxMirrorsLogs, JobsInOrder, StreamsArePrefixes, UserStreamsInterleave, OnlyRefusedAreDead;
    ProgressKeepsInv(d, Crash(d, token));
  }

  lemma SentKeepsInv(d: Delivery, token: Token, id: EventId, n: Redis)
    requires RelayInv(d) && (token, id) in d.jobs
    requires id in d.db.outbox && PassesPublishChecks(id, d.db.outbox[id])
    requires n == PublishScript(d.redis, d.db.outbox[id].envelope.user, d.db.outbox[id].aggregate, id,
          d.db.outbox[id].envelope.event)
    ensures RelayInv(d.(redis := n)) && RelayInv(d.(redis := n, jobs := d.jobs[(token, id) := Sent]))
  {
    hide OutboxMirrorsLogs, StreamsArePrefixes, UserStreamsInterleave, OnlyRefusedAreDead, PublishScript,
        PassesPublishChecks, PriorsSettled;
    SendKeepsStreams(d, id, n);
    assert JobsInOrder(d.(redis := n, jobs := d.jobs[(token, id) := Sent]));
  }

  lemma SendKeepsInv(d: Delivery, token: Token, id: EventId, replyLost: bool)
    requires RelayInv(d)
    ensures RelayInv(Send(d, token, id, replyLost))
  {
    hide RelayInv, PublishScript, PassesPublishChecks, RecordFailure;
    if (token, id) in d.jobs && d.jobs[(token, id)].Locked? && id in d.db.outbox {
      if !PassesPublishChecks(id, d.db.outbox[id]) {
        RecordFailureKeepsInv(d, token, id, true);
      } else {
        var row := d.db.outbox[id];
        var n := PublishScript(d.redis, row.envelope.user, row.aggregate, id, row.envelope.event);
        SentKeepsInv(d, token, id, n);
        AddresseeMatches(d, id);
        RecordFailureKeepsInv(d.(redis := n), token, id, false);
      }
    }
  }

  // The row's addressee is always the generation's user, so the relay's lookup never skips a row.
  lemma AddresseeMatches(d: Delivery, id: EventId)
    requires RelayInv(d) && id in d.db.outbox
    ensures d.db.outbox[id].aggregate in d.db.generations
    ensures d.db.generations[d.db.outbox[id].aggregate].user == d.db.outbox[id].envelope.user
  {
    hide StreamsArePrefixes, UserStreamsInterleave, JobsInOrder, SentIsInStream, OnlyRefusedAreDead;
    assert RowMirrors(d.db, id);
  }

  lemma CandidateSettled(db: Db, id: EventId, expired: set<EventId>)
    requires OutboxMirrorsLogs(db) && Candidate(db.outbox, id, expired)
    ensures PriorsSettled(db.outbox, id)
  {
    assert RowMirrors(db, id);
    forall prior | prior in db.outbox && prior.generation == id.generation && prior.draw < id.draw
      ensures !Outstanding(db.outbox[prior])
    {
      assert RowMirrors(db, prior);
    }
  }

  lemma LockProgress(d: Delivery, token: Token, chosen: set<EventId>, expired: set<EventId>)
    requires MayLock(d.db.outbox, chosen, expired)
    ensures var n := Lock(d, token, chosen, expired);
            && RowsProgress(d.db, n.db)
            && n.redis == d.redis
            && n.jobs.Keys == d.jobs.Keys + Batch(token, chosen)
            && forall id :: id in chosen ==> id in d.db.outbox
  {
    hide PassesPublishChecks;
    forall id | id in chosen ensures id in d.db.outbox {
      assert Candidate(d.db.outbox, id, expired);
    }
  }

  lemma LockKeepsSent(d: Delivery, token: Token, chosen: set<EventId>, expired: set<EventId>)
    requires SentIsInStream(d) && OnlyRefusedAreDead(d.db) && MayLock(d.db.outbox, chosen, expired)
    ensures SentIsInStream(Lock(d, token, chosen, expired)) && OnlyRefusedAreDead(Lock(d, token, chosen, expired).db)
  {
    hide Candidate;
  }

  lemma LockKeepsOrder(d: Delivery, n: Delivery, token: Token, chosen: set<EventId>, expired: set<EventId>)
    requires OutboxMirrorsLogs(d.db) && JobsInOrder(d) && MayLock(d.db.outbox, chosen, expired)
    requires RowsProgress(d.db, n.db) && n.jobs.Keys == d.jobs.Keys + Batch(token, chosen)
    requires forall id :: id in chosen ==> id in d.db.outbox
    ensures JobsInOrder(n)
  {
    hide OutboxMirrorsLogs, Candidate, PriorsSettled;
    forall j | j in n.jobs ensures j.1 in n.db.outbox && PriorsSettled(n.db.outbox, j.1) {
      if j in Batch(token, chosen) {
        CandidateSettled(d.db, j.1, expired);
      }
      ProgressKeepsSettled(d.db, n.db, j.1);
    }
  }

  lemma LockKeepsInv(d: Delivery, token: Token, chosen: set<EventId>, expired: set<EventId>)
    requires RelayInv(d)
    ensures RelayInv(Lock(d, token, chosen, expired))
  {
    hide OutboxMirrorsLogs, StreamsArePrefixes, UserStreamsInterleave, SentIsInStream, JobsInOrder,
        OnlyRefusedAreDead, Candidate, RowsProgress;
    if MayLock(d.db.outbox, chosen, expired) {
      var n := Lock(d, token, chosen, expired);
      LockProgress(d, token, chosen, expired);
      LockKeepsSent(d, token, chosen, expired);
      LockKeepsOrder(d, n, token, chosen, expired);
      ProgressKeepsMirror(d.db, n.db);
      ProgressKeepsStreams(d.db, n.db, n.redis);
    }
  }

  lemma DeliverKeepsInv(d: Delivery, s: RelayStep)
    requires RelayInv(d)
    ensures RelayInv(Deliver(d, s))
  {
    hide RelayInv, Lock, Send, Mark, Crash, RecordFailure;
    match s
    case LockStep(t, chosen, expired) => LockKeepsInv(d, t, chosen, expired);
    case SendStep(t, id, lost) => SendKeepsInv(d, t, id, lost);
    case MarkStep(t, id) => MarkKeepsInv(d, t, id);
    case FailStep(t, id) => RecordFailureKeepsInv(d, t, id, false);
    case CrashStep(t) => CrashKeepsInv(d, t);
  }
}
