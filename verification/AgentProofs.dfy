/**
 * What every run of the agent keeps, whatever the model, the tools and interruptions do: the history follows the tool
 * protocol, every call is answered by its own result, and every answer is shown once and whole.
 */
module AgentProofs {
  import opened Common
  import opened Protocol
  import opened ResponseText
  import opened AgentLog
  import opened AgentSteps

  function Last(messages: seq<Message>): Message
    requires messages != []
  {
    messages[|messages| - 1]
  }

  // ---------- The calls of a response ----------

  function PartsAt(parts: seq<Part>, x: int): seq<Part> {
    if parts == [] then []
    else
      var last := parts[|parts| - 1];
      PartsAt(parts[..|parts| - 1], x) + if last.index == x then [last] else []
  }

  function Names(parts: seq<Part>): (r: seq<string>)
    ensures |r| == |parts|
  {
    seq(|parts|, i requires 0 <= i < |parts| => parts[i].name)
  }

  // The id that was given last.
  predicate LastId(parts: seq<Part>, id: string) {
    if forall k :: 0 <= k < |parts| ==> parts[k].id == "" then id == ""
    else exists k :: 0 <= k < |parts| && LastIdAt(parts, id, k)
  }

  predicate LastIdAt(parts: seq<Part>, id: string, k: int)
    requires 0 <= k < |parts|
  {
    parts[k].id == id != "" && forall j :: k < j < |parts| ==> parts[j].id == ""
  }

  // A call is put together from all the parts that have its place.
  ghost predicate PutTogether(parts: seq<Part>, c: Call) {
    LastId(parts, c.id) && c.name == Concat(Names(parts)) && c.arguments == Concat(Arguments(parts))
  }

  lemma LastIdMore(parts: seq<Part>, id: string, p: Part)
    requires LastId(parts, id)
    ensures LastId(parts + [p], if p.id != "" then p.id else id)
  {
    var n := parts + [p];
    if p.id != "" {
      assert LastIdAt(n, p.id, |parts|);
    } else if k :| 0 <= k < |parts| && LastIdAt(parts, id, k) {
      assert LastIdAt(n, id, k);
    }
  }

  lemma PutTogetherMore(parts: seq<Part>, c: Call, p: Part)
    requires PutTogether(parts, c)
    ensures PutTogether(parts + [p], Call(if p.id != "" then p.id else c.id, c.name + p.name, c.arguments + p.arguments))
  {
    LastIdMore(parts, c.id, p);
    hide LastId, Concat;
    ConcatLast(Names(parts), p.name);
    ConcatLast(Arguments(parts), p.arguments);
    assert Names(parts + [p]) == Names(parts) + [p.name];
    assert Arguments(parts + [p]) == Arguments(parts) + [p.arguments];
  }

  lemma {:induction false} MergedIsExact(parts: seq<Part>, x: int)
    ensures x in Merged(parts) <==> PartsAt(parts, x) != []
    ensures x in Merged(parts) ==> PutTogether(PartsAt(parts, x), Merged(parts)[x])
  {
    if parts != [] {
      var front, last := parts[..|parts| - 1], parts[|parts| - 1];
      MergedIsExact(front, x);
      NothingTogether();
      hide PutTogether;
      var was := PartsAt(front, x);
      assert PartsAt(parts, x) == if last.index == x then was + [last] else was;
      if last.index == x {
        PutTogetherMore(was, if x in Merged(front) then Merged(front)[x] else Call("", "", ""), last);
      }
    }
  }

  lemma NothingTogether()
    ensures PutTogether([], Call("", "", ""))
  {
  }

  lemma {:induction false} BatchInOrder(calls: map<int, Call>, n: nat) returns (ps: seq<nat>)
    ensures Ascends(ps, n) && |ps| == |Batch(calls, n)|
    ensures forall i :: 0 <= i < |ps| ==> ps[i] in calls && Batch(calls, n)[i] == calls[ps[i]]
    ensures forall x: nat :: x in ps <==> x < n && x in calls
  {
    ps := [];
    if n > 0 {
      ps := BatchInOrder(calls, n - 1);
      if n - 1 in calls {
        ps := ps + [n - 1];
      }
    }
  }

  // The calls of a response are in the order of their places, one for each place that some part has.
  lemma CallsAreExact(chunks: seq<Chunk>) returns (ps: seq<nat>)
    ensures Ascends(ps, MAX_CALLS) && |ps| == |CallsOf(chunks)|
    ensures forall x: nat :: x in ps <==> x < MAX_CALLS && PartsAt(PartsOf(chunks), x) != []
    ensures forall i :: 0 <= i < |ps| ==> PutTogether(PartsAt(PartsOf(chunks), ps[i]), CallsOf(chunks)[i])
  {
    hide PutTogether, Merged, Batch;
    var parts := PartsOf(chunks);
    ps := BatchInOrder(Merged(parts), MAX_CALLS);
    forall x: nat ensures x in Merged(parts) <==> PartsAt(parts, x) != [] {
      MergedIsExact(parts, x);
    }
    forall i | 0 <= i < |ps| ensures PutTogether(PartsAt(parts, ps[i]), CallsOf(chunks)[i]) {
      MergedIsExact(parts, ps[i]);
    }
  }

  // ---------- A history in the middle of a batch ----------

  // A batch that was made after `front`, with k of its calls answered; `ids` are those the run had used before.
  ghost predicate InBatch(messages: seq<Message>, log: seq<Execution>, callIds: set<string>, front: seq<Message>,
      batch: seq<Call>, ids: set<string>, k: nat) {
    && k <= |batch| && MidBatch(messages, front, batch, k) && IdsUnique(messages, callIds)
    && Settled(log, messages, ids + Ids(batch[..k]))
  }

  lemma InBatchNext(messages: seq<Message>, log: seq<Execution>, callIds: set<string>, front: seq<Message>,
      batch: seq<Call>, ids: set<string>, k: nat, run: seq<Execution>, text: string)
    requires InBatch(messages, log, callIds, front, batch, ids, k) && k < |batch| && IdsFit(ids, batch)
    requires if run == [] then text == REJECTED_RESULT || text == ACCEPTED_RESULT || text == SKIPPED_RESULT
             else |run| == 1 && run[0].callId == batch[k].id && text == AnswerOf(run[0])
    ensures InBatch(messages + [ToolResult(batch[k].id, text)], log + run, callIds, front, batch, ids, k + 1)
  {
    MidBatchNext(messages, front, batch, k, text);
    IdsAppend(messages, callIds, ToolResult(batch[k].id, text), callIds);
    NewId(ids, batch, k);
    SettledMore(log, messages, ids + Ids(batch[..k]), run, batch[k].id, text);
    hide MidBatch, IdsUnique, Settled, IdsFit, AnswerOf, Ids;
    assert ids + Ids(batch[..k]) + {batch[k].id} == ids + Ids(batch[..k + 1]);
  }

  lemma NewId(ids: set<string>, batch: seq<Call>, k: nat)
    requires k < |batch| && IdsFit(ids, batch)
    ensures batch[k].id !in ids + Ids(batch[..k]) && Ids(batch[..k + 1]) == Ids(batch[..k]) + {batch[k].id}
  {
    assert batch[..k + 1] == batch[..k] + [batch[k]];
    assert batch[k] in batch;
  }

  lemma InBatchReword(messages: seq<Message>, log: seq<Execution>, callIds: set<string>, front: seq<Message>,
      batch: seq<Call>, ids: set<string>, k: nat, more: string)
    requires InBatch(messages, log, callIds, front, batch, ids, k)
    ensures InBatch(Reworded(messages, |front|, more), log, callIds, front, batch, ids, k)
  {
    var n := Reworded(messages, |front|, more);
    MidBatchReword(messages, front, batch, k, n[|front|].text);
    IdsReword(messages, callIds, |front|, n[|front|].text);
    SettledStill(log, messages, n, ids + Ids(batch[..k]), ids + Ids(batch[..k]));
  }

  lemma {:induction false} InBatchSkips(messages: seq<Message>, log: seq<Execution>, callIds: set<string>,
      front: seq<Message>, batch: seq<Call>, ids: set<string>, k: nat)
    requires InBatch(messages, log, callIds, front, batch, ids, k) && IdsFit(ids, batch)
    ensures InBatch(messages + Skips(batch[k..]), log, callIds, front, batch, ids, |batch|)
    decreases |batch| - k
  {
    hide InBatch, IdsFit;
    assert InBatch(messages, log, callIds, front, batch, ids, k);
    Within(messages, log, callIds, front, batch, ids, k);
    if k < |batch| {
      var now := messages + [ToolResult(batch[k].id, SKIPPED_RESULT)];
      assert log + [] == log;
      InBatchNext(messages, log, callIds, front, batch, ids, k, [], SKIPPED_RESULT);
      InBatchSkips(now, log, callIds, front, batch, ids, k + 1);
      assert messages + Skips(batch[k..]) == now + Skips(batch[k + 1..]);
    } else {
      assert messages + Skips(batch[k..]) == messages;
    }
  }

  lemma Within(messages: seq<Message>, log: seq<Execution>, callIds: set<string>, front: seq<Message>,
      batch: seq<Call>, ids: set<string>, k: nat)
    requires InBatch(messages, log, callIds, front, batch, ids, k)
    ensures k <= |batch|
  {
  }

  // The history of a run between its rounds.
  ghost predicate Whole(messages: seq<Message>, log: seq<Execution>, ids: set<string>) {
    && |messages| >= 2 && messages[1].User? && WellFormed(messages[2..])
    && IdsUnique(messages, ids) && Settled(log, messages, ids)
  }

  lemma InBatchStart(messages: seq<Message>, log: seq<Execution>, ids: set<string>, content: string, batch: seq<Call>)
    requires Whole(messages, log, ids) && IdsFit(ids, batch)
    ensures InBatch(messages + [Assistant(content, batch)], log, ids + Ids(batch), messages, batch, ids, 0)
  {
    hide WellFormed;
    var m := Assistant(content, batch);
    MidBatchStart(messages, m);
    assert Ids(batch) !! ids;
    IdsAppend(messages, ids, m, ids + Ids(batch));
    SettledStill(log, messages, messages + [m], ids, ids);
    assert ids + Ids(batch[..0]) == ids;
  }

  lemma InBatchEnd(messages: seq<Message>, log: seq<Execution>, front: seq<Message>, batch: seq<Call>,
      ids: set<string>)
    requires InBatch(messages, log, ids + Ids(batch), front, batch, ids, |batch|)
    requires batch != [] && DistinctCalls(batch) && |front| >= 2 && front[1].User? && WellFormed(front[2..])
    ensures Whole(messages, log, ids + Ids(batch))
  {
    BatchCompletes(messages, front, batch);
    assert messages[1] == messages[..|front|][1];
    assert batch[..|batch|] == batch;
  }

  lemma WholeWith(messages: seq<Message>, log: seq<Execution>, ids: set<string>, m: Message)
    requires Whole(messages, log, ids) && !m.ToolResult? && !Calling(m)
    ensures Whole(messages + [m], log, ids)
  {
    SingleFollows(messages, m);
    IdsAppend(messages, ids, m, ids);
    SettledStill(log, messages, messages + [m], ids, ids);
  }

  // ---------- One call ----------

  // Nothing changes that a round only changes outside its calls.
  ghost predicate SameRound(v: State, w: State) {
    && w.answers == v.answers && w.asked == v.asked && w.callIds == v.callIds && w.modelCalls == v.modelCalls
    && w.answered == v.answered && w.responseText == v.responseText && w.contextRetried == v.contextRetried
    && w.finishReminders == v.finishReminders && w.languageRetries == v.languageRetries
  }

  // What only grows, and what is over in a closing run.
  ghost predicate Moves(v: State, w: State) {
    && v.executed <= w.executed && v.texts <= w.texts && v.answers <= w.answers && v.asked <= w.asked
    && (v.closingOnly ==> w.closingOnly && w.texts == v.texts)
    && (v.awaitingConclusion ==> w.awaitingConclusion)
    && (v.closingOnly || v.awaitingConclusion ==> w.executed == v.executed)
  }

  // A call of finish_analysis, or of a tool that does not run, executes nothing; otherwise it is allowed.
  ghost predicate Ran(v: State, w: State, t: Terms, call: Call, a: Attempt, ran: bool) {
    var e := ExecutionOf(v.modelCalls, call, a);
    && w.executed == v.executed + (if ran then [e] else [])
    && (ran ==> call.name != FINISH && !v.closingOnly && !v.awaitingConclusion && AllowedAfter(v.executed, e, t.tools))
  }

  // The text that the call is answered with.
  ghost predicate AnsweredAs(v: State, call: Call, a: Attempt, ran: bool, end: CallEnd) {
    var e := ExecutionOf(v.modelCalls, call, a);
    && (end.Result? ==> end.text == if ran then AnswerOf(e) else ACCEPTED_RESULT)
    && (end.Rejected? && ran ==> AnswerOf(e) == REJECTED_RESULT)
    && (end.Stopped? ==> ran && AnswerOf(e) == STOPPED_RESULT)
  }

  // An accepted finish.
  ghost predicate Accepted(w: State, t: Terms, o: Outcome) {
    && MayFinish(w, t) && w.closingOnly && o.text == w.responseText && Honest(o.finishing)
  }

  lemma ExecutedFacts(v: State, w: State, call: Call, a: Attempt, quiet: bool, end: CallEnd)
    requires Executed(v, w, call, a, quiet, end)
    ensures w.executed == v.executed + [ExecutionOf(v.modelCalls, call, a)] && AnsweredAs(v, call, a, true, end)
    ensures SameRound(v, w) && w.messages == v.messages && v.texts <= w.texts
    ensures w.closingOnly == v.closingOnly && w.awaitingConclusion == v.awaitingConclusion
    ensures w.repeatedCount == v.repeatedCount && w.repeatedAction == v.repeatedAction
    ensures end.Result? ==> end.outcome.None?
  {
    var u := v.(executed := v.executed + [ExecutionOf(v.modelCalls, call, a)]);
    assert w == u || w == Line(u, FAILED_QUERY_TEXT);
    hide Line, ExecutionOf;
    LineFacts(u, FAILED_QUERY_TEXT);
  }

  lemma LineFacts(v: State, text: string)
    ensures var w := Line(v, text);
            && w == v.(texts := w.texts, roundTextStarted := true, hasVisibleText := true) && v.texts <= w.texts
  {
  }

  lemma NarratedFacts(v: State, w: State, call: Call, a: Attempt, b: Batching, narrated: set<string>, now: set<string>)
    requires Narrated(v, w, call, a, b, narrated, now)
    ensures w.messages == v.messages || w.messages == Reworded(v.messages, b.at, a.narrative)
    ensures SameRound(v, w) && v.texts <= w.texts && w.executed == v.executed
    ensures w.closingOnly == v.closingOnly && w.awaitingConclusion == v.awaitingConclusion
    ensures w.repeatedCount == v.repeatedCount && w.repeatedAction == v.repeatedAction
  {
    hide Reworded;
  }

  // What a call does, whatever its tool does.
  ghost predicate CallFacts(v: State, w: State, t: Terms, call: Call, a: Attempt, b: Batching, ran: bool,
      end: CallEnd) {
    && Ran(v, w, t, call, a, ran) && AnsweredAs(v, call, a, ran, end)
    && (w.messages == v.messages || w.messages == Reworded(v.messages, b.at, a.narrative))
    && SameRound(v, w) && Moves(v, w) && (call.name == FINISH ==> w.texts == v.texts)
    && w.repeatedCount == v.repeatedCount && w.repeatedAction == v.repeatedAction
    && (end.Result? && end.outcome.Some? ==> call.name == FINISH && !b.mixed && Accepted(w, t, end.outcome.value))
  }

  lemma TriedFacts(v: State, w: State, t: Terms, call: Call, a: Attempt, b: Batching, narrated: set<string>,
      now: set<string>, end: CallEnd) returns (ran: bool)
    requires Tried(v, w, t, call, a, b, narrated, now, end)
    ensures CallFacts(v, w, t, call, a, b, ran, end)
  {
    hide Narrated, Executed, AllowedAfter, AnswerOf, Reworded, Honest, Delivered;
    ran := !a.interruptedBefore && Runs(v, t, call, a, b.mixed);
    if ran {
      var u :| Narrated(v, u, call, a, b, narrated, now) && Executed(u, w, call, a, b.quiet, end);
      NarratedFacts(v, u, call, a, b, narrated, now);
      ExecutedFacts(u, w, call, a, b.quiet, end);
    } else {
      assert v.executed + [] == v.executed;
    }
  }

  lemma CaughtFacts(v: State, u: State, w: State, t: Terms, call: Call, a: Attempt, b: Batching, ran: bool,
      tried: CallEnd, end: CallEnd)
    requires CallFacts(v, u, t, call, a, b, ran, tried) && Caught(u, w, call, a, b.quiet, tried, end)
    ensures CallFacts(v, w, t, call, a, b, ran, end)
  {
    hide AllowedAfter, AnswerOf, Reworded, Honest, Delivered;
  }

  lemma CallDoneFacts(v: State, w: State, t: Terms, call: Call, a: Attempt, b: Batching, narrated: set<string>,
      now: set<string>, end: CallEnd) returns (ran: bool)
    requires CallDone(v, w, t, call, a, b, narrated, now, end)
    ensures CallFacts(v, w, t, call, a, b, ran, end)
  {
    hide Tried, Caught, CallFacts;
    var u, tried :| Tried(v, u, t, call, a, b, narrated, now, tried) && Caught(u, w, call, a, b.quiet, tried, end);
    ran := TriedFacts(v, u, t, call, a, b, narrated, now, tried);
    CaughtFacts(v, u, w, t, call, a, b, ran, tried, end);
  }

  // ---------- A batch ----------

  // What a batch keeps, wherever it stops.
  ghost predicate BatchKept(v: State, w: State, t: Terms, batch: seq<Call>) {
    && AllAllowed(w.executed, t.tools) && SameRound(v, w) && Moves(v, w)
    && (forall j :: |v.executed| <= j < |w.executed| ==> w.executed[j].round == v.modelCalls)
    && (OnlyFinish(batch) ==> w.texts == v.texts && w.executed == v.executed)
  }

  ghost predicate BatchInv(v: State, w: State, t: Terms, front: seq<Message>, batch: seq<Call>, ids: set<string>,
      k: nat) {
    && BatchKept(v, w, t, batch) && InBatch(w.messages, w.executed, w.callIds, front, batch, ids, k)
    && (k > 0 ==> w.repeatedCount < MAX_REPEATS)
  }

  // All answered, but for an execution that ended the run.
  ghost predicate Ended(w: State, ids: set<string>) {
    Settled(w.executed, w.messages, ids) || SettledButLast(w.executed, w.messages, ids)
  }

  lemma BatchKeptOn(v: State, u: State, x: State, t: Terms, batch: seq<Call>, k: nat, a: Attempt, b: Batching,
      ran: bool, end: CallEnd)
    requires BatchKept(v, u, t, batch) && k < |batch| && CallFacts(u, x, t, batch[k], a, b, ran, end)
    ensures BatchKept(v, x, t, batch)
  {
    hide AllowedAfter, AllAllowed, AnswerOf, Accepted;
    if ran {
      AllowedExtends(u.executed, ExecutionOf(u.modelCalls, batch[k], a), t.tools);
    } else {
      assert u.executed + [] == u.executed;
    }
    assert batch[k] in batch;
  }

  // From the end of a call to its result in the history.
  lemma SettlesFacts(v: State, u: State, x: State, w: State, t: Terms, front: seq<Message>, batch: seq<Call>,
      ids: set<string>, k: nat, a: Attempt, b: Batching, ran: bool, called: CallEnd, end: Option<RoundEnd>,
      outcome: Option<Outcome>)
    requires k < |batch| && IdsFit(ids, batch) && b.at == |front|
    requires InBatch(u.messages, u.executed, u.callIds, front, batch, ids, k)
    requires CallFacts(u, x, t, batch[k], a, b, ran, called) && Settles(x, w, batch, k, called, end, outcome)
    ensures end.None? ==> InBatch(w.messages, w.executed, w.callIds, front, batch, ids, k + 1)
    ensures end.Some? && end.value.SecurityStop? ==>
              InBatch(w.messages, w.executed, w.callIds, front, batch, ids, |batch|)
    ensures end.Some? && end.value.Raised? ==> Ended(w, ids + Ids(batch))
    ensures end.Some? ==> end.value.SecurityStop? || end.value.Raised?
  {
    hide InBatch, IdsFit, AnswerOf, Accepted, Reworded, Settled, SettledButLast, AllowedAfter;
    var e := ExecutionOf(u.modelCalls, batch[k], a);
    var run := if ran then [e] else [];
    InBatchReword(u.messages, u.executed, u.callIds, front, batch, ids, k, a.narrative);
    assert InBatch(x.messages, u.executed, x.callIds, front, batch, ids, k);
    match called {
      case Fatal(code) =>
        OpenAt(x.messages, u.executed, x.callIds, front, batch, ids, k, run);
      case Stopped(code) =>
        InBatchNext(x.messages, u.executed, x.callIds, front, batch, ids, k, run, STOPPED_RESULT);
        var now := x.messages + [ToolResult(batch[k].id, STOPPED_RESULT)];
        InBatchSkips(now, x.executed, x.callIds, front, batch, ids, k + 1);
      case Rejected =>
        InBatchNext(x.messages, u.executed, x.callIds, front, batch, ids, k, run, REJECTED_RESULT);
        PartlySettled(w.messages, w.executed, w.callIds, front, batch, ids, k + 1);
      case Result(text, o) =>
        InBatchNext(x.messages, u.executed, x.callIds, front, batch, ids, k, run, text);
        PartlySettled(w.messages, w.executed, w.callIds, front, batch, ids, k + 1);
    }
  }

  lemma PartlySettled(messages: seq<Message>, log: seq<Execution>, callIds: set<string>, front: seq<Message>,
      batch: seq<Call>, ids: set<string>, k: nat)
    requires InBatch(messages, log, callIds, front, batch, ids, k)
    ensures Settled(log, messages, ids + Ids(batch))
  {
    hide MidBatch, IdsUnique, Settled;
    SettledStill(log, messages, messages, ids + Ids(batch[..k]), ids + Ids(batch));
  }

  lemma OpenAt(messages: seq<Message>, log: seq<Execution>, callIds: set<string>, front: seq<Message>,
      batch: seq<Call>, ids: set<string>, k: nat, run: seq<Execution>)
    requires InBatch(messages, log, callIds, front, batch, ids, k) && k < |batch| && IdsFit(ids, batch)
    requires |run| <= 1 && (run != [] ==> run[0].callId == batch[k].id)
    ensures Settled(log + run, messages, ids + Ids(batch)) || SettledButLast(log + run, messages, ids + Ids(batch))
  {
    PartlySettled(messages, log, callIds, front, batch, ids, k);
    NewId(ids, batch, k);
    hide MidBatch, IdsUnique, IdsFit, AnswerStands, AnswerOf;
    if run == [] {
      assert log + run == log;
    } else {
      assert (log + run)[..|log + run| - 1] == log;
    }
  }

  // What is new when a result has been appended, or the run was stopped: nothing but the history and the count.
  lemma SettlesKeeps(v: State, x: State, w: State, t: Terms, batch: seq<Call>, k: nat, called: CallEnd,
      end: Option<RoundEnd>, outcome: Option<Outcome>)
    requires k < |batch| && BatchKept(v, x, t, batch) && Settles(x, w, batch, k, called, end, outcome)
    requires called.Stopped? ==> !v.closingOnly && !OnlyFinish(batch)
    ensures BatchKept(v, w, t, batch)
    ensures end.None? ==> w.repeatedCount < MAX_REPEATS
    ensures outcome.Some? ==> called.Result? && called.outcome == outcome
    ensures x.closingOnly == w.closingOnly && x.executed == w.executed && SameRound(x, w)
  {
    hide AllAllowed, Skips;
  }

  lemma TakenFacts(v: State, u: State, w: State, t: Terms, front: seq<Message>, batch: seq<Call>, ids: set<string>,
      k: nat, attempts: map<string, Attempt>, b: Batching, narrated: set<string>, now: set<string>,
      end: Option<RoundEnd>, outcome: Option<Outcome>)
    requires k < |batch| && IdsFit(ids, batch) && b == Batching(|front|, Mixed(batch), b.quiet)
    requires BatchInv(v, u, t, front, batch, ids, k)
    requires Taken(u, w, t, batch, k, attempts, b, narrated, now, end, outcome)
    ensures BatchKept(v, w, t, batch)
    ensures end.None? ==> BatchInv(v, w, t, front, batch, ids, k + 1)
    ensures end.Some? && end.value.SecurityStop? ==>
              InBatch(w.messages, w.executed, w.callIds, front, batch, ids, |batch|)
    ensures end.Some? && end.value.Raised? ==> Ended(w, ids + Ids(batch))
    ensures end.Some? ==> end.value.SecurityStop? || end.value.Raised?
    ensures end.Some? && (v.closingOnly || v.awaitingConclusion || OnlyFinish(batch)) ==> end.value.Raised?
    ensures outcome.Some? ==> |batch| == 1 && OnlyFinish(batch) && Accepted(w, t, outcome.value)
    ensures outcome.Some? ==> w.messages != [] && Last(w.messages) == ToolResult(batch[k].id, ACCEPTED_RESULT)
  {
    hide CallDone, Settles, CallFacts, InBatch, IdsFit, BatchKept, Ended, Mixed, Accepted, OnlyFinish;
    var x, called :|
      && CallDone(u, x, t, batch[k], AttemptOf(attempts, batch[k].id), b, narrated, now, called)
      && Settles(x, w, batch, k, called, end, outcome);
    var a := AttemptOf(attempts, batch[k].id);
    var ran := CallDoneFacts(u, x, t, batch[k], a, b, narrated, now, called);
    BatchKeptOn(v, u, x, t, batch, k, a, b, ran, called);
    CallEnds(v, u, x, t, batch, k, a, b, ran, called);
    SettlesKeeps(v, x, w, t, batch, k, called, end, outcome);
    SettlesFacts(v, u, x, w, t, front, batch, ids, k, a, b, ran, called, end, outcome);
    StopsOnlyIfStopped(x, w, batch, k, called, end, outcome);
    if outcome.Some? {
      StillAccepted(x, w, t, outcome.value);
      LastIsAppended(x, w, batch, k, called, end, outcome);
    }
  }

  // A security stop comes from a tool that ran, and an accepted finish is alone in its batch.
  lemma CallEnds(v: State, u: State, x: State, t: Terms, batch: seq<Call>, k: nat, a: Attempt, b: Batching, ran: bool,
      called: CallEnd)
    requires BatchKept(v, u, t, batch) && k < |batch| && b.mixed == Mixed(batch)
    requires CallFacts(u, x, t, batch[k], a, b, ran, called)
    ensures called.Stopped? ==> !v.closingOnly && !v.awaitingConclusion && !OnlyFinish(batch)
    ensures called.Result? && called.outcome.Some? ==>
              && |batch| == 1 && OnlyFinish(batch) && Accepted(x, t, called.outcome.value)
              && called.text == ACCEPTED_RESULT
  {
    hide AllAllowed, AllowedAfter, AnswerOf, Accepted;
    assert batch[k] in batch;
  }

  lemma StopsOnlyIfStopped(x: State, w: State, batch: seq<Call>, k: nat, called: CallEnd, end: Option<RoundEnd>,
      outcome: Option<Outcome>)
    requires k < |batch| && Settles(x, w, batch, k, called, end, outcome)
    ensures end.Some? && end.value.SecurityStop? ==> called.Stopped?
  {
    hide Secured;
  }

  lemma LastIsAppended(x: State, w: State, batch: seq<Call>, k: nat, called: CallEnd, end: Option<RoundEnd>,
      outcome: Option<Outcome>)
    requires k < |batch| && called.Result? && Settles(x, w, batch, k, called, end, outcome)
    ensures w.messages != [] && Last(w.messages) == ToolResult(batch[k].id, called.text)
  {
  }

  lemma StillAccepted(x: State, w: State, t: Terms, o: Outcome)
    requires Accepted(x, t, o) && x.closingOnly == w.closingOnly && x.executed == w.executed && SameRound(x, w)
    ensures Accepted(w, t, o)
  {
  }

  lemma {:induction false} HandledFacts(v: State, w: State, t: Terms, front: seq<Message>, batch: seq<Call>,
      ids: set<string>, k: nat, attempts: map<string, Attempt>, b: Batching, now: set<string>,
      outcome: Option<Outcome>)
    requires k <= |batch| && IdsFit(ids, batch) && b == Batching(|front|, Mixed(batch), b.quiet)
    requires BatchInv(v, v, t, front, batch, ids, 0)
    requires Handled(v, w, t, batch, k, attempts, b, now, outcome)
    ensures BatchInv(v, w, t, front, batch, ids, k)
    decreases k
  {
    hide IdsFit, Mixed, BatchInv, Taken;
    if k > 0 {
      var j := k - 1;
      var u, was, o :|
        && Handled(v, u, t, batch, j, attempts, b, was, o)
        && Taken(u, w, t, batch, j, attempts, b, was, now, None, outcome);
      HandledFacts(v, u, t, front, batch, ids, j, attempts, b, was, o);
      TakenFacts(v, u, w, t, front, batch, ids, j, attempts, b, was, now, None, outcome);
    }
  }

  ghost predicate EndsAccepted(messages: seq<Message>) {
    messages != [] && Last(messages).ToolResult? && Last(messages).text == ACCEPTED_RESULT
  }

  // What a batch comes to.
  ghost predicate BatchFacts(v: State, w: State, t: Terms, front: seq<Message>, batch: seq<Call>, ids: set<string>,
      r: RoundEnd) {
    && BatchKept(v, w, t, batch)
    && (r.Raised? ==> Ended(w, ids + Ids(batch)))
    && (!r.Raised? ==> InBatch(w.messages, w.executed, w.callIds, front, batch, ids, |batch|))
    && (r.SecurityStop? ==> !v.closingOnly && !v.awaitingConclusion && !OnlyFinish(batch))
    && (r.GoesOn? || r.Finished? ==> w.repeatedCount < MAX_REPEATS)
    && !r.Refused?
    && (r.Finished? ==> OnlyFinish(batch) && Accepted(w, t, r.outcome) && EndsAccepted(w.messages))
  }

  lemma BatchHasFacts(v: State, w: State, t: Terms, front: seq<Message>, batch: seq<Call>, ids: set<string>,
      attempts: map<string, Attempt>, b: Batching, r: RoundEnd)
    requires IdsFit(ids, batch) && b == Batching(|front|, Mixed(batch), b.quiet)
    requires BatchInv(v, v, t, front, batch, ids, 0) && BatchDone(v, w, t, batch, attempts, b, r)
    ensures BatchFacts(v, w, t, front, batch, ids, r)
  {
    hide IdsFit, Mixed, InBatch, BatchKept, Taken, Handled, Ended, Accepted, OnlyFinish;
    var k: nat, u, was, o, now, end, outcome :|
      && k < |batch| && Handled(v, u, t, batch, k, attempts, b, was, o)
      && Taken(u, w, t, batch, k, attempts, b, was, now, end, outcome)
      && if end.Some? then r == end.value
         else k + 1 == |batch| && r == if outcome.Some? then Finished(outcome.value) else GoesOn;
    HandledFacts(v, u, t, front, batch, ids, k, attempts, b, was, o);
    TakenFacts(v, u, w, t, front, batch, ids, k, attempts, b, was, now, end, outcome);
  }

  // ---------- Answers ----------

  // The whole text, once, and nothing else.
  ghost predicate PublishedOnce(start: seq<string>, texts: seq<string>, lead: string, content: string) {
    !Blank(content) && start <= texts && Concat(texts[|start|..]) == lead + content
  }

  // A round adds at most one answer, and then its text is all that the round publishes.
  ghost predicate AnswersGrow(was: seq<string>, now: seq<string>, start: seq<string>, texts: seq<string>,
      lead: string) {
    now == was || exists content :: now == was + [content] && PublishedOnce(start, texts, lead, content)
  }

  // No answer is blank, and each is the whole of some stretch of the published text, but for a blank line before it.
  // The stretches are in order and do not overlap.
  ghost predicate AnswersShown(answers: seq<string>, texts: seq<string>) {
    answers == [] || exists a, b, visible :: 0 <= a <= b <= |texts| && AnswersEnd(answers, texts, a, b, visible)
  }

  // The last answer is the stretch from a to b, the others come before it.
  ghost predicate AnswersEnd(answers: seq<string>, texts: seq<string>, a: nat, b: nat, visible: bool)
    requires answers != [] && a <= b <= |texts|
  {
    && !Blank(answers[|answers| - 1])
    && Concat(texts[a..b]) == Lead(visible) + answers[|answers| - 1]
    && AnswersShown(answers[..|answers| - 1], texts[..a])
  }

  lemma ShownLater(answers: seq<string>, start: seq<string>, texts: seq<string>)
    requires start <= texts && AnswersShown(answers, start)
    ensures AnswersShown(answers, texts)
  {
    if answers != [] {
      var a, b, visible :| 0 <= a <= b <= |start| && AnswersEnd(answers, start, a, b, visible);
      assert texts[a..b] == start[a..b] && texts[..a] == start[..a];
      assert AnswersEnd(answers, texts, a, b, visible);
    }
  }

  lemma StillShown(was: seq<string>, now: seq<string>, start: seq<string>, texts: seq<string>, visible: bool)
    requires AnswersShown(was, start) && start <= texts && AnswersGrow(was, now, start, texts, Lead(visible))
    ensures AnswersShown(now, texts) && was <= now
  {
    if now == was {
      ShownLater(was, start, texts);
    } else {
      assert now[..|now| - 1] == was && texts[..|start|] == start && texts[|start|..|texts|] == texts[|start|..];
      assert AnswersEnd(now, texts, |start|, |texts|, visible);
    }
  }

  // ---------- A round ----------

  function Histories(asked: seq<Request>): seq<seq<Message>> {
    seq(|asked|, i requires 0 <= i < |asked| => asked[i].messages)
  }

  // What a run keeps to its end. Only known tools ran, no query that had failed twice ran again, and a chart only used
  // evidence of an earlier round; the model was only asked with contexts that fit, made from histories that hold the
  // answers to all that had run; and every answer is shown.
  ghost predicate Kept(v: State, t: Terms) {
    && AllAllowed(v.executed, t.tools) && RoundsOrdered(v.executed, v.modelCalls)
    && |v.asked| == v.modelCalls && (forall k :: 0 <= k < |v.asked| ==> Fits(v.asked[k], t.cost))
    && HeardBack(v.executed, Histories(v.asked))
    && AnswersShown(v.answers, v.texts) && (v.answered <==> v.answers != [])
  }

  // And between its rounds.
  ghost predicate Sound(v: State, t: Terms) {
    && Kept(v, t) && Whole(v.messages, v.executed, v.callIds)
    && v.languageRetries <= 1 && v.finishReminders <= 1 && v.repeatedCount < MAX_REPEATS
    && (v.finishReminders > 0 ==> v.closingOnly)
  }

  lemma BegunIsSound(v: State, t: Terms, q: Request)
    requires Sound(v, t) && Fits(q, t.cost) && q.messages == v.messages
    ensures Sound(Begun(v, q), t) && Moves(v, Begun(v, q))
  {
    hide AllAllowed, Fits, AnswersShown, WellFormed, IdsUnique, HeardBack, Settled;
    AskedWithAnswers(v.executed, Histories(v.asked), v.messages, v.callIds);
    assert Histories(v.asked + [q]) == Histories(v.asked) + [v.messages];
  }

  lemma StreamedIsSound(v: State, w: State, t: Terms, out: string)
    requires Sound(v, t) && Streamed(v, w, out)
    ensures Sound(w, t) && Moves(v, w) && w.answers == v.answers
  {
    hide Sound, Moves, AnswersShown, Concat;
    SoundIsAnswered(v, t);
    ShownLater(v.answers, v.texts, w.texts);
    TextKeepsSound(v, w, t);
  }

  // A round whose text is an answer has published that text and nothing else.
  lemma AnswerIsShown(v: State, u: State, x: State, said: string, batch: seq<Call>)
    requires AnswersShown(v.answers, v.texts) && Streamed(v, u, said) && Answered(u, x, said, batch)
    ensures AnswersGrow(v.answers, x.answers, v.texts, x.texts, Lead(v.hasVisibleText))
    ensures AnswersShown(x.answers, x.texts) && v.answers <= x.answers
    ensures x.answers == v.answers || OnlyFinish(batch)
  {
    assert Blank("");
    hide Blank, AnswersShown, Concat;
    if x.answers == v.answers {
      ShownLater(v.answers, v.texts, x.texts);
    } else {
      assert PublishedOnce(v.texts, x.texts, Lead(v.hasVisibleText), said);
      StillShown(v.answers, x.answers, v.texts, x.texts, v.hasVisibleText);
    }
  }

  // Only the text of a round is different.
  ghost predicate SameButText(v: State, x: State) {
    && x.messages == v.messages && x.executed == v.executed && x.asked == v.asked && x.callIds == v.callIds
    && x.modelCalls == v.modelCalls && x.closingOnly == v.closingOnly && x.awaitingConclusion == v.awaitingConclusion
    && x.repeatedCount == v.repeatedCount && x.finishReminders == v.finishReminders
    && x.languageRetries == v.languageRetries && (v.closingOnly ==> x.texts == v.texts)
  }

  lemma SpeechIsText(v: State, u: State, x: State, said: string, batch: seq<Call>)
    requires Streamed(v, u, said) && Answered(u, x, said, batch)
    ensures SameButText(v, x) && v.texts <= x.texts
    ensures (v.answered <==> v.answers != []) ==> (x.answered <==> x.answers != [])
  {
    hide Concat, Blank, OnlyFinish;
  }

  lemma TextKeepsSound(v: State, x: State, t: Terms)
    requires Sound(v, t) && SameButText(v, x) && v.texts <= x.texts && v.answers <= x.answers
    requires AnswersShown(x.answers, x.texts) && (x.answered <==> x.answers != [])
    ensures Sound(x, t) && Moves(v, x)
  {
    hide AllAllowed, Fits, AnswersShown, Whole, HeardBack, RoundsOrdered;
  }

  lemma AnsweredIsSound(v: State, u: State, x: State, t: Terms, said: string, batch: seq<Call>)
    requires Sound(v, t) && Streamed(v, u, said) && Answered(u, x, said, batch)
    ensures Sound(x, t) && Moves(v, x)
    ensures AnswersGrow(v.answers, x.answers, v.texts, x.texts, Lead(v.hasVisibleText))
    ensures x.answers == v.answers || OnlyFinish(batch)
  {
    SoundIsAnswered(v, t);
    hide Sound, Streamed, Answered, SameButText, Moves, AnswersShown, OnlyFinish, AnswersGrow;
    AnswerIsShown(v, u, x, said, batch);
    SpeechIsText(v, u, x, said, batch);
    TextKeepsSound(v, x, t);
  }

  lemma SoundIsAnswered(v: State, t: Terms)
    requires Sound(v, t)
    ensures AnswersShown(v.answers, v.texts) && (v.answered <==> v.answers != [])
  {
  }

  // What a round comes to.
  ghost predicate RoundFacts(v: State, w: State, t: Terms, r: RoundEnd) {
    && Kept(w, t) && Moves(v, w)
    && (r.GoesOn? ==> Sound(w, t))
    && (if r.Raised? then Ended(w, w.callIds) else Whole(w.messages, w.executed, w.callIds))
    && (r.Refused? ==> r.why.TooLarge?)
    && (r.SecurityStop? ==> !v.closingOnly && !v.awaitingConclusion)
    && (r.Finished? ==> Accepted(w, t, r.outcome) && EndsAccepted(w.messages))
  }

  lemma RaisedFacts(v: State, w: State, t: Terms, code: Code)
    requires Sound(w, t) && Moves(v, w)
    ensures RoundFacts(v, w, t, Raised(code))
  {
    hide AllAllowed, Fits, AnswersShown, WellFormed, IdsUnique, HeardBack, RoundsOrdered, Settled;
  }

  lemma TextFacts(v: State, w: State, t: Terms, content: string, interrupted: bool, r: RoundEnd)
    requires Sound(v, t) && TextDone(v, w, content, interrupted, r)
    ensures RoundFacts(v, w, t, r) && w.texts == v.texts && w.answers == v.answers
  {
    hide AllAllowed, Fits, AnswersShown, Whole, HeardBack, RoundsOrdered, Blank, Settled, SettledButLast;
    var u := Noted(v, content);
    if !Blank(content) {
      WholeWith(v.messages, v.executed, v.callIds, Assistant(content, []));
    }
    WholeWith(u.messages, v.executed, v.callIds, System(REMIND_TEXT));
    WholeIsEnded(u.messages, v.executed, v.callIds);
  }

  lemma WholeIsEnded(messages: seq<Message>, log: seq<Execution>, ids: set<string>)
    requires Whole(messages, log, ids)
    ensures Settled(log, messages, ids)
  {
  }

  lemma RetryFacts(v: State, w: State, t: Terms, content: string, r: RoundEnd)
    requires Sound(v, t) && RetryDone(v, w, content, r)
    ensures RoundFacts(v, w, t, r) && w.texts == v.texts && w.answers == v.answers
  {
    hide AllAllowed, Fits, AnswersShown, Whole, HeardBack, RoundsOrdered, Settled, SettledButLast;
    WholeWith(v.messages, v.executed, v.callIds, Assistant(content, []));
    WholeWith(v.messages + [Assistant(content, [])], v.executed, v.callIds, System(LANGUAGE_TEXT));
    assert v.messages + [Assistant(content, [])] + [System(LANGUAGE_TEXT)]
        == v.messages + [Assistant(content, []), System(LANGUAGE_TEXT)];
    WholeIsEnded(v.messages, v.executed, v.callIds);
  }

  lemma ToolsFacts(v: State, w: State, t: Terms, content: string, batch: seq<Call>, attempts: map<string, Attempt>,
      interrupted: bool, r: RoundEnd)
    requires Sound(v, t) && batch != [] && ToolsDone(v, w, t, content, batch, attempts, interrupted, r)
    ensures RoundFacts(v, w, t, r) && w.answers == v.answers && (OnlyFinish(batch) ==> w.texts == v.texts)
  {
    hide AllAllowed, Fits, AnswersShown, WellFormed, IdsUnique, HeardBack, RoundsOrdered, Settled, SettledButLast,
      IdsFit, BatchDone, Mixed, Blank, OnlyFinish, InBatch, Accepted;
    if !IdsFit(v.callIds, batch) {
      SettledStill(v.executed, v.messages, v.messages, v.callIds, w.callIds);
    } else {
      var y := v.(callIds := v.callIds + Ids(batch), messages := v.messages + [Assistant(content, batch)]);
      var b := Batching(|v.messages|, Mixed(batch), Blank(content));
      var q :| BatchDone(y, w, t, batch, attempts, b, q)
          && r == if interrupted && (q.GoesOn? || q.Finished?) then Raised(Interrupted) else q;
      InBatchStart(v.messages, v.executed, v.callIds, content, batch);
      BatchHasFacts(y, w, t, v.messages, batch, v.callIds, attempts, b, q);
      BatchLeavesKept(y, w, t, batch);
      if !q.Raised? {
        DistinctInBatch(v.callIds, batch);
        InBatchEnd(w.messages, w.executed, v.messages, batch, v.callIds);
        WholeIsEnded(w.messages, w.executed, w.callIds);
      }
    }
  }

  lemma DistinctInBatch(ids: set<string>, batch: seq<Call>)
    requires IdsFit(ids, batch)
    ensures DistinctCalls(batch)
  {
  }

  lemma BatchLeavesKept(v: State, w: State, t: Terms, batch: seq<Call>)
    requires Kept(v, t) && BatchKept(v, w, t, batch)
    ensures Kept(w, t)
  {
    hide AllAllowed, Fits, AnswersShown, HeardBack;
    HeardBackMore(v.executed, w.executed, Histories(v.asked));
    ShownLater(v.answers, v.texts, w.texts);
  }

  lemma EndFacts(v: State, w: State, t: Terms, content: string, batch: seq<Call>, s: RoundScript, r: RoundEnd)
    requires Sound(v, t) && EndDone(v, w, t, content, batch, s, r)
    ensures RoundFacts(v, w, t, r) && w.answers == v.answers && (OnlyFinish(batch) ==> w.texts == v.texts)
  {
    hide Sound, RoundFacts, TextDone, ToolsDone;
    if batch == [] {
      TextFacts(v, w, t, content, s.interruptedAtEnd, r);
    } else {
      ToolsFacts(v, w, t, content, batch, s.attempts, s.interruptedAtEnd, r);
    }
  }

  // What a round adds is at most one answer, and then its text is all that the round publishes.
  ghost predicate OneAnswer(v: State, w: State) {
    AnswersGrow(v.answers, w.answers, v.texts, w.texts, Lead(v.hasVisibleText))
  }

  lemma FactsCarryOver(v: State, x: State, w: State, t: Terms, r: RoundEnd)
    requires Moves(v, x) && RoundFacts(x, w, t, r)
    requires v.closingOnly == x.closingOnly && v.awaitingConclusion == x.awaitingConclusion
    ensures RoundFacts(v, w, t, r)
  {
    hide Kept, Sound, Ended, Whole, Accepted;
  }

  lemma HeardFacts(v: State, w: State, t: Terms, s: RoundScript, r: RoundEnd)
    requires Sound(v, t) && Heard(v, w, t, s, r)
    ensures RoundFacts(v, w, t, r) && OneAnswer(v, w)
  {
    hide Sound, RoundFacts, RetryDone, EndDone, Streamed, Answered, Foreign, Concat, Fragments, CallsOf, OnlyFinish,
      Moves, SameButText;
    var content, batch := Concat(Fragments(s.chunks)), CallsOf(s.chunks);
    if Foreign(v, t, s) && OnlyFinish(batch) {
      var u :| Streamed(v, u, "") && RetryDone(u, w, content, r);
      StreamedIsSound(v, u, t, "");
      StreamedIsText(v, u, "");
      RetryFacts(u, w, t, content, r);
      FactsCarryOver(v, u, w, t, r);
    } else {
      var said := if Foreign(v, t, s) then "" else content;
      var u, x :| Streamed(v, u, said) && Answered(u, x, said, batch) && EndDone(x, w, t, said, batch, s, r);
      AnsweredIsSound(v, u, x, t, said, batch);
      SpeechIsText(v, u, x, said, batch);
      SameOpen(v, x);
      EndFacts(x, w, t, said, batch, s, r);
      FactsCarryOver(v, x, w, t, r);
      if x.answers != v.answers {
        assert w.texts == x.texts;
      }
    }
  }

  lemma SameOpen(v: State, x: State)
    requires SameButText(v, x)
    ensures x.closingOnly == v.closingOnly && x.awaitingConclusion == v.awaitingConclusion
  {
  }

  lemma StreamedIsText(v: State, w: State, out: string)
    requires Streamed(v, w, out)
    ensures w.closingOnly == v.closingOnly && w.awaitingConclusion == v.awaitingConclusion
  {
  }

  lemma UnheardFacts(v: State, w: State, t: Terms, s: RoundScript, n: nat, r: RoundEnd)
    requires Sound(v, t) && n <= |s.chunks| && Unheard(v, w, t, s, n, r)
    ensures RoundFacts(v, w, t, r) && OneAnswer(v, w)
  {
    hide Sound, RoundFacts, Streamed, Fragments, Moves, PushAll, Size, BreaksAt;
    var out := PushAll(t.tests, t.chinese, Fragments(s.chunks)[..n]).1;
    if r.Raised? {
      StreamedIsSound(v, w, t, out);
      RaisedFacts(v, w, t, r.code);
    } else {
      var u :| Streamed(v, u, out) && w == u.(contextRetried := true);
      StreamedIsSound(v, u, t, out);
      RetriedFacts(v, u, t);
    }
  }

  lemma RetriedFacts(v: State, u: State, t: Terms)
    requires Sound(u, t) && Moves(v, u)
    ensures RoundFacts(v, u.(contextRetried := true), t, GoesOn)
  {
    hide AllAllowed, Fits, AnswersShown, Whole, HeardBack, RoundsOrdered;
  }

  // The main fact about a round: whatever happens in it, a sound run stays sound, or ends with all answers given.
  lemma RoundKeepsSound(v: State, w: State, t: Terms, s: RoundScript, r: RoundEnd)
    requires Sound(v, t) && RoundDone(v, w, t, s, r)
    ensures RoundFacts(v, w, t, r) && OneAnswer(v, w)
  {
    hide Sound, RoundFacts, RequiredFit, Fits, Heard, Unheard, BreaksAt, ReadTo;
    if s.interruptedAtStart {
      MovesNot(v);
      RaisedFacts(v, v, t, Interrupted);
    } else if !RequiredFit(v.messages, s, t.cost) {
      RefusedFacts(v, t);
    } else {
      var context :| Fits(Request(v.messages, s, context), t.cost)
          && ResponseDone(Begun(v, Request(v.messages, s, context)), w, t, s, r);
      ResponseFacts(v, w, t, s, Request(v.messages, s, context), r);
    }
  }

  lemma MovesNot(v: State)
    ensures Moves(v, v)
  {
  }

  lemma RefusedFacts(v: State, t: Terms)
    requires Sound(v, t)
    ensures RoundFacts(v, v, t, Refused(TooLarge))
  {
    hide AllAllowed, Fits, AnswersShown, Whole, HeardBack, RoundsOrdered;
  }

  lemma ResponseFacts(v: State, w: State, t: Terms, s: RoundScript, q: Request, r: RoundEnd)
    requires Sound(v, t) && Fits(q, t.cost) && q.messages == v.messages && ResponseDone(Begun(v, q), w, t, s, r)
    ensures RoundFacts(v, w, t, r) && OneAnswer(v, w)
  {
    hide Sound, RoundFacts, Fits, Heard, Unheard, BreaksAt, Moves, AnswersGrow;
    BegunIsSound(v, t, q);
    var n: nat :| ReadTo(s.chunks, n) &&
      if (n > 0 && BreaksAt(s.chunks, n - 1)) || s.interruptedAfterStream || !s.end.StreamDone?
      then Unheard(Begun(v, q), w, t, s, n, r)
      else Heard(Begun(v, q), w, t, s, r);
    if (n > 0 && BreaksAt(s.chunks, n - 1)) || s.interruptedAfterStream || !s.end.StreamDone? {
      UnheardFacts(Begun(v, q), w, t, s, n, r);
    } else {
      HeardFacts(Begun(v, q), w, t, s, r);
    }
    FactsCarryOver(v, Begun(v, q), w, t, r);
  }

  // ---------- A run ----------

  lemma {:induction false} GoingKeepsSound(v: State, w: State, t: Terms, scripts: seq<RoundScript>, k: nat)
    requires Sound(v, t) && k <= |scripts| && Going(v, w, t, scripts, k)
    ensures Sound(w, t) && Moves(v, w)
    decreases k
  {
    hide Sound, RoundDone, RoundFacts, OneAnswer;
    if k > 0 {
      var j := k - 1;
      var u :| Going(v, u, t, scripts, j) && RoundDone(u, w, t, scripts[j], GoesOn);
      GoingKeepsSound(v, u, t, scripts, j);
      RoundKeepsSound(u, w, t, scripts[j], GoesOn);
      GoesOnSound(u, w, t);
    }
  }

  lemma GoesOnSound(u: State, w: State, t: Terms)
    requires RoundFacts(u, w, t, GoesOn)
    ensures Sound(w, t) && Moves(u, w)
  {
  }

  // What a run comes to.
  ghost predicate RunFacts(v: State, w: State, t: Terms, end: Option<RoundEnd>) {
    && Kept(w, t) && Moves(v, w)
    && (if end.Some? && end.value.Raised? then Ended(w, w.callIds) else Whole(w.messages, w.executed, w.callIds))
    && (end.None? ==> Sound(w, t))
    && (end.Some? && end.value.Refused? ==> end.value.why.TooLarge?)
    && (end.Some? && end.value.Finished? ==> Accepted(w, t, end.value.outcome) && EndsAccepted(w.messages))
  }

  lemma RunKeepsSound(v: State, w: State, t: Terms, scripts: seq<RoundScript>, end: Option<RoundEnd>)
    requires Sound(v, t) && RunDone(v, w, t, scripts, end)
    ensures RunFacts(v, w, t, end)
  {
    hide Sound, RoundDone, Going, RoundFacts, OneAnswer, RunFacts;
    if end.None? {
      GoingKeepsSound(v, w, t, scripts, |scripts|);
      StillGoing(v, w, t);
    } else {
      var k: nat, u :|
        && k < |scripts| && Going(v, u, t, scripts, k)
        && RoundDone(u, w, t, scripts[k], end.value) && !end.value.GoesOn?;
      GoingKeepsSound(v, u, t, scripts, k);
      RoundKeepsSound(u, w, t, scripts[k], end.value);
      LastRound(v, u, w, t, end.value);
    }
  }

  lemma StillGoing(v: State, w: State, t: Terms)
    requires Sound(w, t) && Moves(v, w)
    ensures RunFacts(v, w, t, None)
  {
    hide Kept, Whole;
  }

  lemma LastRound(v: State, u: State, w: State, t: Terms, r: RoundEnd)
    requires Moves(v, u) && RoundFacts(u, w, t, r) && !r.GoesOn?
    ensures RunFacts(v, w, t, Some(r))
  {
    hide Kept, Whole, Ended, Accepted, EndsAccepted;
  }

  // The result of each of the first n executions that can be read is what the call was answered with, and nothing else
  // is. No call ran twice, and one that did not run was refused, skipped or, to finish, accepted.
  ghost predicate EachAnswered(log: seq<Execution>, messages: seq<Message>, n: nat) {
    && n <= |log|
    && (forall j :: 0 <= j < n && log[j].run.ToolRan? && log[j].run.readable ==>
          ToolResult(log[j].callId, log[j].run.result) in messages)
    && (forall j, m :: 0 <= j < n && m in messages && m.ToolResult? && m.callId == log[j].callId ==>
          && (log[j].run.ToolRan? && log[j].run.readable ==> m.text == log[j].run.result)
          && (log[j].run.ToolRan? && !log[j].run.readable ==> m.text == REJECTED_RESULT)
          && (!log[j].run.ToolRan? ==> m.text == STOPPED_RESULT))
    && (forall m :: m in messages && m.ToolResult? && (forall j :: 0 <= j < |log| ==> log[j].callId != m.callId) ==>
          m.text == REJECTED_RESULT || m.text == ACCEPTED_RESULT || m.text == SKIPPED_RESULT)
    && (forall j, k :: 0 <= j < k < |log| ==> log[j].callId != log[k].callId)
  }

  // Every later request was made from a history that holds the result.
  ghost predicate AskedKnowing(log: seq<Execution>, asked: seq<Request>) {
    forall j, k :: 0 <= j < |log| && log[j].round <= k < |asked| && log[j].run.ToolRan? && log[j].run.readable ==>
      ToolResult(log[j].callId, log[j].run.result) in asked[k].messages
  }

  // Every call that ran is answered by its own result, but for one that ended the run, and the model is never asked
  // again without it.
  lemma CallsAreAnswered(v: State, w: State, t: Terms, scripts: seq<RoundScript>, end: Option<RoundEnd>)
    requires Sound(v, t) && RunDone(v, w, t, scripts, end)
    ensures if end.Some? && end.value.Raised? then
              exists n: nat :: n + 1 >= |w.executed| && EachAnswered(w.executed, w.messages, n)
            else EachAnswered(w.executed, w.messages, |w.executed|)
    ensures AskedKnowing(w.executed, w.asked)
  {
    RunKeepsSound(v, w, t, scripts, end);
    hide Sound, RunDone, Kept, Moves, Accepted, EndsAccepted, Settled, SettledButLast, EachAnswered, AskedKnowing;
    KeptIsKnowing(w, t);
    if end.Some? && end.value.Raised? && !Settled(w.executed, w.messages, w.callIds) {
      AllButLastAnswered(w.executed, w.messages, w.callIds);
    } else {
      if !(end.Some? && end.value.Raised?) {
        WholeIsEnded(w.messages, w.executed, w.callIds);
      }
      AllAnswered(w.executed, w.messages, w.callIds);
    }
  }

  lemma KeptIsKnowing(w: State, t: Terms)
    requires Kept(w, t)
    ensures AskedKnowing(w.executed, w.asked)
  {
    hide AllAllowed, RoundsOrdered, Fits, AnswersShown;
    assert forall k :: 0 <= k < |w.asked| ==> Histories(w.asked)[k] == w.asked[k].messages;
  }

  lemma AllAnswered(log: seq<Execution>, messages: seq<Message>, ids: set<string>)
    requires Settled(log, messages, ids)
    ensures EachAnswered(log, messages, |log|)
  {
  }

  lemma AllButLastAnswered(log: seq<Execution>, messages: seq<Message>, ids: set<string>)
    requires SettledButLast(log, messages, ids)
    ensures log != [] && EachAnswered(log, messages, |log| - 1)
  {
    var front := log[..|log| - 1];
    hide Settled, AnswerOf;
    AllAnswered(front, messages, ids);
    assert forall j :: 0 <= j < |front| ==> front[j] == log[j];
  }
}
