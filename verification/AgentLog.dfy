/**
 * What an analysis run has asked its tools to do, and the books the agent keeps about it: evidence observed, queries
 * that failed, queries that are blocked (apps/worker/src/analysis/analysis-agent.ts).
 */
module AgentLog {
  import opened Common
  import opened Protocol

  const FINISH := "finish_analysis"
  const UPDATE := "update_analysis_state"
  const QUERY := "execute_sql_query"
  const READ := "read_query_artifact"
  const CHART := "generate_chart"
  const TABLE := "display_query_table"

  const ACCEPTED_RESULT := "accepted"
  const REJECTED_RESULT := "INVALID_TOOL_ARGUMENTS"
  const STOPPED_RESULT := "NOT_RETRYABLE"
  const SKIPPED_RESULT := "SECURITY_STOP"

  datatype Code =
    | SecurityRejected | AccessChanged | ProtocolBroken | LanguageMismatch | NoProgress | RequestFailed | ToolFailed
    | Interrupted | OtherCode

  // How one execution of a tool comes out; `readable` says whether its result parses, `evidence` the artifact it names.
  datatype ToolRun =
    | ToolRan(succeeded: bool, result: string, readable: bool, errorCode: string, evidence: Option<string>)
    | ToolThrew
    | ToolRaised(code: Code)

  datatype Execution = Execution(round: nat, callId: string, name: string, sql: string, evidence: string, run: ToolRun)

  predicate Observes(e: Execution, id: string) {
    (e.name == READ || e.name == QUERY) && e.run.ToolRan? && e.run.succeeded && e.run.readable
        && e.run.evidence == Some(id)
  }

  predicate FailsAs(e: Execution, sql: string, code: string) {
    e.name == QUERY && Trim(e.sql) == sql && e.run.ToolRan? && !e.run.succeeded && e.run.readable
        && e.run.errorCode == code
  }

  predicate Delivers(e: Execution) {
    (e.name == CHART || e.name == TABLE) && e.run.ToolRan? && e.run.succeeded
  }

  ghost predicate Delivered(log: seq<Execution>) {
    exists k :: 0 <= k < |log| && Delivers(log[k])
  }

  function Failures(log: seq<Execution>, sql: string, code: string): nat {
    if log == [] then 0
    else Failures(log[..|log| - 1], sql, code) + if FailsAs(log[|log| - 1], sql, code) then 1 else 0
  }

  // The same query has failed twice in the same way.
  ghost predicate Blocked(log: seq<Execution>, sql: string) {
    exists code :: Failures(log, sql, code) >= 2
  }

  ghost predicate Observed(log: seq<Execution>, id: string) {
    exists j :: 0 <= j < |log| && Observes(log[j], id)
  }

  ghost predicate ObservedBefore(log: seq<Execution>, round: nat, id: string) {
    exists j :: 0 <= j < |log| && log[j].round < round && Observes(log[j], id)
  }

  // Only known tools ran; no query that had failed twice ran again; a chart only used evidence of an earlier round.
  ghost predicate AllowedAfter(log: seq<Execution>, e: Execution, tools: set<string>) {
    && e.name in tools
    && (e.name == QUERY ==> !Blocked(log, Trim(e.sql)))
    && (e.name == CHART ==> ObservedBefore(log, e.round, e.evidence))
  }

  ghost predicate AllAllowed(log: seq<Execution>, tools: set<string>) {
    forall k :: 0 <= k < |log| ==> AllowedAfter(log[..k], log[k], tools)
  }

  ghost predicate RoundsOrdered(log: seq<Execution>, round: nat) {
    forall k :: 0 <= k < |log| ==> log[k].round <= round
  }

  function Count(failed: map<(string, string), nat>, sql: string, code: string): nat {
    if (sql, code) in failed then failed[(sql, code)] else 0
  }

  // ---------- What the model is told ----------

  // The text that an execution is answered with: its own result, if that can be read.
  function AnswerOf(e: Execution): string {
    if !e.run.ToolRan? then STOPPED_RESULT else if e.run.readable then e.run.result else REJECTED_RESULT
  }

  // A result in the history is that of the one execution of its call, or says why there was none.
  ghost predicate AnswerStands(log: seq<Execution>, m: Message)
    requires m.ToolResult?
  {
    && (forall j :: 0 <= j < |log| && log[j].callId == m.callId ==> m.text == AnswerOf(log[j]))
    && ((forall j :: 0 <= j < |log| ==> log[j].callId != m.callId) ==>
          m.text == REJECTED_RESULT || m.text == ACCEPTED_RESULT || m.text == SKIPPED_RESULT)
  }

  // Every call was executed at most once, every execution has its answer in the history, and every answer stands.
  ghost predicate Settled(log: seq<Execution>, messages: seq<Message>, ids: set<string>) {
    && (forall j :: 0 <= j < |log| ==>
          log[j].callId in ids && ToolResult(log[j].callId, AnswerOf(log[j])) in messages)
    && (forall j, k :: 0 <= j < k < |log| ==> log[j].callId != log[k].callId)
    && (forall m :: m in messages && m.ToolResult? ==> m.callId in ids && AnswerStands(log, m))
  }

  // The same, but the last execution ended the run before it was answered.
  ghost predicate SettledButLast(log: seq<Execution>, messages: seq<Message>, ids: set<string>) {
    && log != [] && Settled(log[..|log| - 1], messages, ids)
    && (forall j :: 0 <= j < |log| - 1 ==> log[j].callId != log[|log| - 1].callId)
    && (forall m :: m in messages && m.ToolResult? ==> m.callId != log[|log| - 1].callId)
  }

  lemma SettledMore(log: seq<Execution>, messages: seq<Message>, ids: set<string>, run: seq<Execution>, id: string,
      text: string)
    requires Settled(log, messages, ids) && id !in ids
    requires if run == [] then text == REJECTED_RESULT || text == ACCEPTED_RESULT || text == SKIPPED_RESULT
             else |run| == 1 && run[0].callId == id && text == AnswerOf(run[0])
    ensures Settled(log + run, messages + [ToolResult(id, text)], ids + {id})
  {
    hide AnswerOf;
    var n, now := log + run, messages + [ToolResult(id, text)];
    forall j | 0 <= j < |n| ensures n[j].callId in ids + {id} && ToolResult(n[j].callId, AnswerOf(n[j])) in now {
    }
    forall m | m in now && m.ToolResult? ensures m.callId in ids + {id} && AnswerStands(n, m) {
      if m in messages {
        StandsStill(log, run, ids, m);
      } else {
        assert run != [] ==> n[|log|].callId == id;
      }
    }
  }

  lemma StandsStill(log: seq<Execution>, run: seq<Execution>, ids: set<string>, m: Message)
    requires m.ToolResult? && m.callId in ids && AnswerStands(log, m)
    requires forall j :: 0 <= j < |run| ==> run[j].callId !in ids
    ensures AnswerStands(log + run, m)
  {
    hide AnswerOf;
    var n := log + run;
    forall j | 0 <= j < |n| && n[j].callId == m.callId ensures m.text == AnswerOf(n[j]) {
      assert j < |log|;
    }
    if forall j :: 0 <= j < |n| ==> n[j].callId != m.callId {
      forall j | 0 <= j < |log| ensures log[j].callId != m.callId {
        assert n[j] == log[j];
      }
    }
  }

  // Other messages do not matter, nor do more ids.
  lemma SettledStill(log: seq<Execution>, messages: seq<Message>, now: seq<Message>, ids: set<string>,
      more: set<string>)
    requires Settled(log, messages, ids) && ids <= more
    requires forall m: Message :: m.ToolResult? ==> (m in messages <==> m in now)
    ensures Settled(log, now, more)
  {
    hide AnswerOf, AnswerStands;
  }

  // Every later request was made from a history that holds the answer.
  ghost predicate HeardBack(log: seq<Execution>, histories: seq<seq<Message>>) {
    forall j, k :: 0 <= j < |log| && log[j].round <= k < |histories| ==>
      ToolResult(log[j].callId, AnswerOf(log[j])) in histories[k]
  }

  lemma AskedWithAnswers(log: seq<Execution>, histories: seq<seq<Message>>, messages: seq<Message>, ids: set<string>)
    requires HeardBack(log, histories) && Settled(log, messages, ids)
    ensures HeardBack(log, histories + [messages])
  {
    hide AnswerOf, AnswerStands;
  }

  lemma HeardBackMore(log: seq<Execution>, now: seq<Execution>, histories: seq<seq<Message>>)
    requires HeardBack(log, histories) && log <= now
    requires forall j :: |log| <= j < |now| ==> now[j].round >= |histories|
    ensures HeardBack(now, histories)
  {
    hide AnswerOf;
  }

  // ---------- The agent's books ----------

  ghost predicate ObservedBooked(log: seq<Execution>, observed: set<string>) {
    forall id :: id in observed <==> Observed(log, id)
  }

  ghost predicate FailuresBooked(log: seq<Execution>, failed: map<(string, string), nat>) {
    forall sql, code :: Count(failed, sql, code) == Failures(log, sql, code)
  }

  ghost predicate BlocksBooked(log: seq<Execution>, blocked: set<string>) {
    forall sql :: sql in blocked <==> Blocked(log, sql)
  }

  lemma AllowedExtends(log: seq<Execution>, e: Execution, tools: set<string>)
    requires AllAllowed(log, tools) && AllowedAfter(log, e, tools)
    ensures AllAllowed(log + [e], tools)
  {
    hide AllowedAfter;
    var n := log + [e];
    forall k | 0 <= k < |n| ensures AllowedAfter(n[..k], n[k], tools) {
      assert n[..k] == if k < |log| then log[..k] else log;
    }
  }

  lemma FailuresExtend(log: seq<Execution>, e: Execution, sql: string, code: string)
    ensures Failures(log + [e], sql, code) == Failures(log, sql, code) + if FailsAs(e, sql, code) then 1 else 0
  {
    assert (log + [e])[..|log|] == log;
  }

  lemma ObservedExtends(log: seq<Execution>, e: Execution, id: string)
    ensures Observed(log + [e], id) <==> Observed(log, id) || Observes(e, id)
  {
    var n := log + [e];
    if Observes(e, id) {
      assert Observes(n[|log|], id);
    }
    if Observed(log, id) {
      var j :| 0 <= j < |log| && Observes(log[j], id);
      assert Observes(n[j], id);
    }
  }

  lemma BookObserved(log: seq<Execution>, e: Execution, observed: set<string>, now: set<string>)
    requires ObservedBooked(log, observed)
    requires forall id :: id in now <==> id in observed || Observes(e, id)
    ensures ObservedBooked(log + [e], now)
  {
    hide Observed, Observes;
    forall id ensures id in now <==> Observed(log + [e], id) {
      ObservedExtends(log, e, id);
    }
  }

  lemma BookFailures(log: seq<Execution>, e: Execution, failed: map<(string, string), nat>,
      now: map<(string, string), nat>)
    requires FailuresBooked(log, failed)
    requires forall sql, code :: Count(now, sql, code) == Count(failed, sql, code) + if FailsAs(e, sql, code) then 1
          else 0
    ensures FailuresBooked(log + [e], now)
  {
    hide Count, FailsAs;
    forall sql, code ensures Count(now, sql, code) == Failures(log + [e], sql, code) {
      FailuresExtend(log, e, sql, code);
    }
  }

  // A query becomes blocked exactly when the failure just counted is its second of that kind.
  lemma BookBlocks(log: seq<Execution>, e: Execution, blocked: set<string>, now: set<string>)
    requires BlocksBooked(log, blocked)
    requires forall sql :: sql in now <==>
               sql in blocked || exists code :: FailsAs(e, sql, code) && Failures(log, sql, code) >= 1
    ensures BlocksBooked(log + [e], now)
  {
    hide FailsAs, Failures;
    forall sql ensures sql in now <==> Blocked(log + [e], sql) {
      if Blocked(log, sql) {
        var code :| Failures(log, sql, code) >= 2;
        FailuresExtend(log, e, sql, code);
      }
      if code :| FailsAs(e, sql, code) && Failures(log, sql, code) >= 1 {
        FailuresExtend(log, e, sql, code);
      }
      if Blocked(log + [e], sql) {
        var code :| Failures(log + [e], sql, code) >= 2;
        FailuresExtend(log, e, sql, code);
      }
    }
  }

  function ObservedAfter(observed: set<string>, e: Execution): set<string> {
    if (e.name == READ || e.name == QUERY) && e.run.ToolRan? && e.run.succeeded && e.run.readable
        && e.run.evidence.Some?
    then observed + {e.run.evidence.value}
    else observed
  }

  predicate Fails(e: Execution) {
    e.name == QUERY && e.run.ToolRan? && !e.run.succeeded && e.run.readable
  }

  function FailedAfter(failed: map<(string, string), nat>, e: Execution): map<(string, string), nat> {
    if Fails(e) then failed[(Trim(e.sql), e.run.errorCode) := Count(failed, Trim(e.sql), e.run.errorCode) + 1]
        else failed
  }

  function BlockedAfter(blocked: set<string>, failed: map<(string, string), nat>, e: Execution): set<string> {
    if Fails(e) && Count(failed, Trim(e.sql), e.run.errorCode) + 1 >= 2 then blocked + {Trim(e.sql)} else blocked
  }

  lemma BooksExtend(log: seq<Execution>, e: Execution, observed: set<string>, failed: map<(string, string), nat>,
      blocked: set<string>)
    requires ObservedBooked(log, observed) && FailuresBooked(log, failed) && BlocksBooked(log, blocked)
    ensures ObservedBooked(log + [e], ObservedAfter(observed, e))
    ensures FailuresBooked(log + [e], FailedAfter(failed, e))
    ensures BlocksBooked(log + [e], BlockedAfter(blocked, failed, e))
  {
    BookObserved(log, e, observed, ObservedAfter(observed, e));
    CountAfter(failed, e);
    BookFailures(log, e, failed, FailedAfter(failed, e));
    BlocksAfter(log, e, failed, blocked);
    BookBlocks(log, e, blocked, BlockedAfter(blocked, failed, e));
  }

  lemma CountAfter(failed: map<(string, string), nat>, e: Execution)
    ensures forall sql, code ::
              Count(FailedAfter(failed, e), sql, code)
              == Count(failed, sql, code) + if FailsAs(e, sql, code) then 1 else 0
  {
  }

  lemma BlocksAfter(log: seq<Execution>, e: Execution, failed: map<(string, string), nat>, blocked: set<string>)
    requires FailuresBooked(log, failed)
    ensures forall sql :: sql in BlockedAfter(blocked, failed, e) <==>
              sql in blocked || exists code :: FailsAs(e, sql, code) && Failures(log, sql, code) >= 1
  {
    hide Failures, Count;
    if Fails(e) {
      assert FailsAs(e, Trim(e.sql), e.run.errorCode);
    }
  }

  // So no query is ever run more than twice after failing the same way: counting the failures of a whole run.
  lemma {:induction false} NoThirdFailure(log: seq<Execution>, tools: set<string>, sql: string, code: string)
    requires AllAllowed(log, tools)
    ensures Failures(log, sql, code) <= 2
  {
    if log != [] {
      var front, e := log[..|log| - 1], log[|log| - 1];
      forall k | 0 <= k < |front| ensures AllowedAfter(front[..k], front[k], tools) {
        assert front[..k] == log[..k];
      }
      NoThirdFailure(front, tools, sql, code);
      assert AllowedAfter(front, e, tools);
      if FailsAs(e, sql, code) {
        assert !Blocked(front, sql);
      }
    }
  }

  // ---------- Messages in the middle of a tool batch ----------

  ghost predicate DistinctCalls(calls: seq<Call>) {
    forall i, j :: 0 <= i < j < |calls| ==> calls[i].id != calls[j].id
  }

  predicate Replies(results: seq<Message>, batch: seq<Call>) {
    |results| <= |batch| && forall i :: 0 <= i < |results| ==>
                              results[i].ToolResult? && results[i].callId == batch[i].id
  }

  // After `front` comes the message with the calls, and results for the first k of them.
  ghost predicate MidBatch(messages: seq<Message>, front: seq<Message>, batch: seq<Call>, k: nat) {
    && |messages| == |front| + 1 + k
    && messages[..|front|] == front
    && messages[|front|].Assistant? && messages[|front|].calls == batch
    && Replies(messages[|front| + 1..], batch)
  }

  lemma MidBatchStart(front: seq<Message>, m: Message)
    requires m.Assistant?
    ensures MidBatch(front + [m], front, m.calls, 0)
  {
  }

  lemma MidBatchNext(messages: seq<Message>, front: seq<Message>, batch: seq<Call>, k: nat, text: string)
    requires MidBatch(messages, front, batch, k) && k < |batch|
    ensures MidBatch(messages + [ToolResult(batch[k].id, text)], front, batch, k + 1)
  {
    var n := messages + [ToolResult(batch[k].id, text)];
    assert n[|front| + 1..] == messages[|front| + 1..] + [ToolResult(batch[k].id, text)];
    assert n[..|front|] == messages[..|front|];
  }

  lemma RepliesAnswer(results: seq<Message>, batch: seq<Call>)
    requires Replies(results, batch) && |results| == |batch| && DistinctCalls(batch)
    ensures Answers(Ids(batch), results)
  {
    forall id | id in Ids(batch)
      ensures exists i :: 0 <= i < |results| && results[i].ToolResult? && results[i].callId == id {
      var c :| c in batch && c.id == id;
      var i :| 0 <= i < |batch| && batch[i] == c;
      assert results[i].callId == id;
    }
  }

  // Results for all calls complete the batch, so the history follows the tool protocol again.
  lemma BatchCompletes(messages: seq<Message>, front: seq<Message>, batch: seq<Call>)
    requires MidBatch(messages, front, batch, |batch|) && batch != [] && DistinctCalls(batch)
    requires |front| >= 2 && WellFormed(front[2..])
    ensures |messages| >= 2 && WellFormed(messages[2..])
  {
    hide DistinctCalls, Replies, Answers, WellFormed;
    var group := messages[|front|..];
    assert group[1..] == messages[|front| + 1..];
    RepliesAnswer(group[1..], batch);
    assert IsBatch(group);
    OneGroup(group);
    WellFormedConcat(front[2..], group);
    assert messages[2..] == front[2..] + group;
  }

  lemma SingleFollows(messages: seq<Message>, m: Message)
    requires |messages| >= 2 && WellFormed(messages[2..]) && !m.ToolResult? && !Calling(m)
    ensures WellFormed((messages + [m])[2..])
  {
    OneGroup([m]);
    WellFormedConcat(messages[2..], [m]);
    assert (messages + [m])[2..] == messages[2..] + [m];
  }

  // ---------- Call ids over the whole run ----------

  ghost predicate IdsUnique(messages: seq<Message>, used: set<string>) {
    && (forall i :: 0 <= i < |messages| && messages[i].Assistant? ==>
          DistinctCalls(messages[i].calls) && Ids(messages[i].calls) <= used)
    && (forall i, j :: 0 <= i < j < |messages| && messages[i].Assistant? && messages[j].Assistant? ==>
          Ids(messages[i].calls) !! Ids(messages[j].calls))
  }

  lemma IdsAppend(messages: seq<Message>, used: set<string>, m: Message, now: set<string>)
    requires IdsUnique(messages, used) && used <= now
    requires m.Assistant? ==> DistinctCalls(m.calls) && Ids(m.calls) !! used && Ids(m.calls) <= now
    ensures IdsUnique(messages + [m], now)
  {
    hide DistinctCalls;
    var n := messages + [m];
    forall i | 0 <= i < |n| && n[i].Assistant? ensures DistinctCalls(n[i].calls) && Ids(n[i].calls) <= now {
      assert i < |messages| ==> Ids(messages[i].calls) <= used;
    }
    forall i, j | 0 <= i < j < |n| && n[i].Assistant? && n[j].Assistant? ensures Ids(n[i].calls) !! Ids(n[j].calls) {
      if j == |messages| {
        assert Ids(messages[i].calls) <= used;
      }
    }
  }

  // Rewording a message leaves its calls alone.
  lemma IdsReword(messages: seq<Message>, used: set<string>, at: nat, text: string)
    requires at < |messages| && messages[at].Assistant? && IdsUnique(messages, used)
    ensures IdsUnique(messages[at := Assistant(text, messages[at].calls)], used)
  {
    var n := messages[at := Assistant(text, messages[at].calls)];
    assert forall i :: 0 <= i < |n| && n[i].Assistant? ==> messages[i].Assistant? && messages[i].calls == n[i].calls;
  }

  lemma MidBatchReword(messages: seq<Message>, front: seq<Message>, batch: seq<Call>, k: nat, text: string)
    requires MidBatch(messages, front, batch, k)
    ensures MidBatch(messages[|front| := Assistant(text, batch)], front, batch, k)
  {
    var n := messages[|front| := Assistant(text, batch)];
    assert n[..|front|] == messages[..|front|];
    assert n[|front| + 1..] == messages[|front| + 1..];
  }
}
