/**
 * What the agent's decision loop (apps/worker/src/analysis/analysis-agent.ts) does, as relations between the run before
 * and the run after: one call, one batch of calls, one round, a whole run. The model's output, the tools' results and
 * interruptions are adversarial.
 */
module AgentSteps {
  import opened Common
  import opened Protocol
  import opened ContextAssembly
  import opened ContextProofs
  import opened ResponseText
  import opened AgentLog

  // ---------- What the outside does in one round ----------

  datatype Part = Part(index: int, id: string, name: string, arguments: string)
  datatype Chunk = Chunk(fragment: string, thoughts: string, parts: seq<Part>)
  datatype StreamEnd = StreamDone | ContextTooLong | StreamFailed | StreamRaised(code: Code)

  datatype Completion = CompleteAnswer | PartialAnswer | AwaitingClarification | UnableToComplete
  datatype Finishing = Finishing(status: Completion, reason: Option<string>, missing: seq<string>)

  // One call, as far as its arguments and its execution decide: whether they parse, whether they fit the tool, the
  // query or evidence they name, the sentence describing the action, and how the tool comes out.
  datatype Attempt = Attempt(
    parses: bool, finishing: Option<Finishing>, fits: bool,
    sql: string, evidence: string, narrative: string,
    run: ToolRun, interruptedBefore: bool, interruptedAfter: bool)

  datatype RoundScript = RoundScript(
    interruptedAtStart: bool,
    system: string, data: string, history: seq<PastTurn>, catalogs: string, toolTokens: nat, budget: int,
    chunks: seq<Chunk>, end: StreamEnd, interruptedAfterStream: bool,
    attempts: map<string, Attempt>,
    interruptedAtEnd: bool)

  const NO_ATTEMPT := Attempt(false, None, false, "", "", "", ToolThrew, false, false)

  function AttemptOf(attempts: map<string, Attempt>, id: string): Attempt {
    if id in attempts then attempts[id] else NO_ATTEMPT
  }

  predicate DistinctTurns(history: seq<PastTurn>) {
    forall i, j :: 0 <= i < j < |history| ==> history[i].id != history[j].id
  }

  datatype Outcome = Outcome(finishing: Finishing, text: string)

  // Why a round gets no context: the history breaks the protocol, it does not fit the budget, or it fits but counting
  // the result again does not.
  datatype NoContext = Broken | TooLarge | Recounted

  datatype RoundEnd =
    | GoesOn | Finished(outcome: Outcome) | SecurityStop(code: Code) | Raised(code: Code) | Refused(why: NoContext)

  // How one call ends: with a result, with an error that goes back to the model, or with the end of the run.
  datatype CallEnd = Result(text: string, outcome: Option<Outcome>) | Rejected | Stopped(code: Code) | Fatal(code: Code)

  const MAX_CALLS := 24
  const MAX_OUTPUT := 128000
  const MAX_REPEATS := 3
  const FAILED_QUERY_TEXT := "本次查询未成功，我会根据反馈调整后重新核对。"
  const REMIND_TEXT := "请勿重复正文或工具。现在仅调用 finish_analysis 记录真实完成状态；缺少结果时标记 partial，需要用户补充时标记 awaiting_clarification。"
  const LANGUAGE_TEXT := "用户使用中文提问。请用中文重新回答，保留字段名、SQL 和技术标识符；不要重复已经完成的工具。回答后独立调用 finish_analysis。"
  const ACCESS_TEXT := "当前数据源访问权限已变化，分析已停止。"
  const SECURITY_TEXT := "查询被访问或安全规则阻止，本次无法完成。"

  // What the model is asked: the context that was assembled from a history, with the inputs of a round.
  datatype Request = Request(messages: seq<Message>, script: RoundScript, context: Assembly)

  // ---------- The run ----------

  // What the run is given once and for all.
  datatype Terms = Terms(tests: Tests, chinese: bool, visualOnly: bool, tools: set<string>, cost: Cost)

  datatype State = State(
    messages: seq<Message>,
    texts: seq<string>,
    executed: seq<Execution>,
    answers: seq<string>,
    asked: seq<Request>,
    callIds: set<string>,
    modelCalls: nat,
    repeatedAction: string,
    repeatedCount: nat,
    answered: bool,
    awaitingConclusion: bool,
    closingOnly: bool,
    responseText: string,
    hasVisibleText: bool,
    roundTextStarted: bool,
    contextRetried: bool,
    finishReminders: nat,
    languageRetries: nat)

  predicate Blank(s: string) {
    Trim(s) == ""
  }

  predicate IsSecurity(code: Code) {
    code.SecurityRejected? || code.AccessChanged?
  }

  // A complete answer has no reason and misses nothing. Any other has a reason that says something, and at most twenty
  // things missing, each of which says something.
  predicate Honest(f: Finishing) {
    if f.status.CompleteAnswer? then f.reason.None? && f.missing == []
    else
      && f.reason.Some? && 0 < |Trim(f.reason.value)| && |f.reason.value| <= 1000
      && |f.missing| <= 20 && forall k :: 0 <= k < |f.missing| ==> 0 < |Trim(f.missing[k])| && |f.missing[k]| <= 500
  }

  predicate OnlyFinish(batch: seq<Call>) {
    forall c :: c in batch ==> c.name == FINISH
  }

  // ---------- One call ----------

  // Finishing and updates of the analysis have to be called alone.
  predicate Mixed(batch: seq<Call>) {
    |batch| > 1 && exists c :: c in batch && (c.name == FINISH || c.name == UPDATE)
  }

  // How the calls of a batch are handled: the place of the message that makes them, whether they are mixed, and whether
  // the round is silent.
  datatype Batching = Batching(at: nat, mixed: bool, quiet: bool)

  function ExecutionOf(round: nat, call: Call, a: Attempt): Execution {
    Execution(round, call.id, call.name, a.sql, a.evidence, a.run)
  }

  // Something is published on a line of its own.
  ghost function Line(v: State, text: string): State {
    v.(texts := v.texts + [(if v.roundTextStarted || v.hasVisibleText then "\n\n" else "") + text],
       roundTextStarted := true, hasVisibleText := true)
  }

  // The message with the calls says something more.
  function Reworded(messages: seq<Message>, at: nat, more: string): seq<Message> {
    if at < |messages| && messages[at].Assistant? then
      messages[at := Assistant((if messages[at].text != "" then messages[at].text + "\n\n" else "") + more,
                               messages[at].calls)]
    else messages
  }

  // An analysis tool runs only while the run is open, on a known tool with fitting arguments, on evidence seen in an
  // earlier round if it draws a chart, and on a query that has not failed twice in the same way.
  ghost predicate Runs(v: State, t: Terms, call: Call, a: Attempt, mixed: bool) {
    && !mixed && a.parses && call.name != FINISH && !v.closingOnly && !v.awaitingConclusion && a.fits
    && AllowedAfter(v.executed, ExecutionOf(v.modelCalls, call, a), t.tools)
  }

  // Something was delivered: an answer, or the chart or table that was all the question asked for.
  ghost predicate MayFinish(v: State, t: Terms) {
    v.answered || (Delivered(v.executed) && t.visualOnly)
  }

  // A failed query is mentioned to the reader of a silent round.
  ghost predicate Reported(v: State, w: State, call: Call, quiet: bool) {
    w == if quiet && call.name == QUERY && !v.closingOnly then Line(v, FAILED_QUERY_TEXT) else v
  }

  ghost predicate RunEndsAs(call: Call, run: ToolRun, end: CallEnd) {
    match run
    case ToolThrew => end == Fatal(ToolFailed)
    case ToolRaised(code) => end == if IsSecurity(code) then Stopped(code) else Fatal(code)
    case ToolRan(succeeded, result, readable, _, evidence) =>
      if !readable then end == Rejected
      else if call.name == QUERY && succeeded && evidence.None? then end == Fatal(ToolFailed)
      else end == Result(result, None)
  }

  // A silent round describes each kind of action once, in the text and in the message with the calls.
  ghost predicate Narrated(v: State, w: State, call: Call, a: Attempt, b: Batching, narrated: set<string>,
      now: set<string>) {
    if b.quiet && call.name !in narrated && a.narrative != "" then
      && w == Line(v.(messages := Reworded(v.messages, b.at, a.narrative)), a.narrative)
      && now == narrated + {call.name}
    else w == v && now == narrated
  }

  // The tool has run, and come out some way.
  ghost predicate Executed(v: State, w: State, call: Call, a: Attempt, quiet: bool, end: CallEnd) {
    var u := v.(executed := v.executed + [ExecutionOf(v.modelCalls, call, a)]);
    if a.interruptedAfter then w == u && end == Fatal(Interrupted)
    else RunEndsAs(call, a.run, end) && if end.Result? && !a.run.succeeded then Reported(u, w, call, quiet) else w == u
  }

  ghost predicate Finishes(v: State, w: State, t: Terms, a: Attempt, end: CallEnd) {
    && w == v.(closingOnly := v.closingOnly || MayFinish(v, t),
               awaitingConclusion := v.awaitingConclusion || (!MayFinish(v, t) && Delivered(v.executed)))
    && end == if MayFinish(v, t) && a.finishing.Some? && Honest(a.finishing.value) then
                Result(ACCEPTED_RESULT, Some(Outcome(a.finishing.value, v.responseText)))
              else Rejected
  }

  // One call is tried.
  ghost predicate Tried(v: State, w: State, t: Terms, call: Call, a: Attempt, b: Batching, narrated: set<string>,
      now: set<string>, end: CallEnd) {
    if a.interruptedBefore then w == v && now == narrated && end == Fatal(Interrupted)
    else if Runs(v, t, call, a, b.mixed) then
      exists u :: Narrated(v, u, call, a, b, narrated, now) && Executed(u, w, call, a, b.quiet, end)
    else if !b.mixed && a.parses && call.name == FINISH then now == narrated && Finishes(v, w, t, a, end)
    else w == v && now == narrated && end == Rejected
  }

  // An error in it is reported and goes back to the model, unless the run is interrupted.
  ghost predicate Caught(v: State, w: State, call: Call, a: Attempt, quiet: bool, tried: CallEnd, end: CallEnd) {
    if !tried.Rejected? then w == v && end == tried
    else if a.interruptedAfter then w == v && end == Fatal(Interrupted)
    else end == Rejected && Reported(v, w, call, quiet)
  }

  // One call, up to the result that goes into the history.
  ghost predicate CallDone(v: State, w: State, t: Terms, call: Call, a: Attempt, b: Batching, narrated: set<string>,
      now: set<string>, end: CallEnd) {
    exists u, tried :: Tried(v, u, t, call, a, b, narrated, now, tried) && Caught(u, w, call, a, b.quiet, tried, end)
  }

  // The result of a call goes into the history, and the third call in a row that is the same ends the run.
  ghost predicate Appended(v: State, w: State, call: Call, text: string, end: Option<RoundEnd>) {
    var action := call.name + ":" + call.arguments;
    && w == v.(messages := v.messages + [ToolResult(call.id, text)], repeatedAction := action,
               repeatedCount := if v.repeatedAction == action then v.repeatedCount + 1 else 1)
    && end == if w.repeatedCount >= MAX_REPEATS then Some(Raised(NoProgress)) else None
  }

  function Skips(batch: seq<Call>): seq<Message> {
    seq(|batch|, i requires 0 <= i < |batch| => ToolResult(batch[i].id, SKIPPED_RESULT))
  }

  // A security stop: the rest of the batch is answered too, so that the stored history stays complete.
  ghost predicate Secured(v: State, w: State, code: Code, batch: seq<Call>, k: nat)
    requires k < |batch|
  {
    w == v.(messages := v.messages + [ToolResult(batch[k].id, STOPPED_RESULT)] + Skips(batch[k + 1..]),
            texts := v.texts + [if code.AccessChanged? then ACCESS_TEXT else SECURITY_TEXT])
  }

  // What follows from the end of a call.
  ghost predicate Settles(v: State, w: State, batch: seq<Call>, k: nat, called: CallEnd, end: Option<RoundEnd>,
      outcome: Option<Outcome>)
    requires k < |batch|
  {
    match called
    case Fatal(code) => w == v && end == Some(Raised(code)) && outcome.None?
    case Stopped(code) => Secured(v, w, code, batch, k) && end == Some(SecurityStop(code)) && outcome.None?
    case Rejected => Appended(v, w, batch[k], REJECTED_RESULT, end) && outcome.None?
    case Result(text, o) => Appended(v, w, batch[k], text, end) && outcome == o
  }

  ghost predicate Taken(v: State, w: State, t: Terms, batch: seq<Call>, k: nat, attempts: map<string, Attempt>,
      b: Batching, narrated: set<string>, now: set<string>, end: Option<RoundEnd>, outcome: Option<Outcome>)
    requires k < |batch|
  {
    exists u, called ::
      && CallDone(v, u, t, batch[k], AttemptOf(attempts, batch[k].id), b, narrated, now, called)
      && Settles(u, w, batch, k, called, end, outcome)
  }

  // ---------- A batch ----------

  // The first k calls, one after the other.
  ghost predicate Handled(v: State, w: State, t: Terms, batch: seq<Call>, k: nat, attempts: map<string, Attempt>,
      b: Batching, now: set<string>, outcome: Option<Outcome>)
    requires k <= |batch|
    decreases k
  {
    if k == 0 then w == v && now == {} && outcome.None?
    else
      var j := k - 1;
      exists u, was, o ::
        && Handled(v, u, t, batch, j, attempts, b, was, o)
        && Taken(u, w, t, batch, j, attempts, b, was, now, None, outcome)
  }

  // All of them, or up to the one that ends the run.
  ghost predicate BatchDone(v: State, w: State, t: Terms, batch: seq<Call>, attempts: map<string, Attempt>,
      b: Batching, r: RoundEnd) {
    exists k: nat, u, was, o, now, end, outcome ::
      && k < |batch| && Handled(v, u, t, batch, k, attempts, b, was, o)
      && Taken(u, w, t, batch, k, attempts, b, was, now, end, outcome)
      && if end.Some? then r == end.value
         else k + 1 == |batch| && r == if outcome.Some? then Finished(outcome.value) else GoesOn
  }

  // ---------- The end of a round ----------

  // Every call needs an id that the run has not used before, and a name.
  ghost predicate IdsFit(ids: set<string>, batch: seq<Call>) {
    DistinctCalls(batch) && forall c :: c in batch ==> c.id != "" && c.name != "" && c.id !in ids
  }

  // A round with tools: the calls are recorded, then handled one by one.
  ghost predicate ToolsDone(v: State, w: State, t: Terms, content: string, batch: seq<Call>,
      attempts: map<string, Attempt>, interrupted: bool, r: RoundEnd) {
    if !IdsFit(v.callIds, batch) then
      v.callIds <= w.callIds && w == v.(callIds := w.callIds) && r == Raised(ProtocolBroken)
    else exists q ::
      && BatchDone(v.(callIds := v.callIds + Ids(batch), messages := v.messages + [Assistant(content, batch)]), w, t,
                   batch, attempts, Batching(|v.messages|, Mixed(batch), Blank(content)), q)
      && r == if interrupted && (q.GoesOn? || q.Finished?) then Raised(Interrupted) else q
  }

  ghost function Noted(v: State, content: string): State {
    if Blank(content) then v else v.(messages := v.messages + [Assistant(content, [])])
  }

  // A round without tools: its text is the answer, and only the finishing call is left to make.
  ghost predicate TextDone(v: State, w: State, content: string, interrupted: bool, r: RoundEnd) {
    var u := Noted(v, content);
    if interrupted then w == u && r == Raised(Interrupted)
    else
      var x := u.(closingOnly := true, finishReminders := v.finishReminders + 1);
      if v.finishReminders > 0 then w == x && r == Raised(ProtocolBroken)
      else w == x.(messages := x.messages + [System(REMIND_TEXT)]) && r == GoesOn
  }

  // An answer in the wrong language is not published; the model gets one more chance.
  ghost predicate RetryDone(v: State, w: State, content: string, r: RoundEnd) {
    var u := v.(languageRetries := v.languageRetries + 1);
    if v.languageRetries > 0 then w == u && r == Raised(LanguageMismatch)
    else w == u.(messages := v.messages + [Assistant(content, []), System(LANGUAGE_TEXT)]) && r == GoesOn
  }

  ghost predicate EndDone(v: State, w: State, t: Terms, content: string, batch: seq<Call>, s: RoundScript,
      r: RoundEnd) {
    if batch == [] then TextDone(v, w, content, s.interruptedAtEnd, r)
    else ToolsDone(v, w, t, content, batch, s.attempts, s.interruptedAtEnd, r)
  }

  // ---------- The text of a round ----------

  function Lead(visible: bool): string {
    if visible then "\n\n" else ""
  }

  // Since the round began, exactly `out` has been published, led in by a blank line if text was visible before.
  ghost predicate Streamed(v: State, w: State, out: string) {
    && w == v.(texts := w.texts, roundTextStarted := w.roundTextStarted, hasVisibleText := w.hasVisibleText)
    && if v.closingOnly then w == v
       else
         && v.texts <= w.texts
         && Concat(w.texts[|v.texts|..]) == (if out == "" then "" else Lead(v.hasVisibleText) + out)
         && (w.roundTextStarted <==> out != "")
         && (w.hasVisibleText <==> v.hasVisibleText || out != "")
  }

  // The text of a round is out. With nothing but finishing to be called, it is an answer.
  ghost predicate Answered(v: State, w: State, content: string, batch: seq<Call>) {
    if Blank(content) || v.closingOnly then w == v
    else
      var u := v.(responseText := (if v.responseText != "" then v.responseText + "\n\n" else "") + content);
      w == if OnlyFinish(batch) then u.(answered := true, answers := v.answers + [content]) else u
  }

  // ---------- The model's response ----------

  function Fragments(chunks: seq<Chunk>): (r: seq<string>)
    ensures |r| == |chunks|
  {
    seq(|chunks|, i requires 0 <= i < |chunks| => chunks[i].fragment)
  }

  function PartsOf(chunks: seq<Chunk>): seq<Part> {
    if chunks == [] then [] else PartsOf(chunks[..|chunks| - 1]) + chunks[|chunks| - 1].parts
  }

  function Thoughts(chunks: seq<Chunk>): (r: seq<string>)
    ensures |r| == |chunks|
  {
    seq(|chunks|, i requires 0 <= i < |chunks| => chunks[i].thoughts)
  }

  function Arguments(parts: seq<Part>): (r: seq<string>)
    ensures |r| == |parts|
  {
    seq(|parts|, i requires 0 <= i < |parts| => parts[i].arguments)
  }

  // The characters of a response: its text, its thoughts and the arguments of its calls.
  function Size(chunks: seq<Chunk>): nat {
    |Concat(Fragments(chunks))| + |Concat(Thoughts(chunks))| + |Concat(Arguments(PartsOf(chunks)))|
  }

  predicate BadPart(p: Part) {
    p.index < 0 || p.index >= MAX_CALLS
  }

  // The response breaks off at chunk i: a call has no place, or there is too much of it.
  predicate BreaksAt(chunks: seq<Chunk>, i: nat)
    requires i < |chunks|
  {
    (exists p :: p in chunks[i].parts && BadPart(p)) || Size(chunks[..i + 1]) > MAX_OUTPUT
  }

  function MergePart(calls: map<int, Call>, p: Part): map<int, Call> {
    var c := if p.index in calls then calls[p.index] else Call("", "", "");
    calls[p.index := Call(if p.id != "" then p.id else c.id, c.name + p.name, c.arguments + p.arguments)]
  }

  function Merged(parts: seq<Part>): map<int, Call> {
    if parts == [] then map[] else MergePart(Merged(parts[..|parts| - 1]), parts[|parts| - 1])
  }

  function Batch(calls: map<int, Call>, n: nat): (batch: seq<Call>) {
    if n == 0 then [] else Batch(calls, n - 1) + if n - 1 in calls then [calls[n - 1]] else []
  }

  // The calls of a whole response.
  function CallsOf(chunks: seq<Chunk>): seq<Call> {
    Batch(Merged(PartsOf(chunks)), MAX_CALLS)
  }

  // The text of a response that reads English although the question is Chinese, and of which nothing is published.
  ghost predicate Foreign(v: State, t: Terms, s: RoundScript) {
    && !v.closingOnly && t.chinese && t.tests.english(Concat(Fragments(s.chunks)))
    && !PushAll(t.tests, t.chinese, Fragments(s.chunks)).0.published
  }

  // A response that has been heard to its end, and what the calls in it do.
  ghost predicate Heard(v: State, w: State, t: Terms, s: RoundScript, r: RoundEnd) {
    var content, batch := Concat(Fragments(s.chunks)), CallsOf(s.chunks);
    if Foreign(v, t, s) && OnlyFinish(batch) then exists u :: Streamed(v, u, "") && RetryDone(u, w, content, r)
    else
      var said := if Foreign(v, t, s) then "" else content;
      exists u, x :: Streamed(v, u, said) && Answered(u, x, said, batch) && EndDone(x, w, t, said, batch, s, r)
  }

  // What a response comes to that is not heard to its end, of which the first n chunks were read.
  ghost predicate Unheard(v: State, w: State, t: Terms, s: RoundScript, n: nat, r: RoundEnd)
    requires n <= |s.chunks|
  {
    var out := PushAll(t.tests, t.chinese, Fragments(s.chunks)[..n]).1;
    if s.interruptedAfterStream then Streamed(v, w, out) && r == Raised(Interrupted)
    else if n > 0 && BreaksAt(s.chunks, n - 1) then Streamed(v, w, out) && r == Raised(ProtocolBroken)
    else if s.end.ContextTooLong? && !v.contextRetried && Size(s.chunks) == 0 then
      (exists u :: Streamed(v, u, out) && w == u.(contextRetried := true)) && r == GoesOn
    else Streamed(v, w, out) && r == Raised(if s.end.StreamRaised? then s.end.code else RequestFailed)
  }

  // Chunks are read up to the first at which the response breaks off.
  predicate ReadTo(chunks: seq<Chunk>, n: nat) {
    && n <= |chunks|
    && (forall i :: 0 <= i < n - 1 ==> !BreaksAt(chunks, i))
    && (n < |chunks| ==> n > 0 && BreaksAt(chunks, n - 1))
  }

  ghost predicate ResponseDone(v: State, w: State, t: Terms, s: RoundScript, r: RoundEnd) {
    exists n: nat :: ReadTo(s.chunks, n) &&
      if (n > 0 && BreaksAt(s.chunks, n - 1)) || s.interruptedAfterStream || !s.end.StreamDone?
      then Unheard(v, w, t, s, n, r)
      else Heard(v, w, t, s, r)
  }

  // ---------- A round, and a run ----------

  // The context is the greedy choice for a ranking of the candidates. It is made of what was chosen and nothing else,
  // in the order of the history; it follows the tool protocol, costs what is reported, and fits the budget.
  ghost predicate Fits(q: Request, cost: Cost) {
    var s := q.script;
    var extras := RunExtras(s.data, s.history, s.catalogs);
    && Selected(cost, s.toolTokens, q.messages, s.system, extras, s.budget, q.context)
    && RunKeepsOrder(q.messages, s.system, s.data, s.history, s.catalogs, q.context)
    && SendsChosen(Candidates(s.system, q.messages[1], GroupAll(q.messages[2..]).value, extras), q.context.chosen)
    && WellFormed(q.context.messages)
    && CostOf(cost, q.context.messages) + s.toolTokens == q.context.estimated <= s.budget
  }

  // The candidates that must be sent fit the budget, next to the tool definitions.
  ghost predicate RequiredFit(messages: seq<Message>, s: RoundScript, cost: Cost) {
    && |messages| >= 2 && GroupAll(messages[2..]).Success?
    && var cs := Candidates(s.system, messages[1], GroupAll(messages[2..]).value,
                            RunExtras(s.data, s.history, s.catalogs));
       SumChosen(cost, cs, RequiredOf(cs), |cs|) + s.toolTokens <= s.budget
  }

  ghost function Begun(v: State, q: Request): State {
    v.(modelCalls := v.modelCalls + 1, roundTextStarted := false, asked := v.asked + [q])
  }

  // One turn of the loop. The model is asked once, with a context made from the history as it is now, unless the run is
  // not wanted any more or has no such context.
  ghost predicate RoundDone(v: State, w: State, t: Terms, s: RoundScript, r: RoundEnd) {
    if s.interruptedAtStart then w == v && r == Raised(Interrupted)
    else if !RequiredFit(v.messages, s, t.cost) then w == v && r == Refused(TooLarge)
    else exists context ::
      && Fits(Request(v.messages, s, context), t.cost)
      && ResponseDone(Begun(v, Request(v.messages, s, context)), w, t, s, r)
  }

  // The first k rounds, none of which ends the run.
  ghost predicate Going(v: State, w: State, t: Terms, scripts: seq<RoundScript>, k: nat)
    requires k <= |scripts|
    decreases k
  {
    if k == 0 then w == v
    else
      var j := k - 1;
      exists u :: Going(v, u, t, scripts, j) && RoundDone(u, w, t, scripts[j], GoesOn)
  }

  // A whole run: it is over with the first round that ends it, or still going.
  ghost predicate RunDone(v: State, w: State, t: Terms, scripts: seq<RoundScript>, end: Option<RoundEnd>) {
    if end.None? then Going(v, w, t, scripts, |scripts|)
    else exists k: nat, u ::
      && k < |scripts| && Going(v, u, t, scripts, k)
      && RoundDone(u, w, t, scripts[k], end.value) && !end.value.GoesOn?
  }
}
