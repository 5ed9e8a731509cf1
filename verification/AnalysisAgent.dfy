/**
 * The agent's decision loop (apps/worker/src/analysis/analysis-agent.ts): rounds of a model call and the batch of tools
 * it asks for, until the model finishes. Every method is proved to do what AgentSteps says of it.
 */
module AnalysisAgents {
  import opened Common
  import opened Protocol
  import opened ContextAssembly
  import opened ContextProofs
  import opened ResponseText
  import opened AgentLog
  import opened AgentSteps
  import opened AgentProofs

  // validateFinish, check by check.
  predicate Valid(f: Finishing) {
    && (f.reason.Some? ==> Trim(f.reason.value) != "" && |f.reason.value| <= 1000)
    && (!f.status.CompleteAnswer? ==> f.reason.Some?)
    && |f.missing| <= 20 && (forall m :: m in f.missing ==> Trim(m) != "" && |m| <= 500)
    && (f.status.CompleteAnswer? ==> f.reason.None? && f.missing == [])
  }

  lemma ValidIsHonest(f: Finishing)
    ensures Valid(f) <==> Honest(f)
  {
    hide Trim;
    assert forall k :: 0 <= k < |f.missing| ==> f.missing[k] in f.missing;
  }

  class AnalysisAgent {
    const tests: Tests
    const chinese: bool
    const visualOnly: bool
    const tools: set<string>
    const cost: Cost

    var messages: seq<Message>
    var texts: seq<string>
    var observed: set<string>
    var failed: map<(string, string), nat>
    var blocked: set<string>
    var callIds: set<string>
    var modelCalls: nat
    var repeatedAction: string
    var repeatedCount: nat
    var delivered: bool
    var answered: bool
    var awaitingConclusion: bool
    var closingOnly: bool
    var responseText: string
    var hasVisibleText: bool
    var roundTextStarted: bool
    var contextRetried: bool
    var finishReminders: nat
    var languageRetries: nat
    ghost var executed: seq<Execution>
    ghost var answers: seq<string>
    ghost var asked: seq<Request>

    ghost function Given(): Terms {
      Terms(tests, chinese, visualOnly, tools, cost)
    }

    // The run so far. The books about it are apart.
    ghost function Now(): State
      reads this
    {
      State(messages, texts, executed, answers, asked, callIds, modelCalls, repeatedAction, repeatedCount, answered,
        awaitingConclusion, closingOnly, responseText, hasVisibleText, roundTextStarted, contextRetried, finishReminders,
        languageRetries)
    }

    ghost predicate Books()
      reads this`executed, this`observed, this`failed, this`blocked, this`delivered
    {
      && ObservedBooked(executed, observed) && FailuresBooked(executed, failed) && BlocksBooked(executed, blocked)
      && (delivered <==> Delivered(executed))
    }

    // The evidence that was observed in earlier rounds.
    ghost predicate Earlier(earlier: set<string>)
      reads this`executed, this`modelCalls
    {
      forall id :: id in earlier <==> ObservedBefore(executed, modelCalls, id)
    }

    // The message with the calls.
    ghost predicate CallsAt(at: nat)
      reads this`messages
    {
      at < |messages| && messages[at].Assistant?
    }

    constructor (tests: Tests, chinese: bool, visualOnly: bool, tools: set<string>, cost: Cost, question: string)
      ensures Books() && Given() == Terms(tests, chinese, visualOnly, tools, cost)
      ensures Now() == State([System(""), User(question)], [], [], [], [], {}, 0, "", 0, false, false, false, "", false,
                             false, false, 0, 0)
      ensures Sound(Now(), Given())
    {
      hide Sound;
      this.tests, this.chinese, this.visualOnly, this.tools, this.cost := tests, chinese, visualOnly, tools, cost;
      messages := [System(""), User(question)];
      texts, observed, failed, blocked, callIds, modelCalls := [], {}, map[], {}, {}, 0;
      repeatedAction, repeatedCount, responseText := "", 0, "";
      delivered, answered, awaitingConclusion, closingOnly, hasVisibleText, roundTextStarted, contextRetried :=
        false, false, false, false, false, false, false;
      finishReminders, languageRetries, executed, answers, asked := 0, 0, [], [], [];
      new;
      StartIsSound(question, Given());
    }

    method PublishText(text: string)
      modifies this`texts, this`roundTextStarted, this`hasVisibleText
      ensures Now() == Published(old(Now()), text)
    {
      if text == "" || closingOnly {
        return;
      }
      texts := texts + [(if !roundTextStarted && hasVisibleText then "\n\n" else "") + text];
      roundTextStarted := true;
      hasVisibleText := true;
    }

    method PublishLine(text: string)
      requires text != ""
      modifies this`texts, this`roundTextStarted, this`hasVisibleText
      ensures Now() == if closingOnly then old(Now()) else Line(old(Now()), text)
    {
      LineIsPublished(Now(), text);
      PublishText((if roundTextStarted then "\n\n" else "") + text);
    }

    // ---------- The response ----------

    method PublishStreamed(text: string, ghost start: State, ghost out: string)
      requires Streamed(start, Now(), out) && !start.roundTextStarted
      modifies this`texts, this`roundTextStarted, this`hasVisibleText
      ensures Streamed(start, Now(), out + text)
    {
      StreamedMore(start, Now(), out, text);
      hide Streamed, Published;
      PublishText(text);
    }

    // Reading the response chunk by chunk.
    method ReadStream(chunks: seq<Chunk>, stream: ResponseTextStream, ghost start: State)
      returns (content: string, calls: map<int, Call>, outputChars: nat, broken: bool, ghost n: nat)
      requires stream.Valid() && stream.given == "" && stream.out == "" && stream.State() == ResponseText.Open(chinese)
      requires stream.tests == tests && Streamed(start, Now(), "") && !start.roundTextStarted
      modifies this`texts, this`roundTextStarted, this`hasVisibleText, stream
      ensures stream.Valid() && stream.given == content && Streamed(start, Now(), stream.out)
      ensures ReadTo(chunks, n) && (broken <==> n > 0 && BreaksAt(chunks, n - 1))
      ensures (stream.State(), stream.out) == PushAll(tests, chinese, Fragments(chunks)[..n])
      ensures content == Concat(Fragments(chunks)[..n])
      ensures !broken ==> calls == Merged(PartsOf(chunks)) && outputChars == Size(chunks)
    {
      hide Streamed, BreaksAt, Faithful, PushAll, Concat, Fragments, Merged, PartsOf, Size;
      NothingRead(tests, chinese, chunks);
      content, calls, outputChars, broken, n := "", map[], 0, false, |chunks|;
      for i := 0 to |chunks|
        invariant stream.Valid() && stream.given == content && Streamed(start, Now(), stream.out)
        invariant (stream.State(), stream.out) == PushAll(tests, chinese, Fragments(chunks)[..i])
        invariant content == Concat(Fragments(chunks)[..i])
        invariant calls == Merged(PartsOf(chunks[..i])) && outputChars == Size(chunks[..i])
        invariant forall j :: 0 <= j < i ==> !BreaksAt(chunks, j)
        invariant n == |chunks| && !broken
      {
        var chunk := chunks[i];
        Pushed(tests, chinese, chunks, i);
        content := content + chunk.fragment;
        ghost var out := stream.out;
        var visible := stream.PushText(chunk.fragment);
        PublishStreamed(visible, start, out);
        outputChars := outputChars + |chunk.fragment| + |chunk.thoughts|;
        var fits: bool;
        calls, outputChars, fits := ReadParts(calls, outputChars, chunks, i);
        if !fits {
          broken, n := true, i + 1;
          return;
        }
      }
      assert chunks[..|chunks|] == chunks;
    }

    // The parts of chunk i; the response must not have become too large with it.
    method ReadParts(before: map<int, Call>, size: nat, chunks: seq<Chunk>, i: nat)
      returns (calls: map<int, Call>, outputChars: nat, fits: bool)
      requires i < |chunks| && before == Merged(PartsOf(chunks[..i]))
      requires size == Size(chunks[..i]) + |chunks[i].fragment| + |chunks[i].thoughts|
      ensures fits <==> !BreaksAt(chunks, i)
      ensures fits ==> calls == Merged(PartsOf(chunks[..i + 1])) && outputChars == Size(chunks[..i + 1])
    {
      ghost var front, parts := PartsOf(chunks[..i]), chunks[i].parts;
      OneChunkMore(chunks, i);
      calls, outputChars := before, size;
      assert front + parts[..0] == front;
      for j := 0 to |chunks[i].parts|
        invariant calls == Merged(front + parts[..j])
        invariant outputChars == size + |Concat(Arguments(parts[..j]))|
        invariant forall k :: 0 <= k < j ==> !BadPart(parts[k])
      {
        var part := chunks[i].parts[j];
        if part.index < 0 || part.index >= MAX_CALLS {
          assert BadPart(part);
          return calls, outputChars, false;
        }
        OnePartMore(front, parts, j);
        calls := MergePart(calls, part);
        outputChars := outputChars + |part.arguments|;
      }
      assert parts[..|parts|] == parts;
      fits := outputChars <= MAX_OUTPUT;
    }

    // ---------- Context ----------

    // The history always follows the tool protocol, and with a run's own extras the tokens always add up: of the three
    // ways to fail here, only the second can happen, and only if what must be sent does not fit.
    method Prepare(s: RoundScript) returns (r: Result<Assembly, NoContext>)
      requires |messages| >= 2 && messages[1].User? && WellFormed(messages[2..]) && DistinctTurns(s.history)
      ensures r.Failure? ==> r.error.TooLarge?
      ensures r.Success? ==> Fits(Request(messages, s, r.value), cost)
      ensures r.Success? <==> RequiredFit(messages, s, cost)
    {
      var extras := RunExtras(s.data, s.history, s.catalogs);
      GroupingIsExact(messages[2..], []);
      ghost var groups := GroupAll(messages[2..]).value;
      RunExtrasAreSound(s.system, messages[1], groups, s.data, s.history, s.catalogs);
      CandidatesAreOrdered(s.system, messages[1], groups, extras);
      var context := AssembleContext(cost, s.toolTokens, messages, s.system, extras, s.budget);
      hide RunExtras, GroupAll, AllFollow, DistinctCandidates, Candidates, WellFormed, Fits, RequiredFit, Assemble;
      ghost var order :| Ranks(messages, s.system, extras, order);
      PreparedIffRequiredFit(messages, s, cost, order);
      if context.Failure? {
        return Failure(if context.error.ProtocolFailure? then Broken else TooLarge);
      }
      PreparedFits(messages, s, cost, order, context.value);
      if CostOf(cost, context.value.messages) + s.toolTokens > s.budget {
        return Failure(Recounted);
      }
      return Success(context.value);
    }

    // ---------- One tool call ----------

    // What an execution changes in the agent's books.
    method Note(e: Execution)
      modifies this`observed, this`failed, this`blocked, this`delivered, this`executed
      ensures observed == ObservedAfter(old(observed), e) && failed == FailedAfter(old(failed), e)
      ensures blocked == BlockedAfter(old(blocked), old(failed), e)
      ensures executed == old(executed) + [e] && (delivered <==> old(delivered) || Delivers(e))
    {
      hide Count;
      if Delivers(e) {
        delivered := true;
      }
      if e.run.ToolRan? && e.run.readable {
        if (e.name == READ || e.name == QUERY) && e.run.succeeded && e.run.evidence.Some? {
          observed := observed + {e.run.evidence.value};
        }
        if e.name == QUERY && !e.run.succeeded {
          var sqlKey := Trim(e.sql);
          var count := Count(failed, sqlKey, e.run.errorCode) + 1;
          failed := failed[(sqlKey, e.run.errorCode) := count];
          if count >= 2 {
            blocked := blocked + {sqlKey};
          }
        }
      }
      executed := executed + [e];
    }

    method Book(e: Execution)
      requires Books()
      modifies this`observed, this`failed, this`blocked, this`delivered, this`executed
      ensures Books() && executed == old(executed) + [e]
    {
      BooksExtend(executed, e, observed, failed, blocked);
      DeliveredExtends(executed, e);
      hide ObservedBooked, FailuresBooked, BlocksBooked, Count, Delivered;
      Note(e);
    }

    method Narrate(call: Call, a: Attempt, b: Batching, narrated: set<string>) returns (now: set<string>)
      requires CallsAt(b.at) && !closingOnly
      modifies this`messages, this`texts, this`roundTextStarted, this`hasVisibleText
      ensures CallsAt(b.at) && Narrated(old(Now()), Now(), call, a, b, narrated, now)
    {
      now := narrated;
      if b.quiet && call.name !in narrated && a.narrative != "" {
        hide Line;
        PublishLine(a.narrative);
        var text := messages[b.at].text;
        messages := messages[b.at := Assistant((if text != "" then text + "\n\n" else "") + a.narrative,
            messages[b.at].calls)];
        LineThenReworded(old(Now()), b.at, a.narrative);
        now := narrated + {call.name};
      }
    }

    method ReportFailure(call: Call, quiet: bool)
      modifies this`texts, this`roundTextStarted, this`hasVisibleText
      ensures Reported(old(Now()), Now(), call, quiet)
    {
      hide Line;
      if quiet && call.name == QUERY {
        PublishLine(FAILED_QUERY_TEXT);
      }
    }

    method Execute(call: Call, a: Attempt, quiet: bool, ghost earlier: set<string>) returns (end: CallEnd)
      requires Books() && Earlier(earlier)
      modifies this`texts, this`roundTextStarted, this`hasVisibleText
      modifies this`observed, this`failed, this`blocked, this`delivered, this`executed
      ensures Books() && Earlier(earlier) && Executed(old(Now()), Now(), call, a, quiet, end)
    {
      hide ObservedBooked, FailuresBooked, BlocksBooked, Delivered, ObservedBefore, Reported;
      var e := ExecutionOf(modelCalls, call, a);
      EarlierStays(executed, e);
      Book(e);
      if a.interruptedAfter {
        return Fatal(Interrupted);
      }
      match a.run
      case ToolThrew => end := Fatal(ToolFailed);
      case ToolRaised(code) => end := if IsSecurity(code) then Stopped(code) else Fatal(code);
      case ToolRan(succeeded, result, readable, _, evidence) =>
        if !readable {
          end := Rejected;
        } else if call.name == QUERY && succeeded && evidence.None? {
          end := Fatal(ToolFailed);
        } else {
          if !succeeded {
            ReportFailure(call, quiet);
          }
          end := Result(result, None);
        }
    }

    // What the agent checks is what may run, going by the whole log.
    lemma ChecksAreExact(call: Call, a: Attempt, earlier: set<string>)
      requires Books() && Earlier(earlier) && call.name != FINISH && a.parses
      ensures Runs(Now(), Given(), call, a, false) <==>
                && !closingOnly && !awaitingConclusion && call.name in tools && a.fits
                && (call.name == CHART ==> a.evidence in earlier)
                && (call.name == QUERY ==> Trim(a.sql) !in blocked)
    {
      hide ObservedBooked, FailuresBooked, Delivered, Blocked, ObservedBefore;
    }

    method RunTool(call: Call, a: Attempt, b: Batching, earlier: set<string>, narrated: set<string>)
      returns (end: CallEnd, now: set<string>)
      requires Books() && Earlier(earlier) && CallsAt(b.at)
      requires !b.mixed && a.parses && call.name != FINISH && !a.interruptedBefore
      modifies this`messages, this`texts, this`roundTextStarted, this`hasVisibleText
      modifies this`observed, this`failed, this`blocked, this`delivered, this`executed
      ensures Books() && Earlier(earlier) && CallsAt(b.at)
      ensures Tried(old(Now()), Now(), Given(), call, a, b, narrated, now, end)
    {
      ChecksAreExact(call, a, earlier);
      hide Books, Earlier, CallsAt, Runs, Narrated, Executed;
      now := narrated;
      if closingOnly || awaitingConclusion || call.name !in tools || !a.fits {
        return Rejected, now;
      }
      if call.name == CHART && a.evidence !in earlier {
        return Rejected, now;
      }
      if call.name == QUERY && Trim(a.sql) in blocked {
        return Rejected, now;
      }
      now := Narrate(call, a, b, narrated);
      end := Execute(call, a, b.quiet, earlier);
    }

    // finish_analysis: accepted only after an answer, or after a chart or table that was all the question asked for.
    method FinishCall(a: Attempt) returns (end: CallEnd)
      requires Books()
      modifies this`closingOnly, this`awaitingConclusion
      ensures Finishes(old(Now()), Now(), Given(), a, end)
    {
      hide ObservedBooked, FailuresBooked, BlocksBooked, Delivered, Honest, Valid;
      if a.finishing.Some? {
        ValidIsHonest(a.finishing.value);
      }
      if !answered && !(delivered && visualOnly) {
        if delivered {
          awaitingConclusion := true;
        }
        return Rejected;
      }
      closingOnly := true;
      if a.finishing.None? || !Valid(a.finishing.value) {
        return Rejected;
      }
      return Result(ACCEPTED_RESULT, Some(Outcome(a.finishing.value, responseText)));
    }

    method Dispatch(call: Call, a: Attempt, b: Batching, earlier: set<string>, narrated: set<string>)
      returns (end: CallEnd, now: set<string>)
      requires Books() && Earlier(earlier) && CallsAt(b.at)
      modifies this`messages, this`texts, this`roundTextStarted, this`hasVisibleText
      modifies this`observed, this`failed, this`blocked, this`delivered, this`executed
      modifies this`closingOnly, this`awaitingConclusion
      ensures Books() && Earlier(earlier) && CallsAt(b.at)
      ensures Tried(old(Now()), Now(), Given(), call, a, b, narrated, now, end)
    {
      NotRun(Now(), Given(), call, a, b.mixed);
      hide Books, Earlier, CallsAt, Runs, Narrated, Executed, Finishes;
      now := narrated;
      end := Rejected;
      if a.interruptedBefore {
        end := Fatal(Interrupted);
      } else if b.mixed || !a.parses {
      } else if call.name == FINISH {
        end := FinishCall(a);
      } else {
        end, now := RunTool(call, a, b, earlier, narrated);
      }
    }

    // One call of a batch; an error in it is reported and goes back to the model.
    method HandleCall(call: Call, a: Attempt, b: Batching, earlier: set<string>, narrated: set<string>)
      returns (end: CallEnd, now: set<string>)
      requires Books() && Earlier(earlier) && CallsAt(b.at)
      modifies this`messages, this`texts, this`roundTextStarted, this`hasVisibleText
      modifies this`observed, this`failed, this`blocked, this`delivered, this`executed
      modifies this`closingOnly, this`awaitingConclusion
      ensures Books() && Earlier(earlier) && CallsAt(b.at)
      ensures CallDone(old(Now()), Now(), Given(), call, a, b, narrated, now, end)
    {
      hide Books, Earlier, CallsAt, Tried, Reported;
      var tried: CallEnd;
      tried, now := Dispatch(call, a, b, earlier, narrated);
      end := tried;
      ghost var u := Now();
      if tried.Rejected? {
        if a.interruptedAfter {
          end := Fatal(Interrupted);
        } else {
          ReportFailure(call, b.quiet);
        }
      }
      assert Caught(u, Now(), call, a, b.quiet, tried, end);
    }

    // The result of a call goes into the history.
    method AppendResult(call: Call, text: string)
      modifies this`messages
      ensures messages == old(messages) + [ToolResult(call.id, text)]
    {
      messages := messages + [ToolResult(call.id, text)];
    }

    // The same call three times in a row ends the run.
    method CountAction(call: Call) returns (stuck: bool)
      modifies this`repeatedAction, this`repeatedCount
      ensures repeatedAction == call.name + ":" + call.arguments
      ensures repeatedCount == if old(repeatedAction) == repeatedAction then old(repeatedCount) + 1 else 1
      ensures stuck <==> repeatedCount >= MAX_REPEATS
    {
      var action := call.name + ":" + call.arguments;
      repeatedCount := if action == repeatedAction then repeatedCount + 1 else 1;
      repeatedAction := action;
      stuck := repeatedCount >= 3;
    }

    // The rest of a stopped batch is answered too, so that the stored history stays complete.
    method StopForSecurity(code: Code, batch: seq<Call>, k: nat)
      requires k < |batch|
      modifies this`messages, this`texts
      ensures Secured(old(Now()), Now(), code, batch, k)
    {
      AppendResult(batch[k], STOPPED_RESULT);
      ghost var stopped := messages;
      for i := k + 1 to |batch|
        invariant messages == stopped + Skips(batch[k + 1..i]) && texts == old(texts)
      {
        AppendResult(batch[i], SKIPPED_RESULT);
        assert batch[k + 1..i + 1] == batch[k + 1..i] + [batch[i]];
      }
      assert batch[k + 1..|batch|] == batch[k + 1..];
      texts := texts + [if code.AccessChanged? then ACCESS_TEXT else SECURITY_TEXT];
    }

    method Settle(batch: seq<Call>, k: nat, result: CallEnd)
      returns (end: Option<RoundEnd>, outcome: Option<Outcome>)
      requires k < |batch|
      modifies this`messages, this`texts, this`repeatedAction, this`repeatedCount
      ensures Settles(old(Now()), Now(), batch, k, result, end, outcome)
      ensures end.None? ==> old(messages) <= messages
    {
      hide Secured;
      end, outcome := None, None;
      var text := REJECTED_RESULT;
      match result {
        case Fatal(code) =>
          return Some(Raised(code)), None;
        case Stopped(code) =>
          StopForSecurity(code, batch, k);
          return Some(SecurityStop(code)), None;
        case Rejected =>
        case Result(t, o) =>
          outcome, text := o, t;
      }
      AppendResult(batch[k], text);
      var stuck := CountAction(batch[k]);
      end := if stuck then Some(Raised(NoProgress)) else None;
    }

    // The body of the loop over a batch: one call, its result in the history, and the early ends of a run.
    method OneCall(batch: seq<Call>, k: nat, attempts: map<string, Attempt>, b: Batching, earlier: set<string>,
        narrated: set<string>)
      returns (end: Option<RoundEnd>, outcome: Option<Outcome>, now: set<string>)
      requires Books() && Earlier(earlier) && CallsAt(b.at) && k < |batch|
      modifies this`messages, this`texts, this`roundTextStarted, this`hasVisibleText
      modifies this`observed, this`failed, this`blocked, this`delivered, this`executed
      modifies this`closingOnly, this`awaitingConclusion, this`repeatedAction, this`repeatedCount
      ensures Books() && Earlier(earlier) && (end.None? ==> CallsAt(b.at))
      ensures Taken(old(Now()), Now(), Given(), batch, k, attempts, b, narrated, now, end, outcome)
    {
      hide Books, Earlier, CallDone, Settles;
      var result: CallEnd;
      result, now := HandleCall(batch[k], AttemptOf(attempts, batch[k].id), b, earlier, narrated);
      end, outcome := Settle(batch, k, result);
    }

    // The calls of a batch, one after the other.
    method RunBatch(batch: seq<Call>, attempts: map<string, Attempt>, quiet: bool) returns (r: RoundEnd)
      requires Books() && Earlier(observed) && batch != [] && messages != [] && CallsAt(|messages| - 1)
      modifies this`messages, this`texts, this`roundTextStarted, this`hasVisibleText
      modifies this`observed, this`failed, this`blocked, this`delivered, this`executed
      modifies this`closingOnly, this`awaitingConclusion, this`repeatedAction, this`repeatedCount
      ensures Books()
      ensures BatchDone(old(Now()), Now(), Given(), batch, attempts,
                        Batching(|old(messages)| - 1, Mixed(batch), quiet), r)
    {
      hide Books, Earlier, CallsAt, Taken, Handled, BatchDone;
      NoneHandled(Now(), Given(), batch, attempts, Batching(|messages| - 1, Mixed(batch), quiet));
      var mixed := |batch| > 1 && exists c :: c in batch && (c.name == FINISH || c.name == UPDATE);
      var b := Batching(|messages| - 1, mixed, quiet);
      var earlier, narrated := observed, {};
      var outcome: Option<Outcome> := None;
      for k := 0 to |batch|
        invariant Books() && Earlier(earlier) && CallsAt(b.at)
        invariant Handled(old(Now()), Now(), Given(), batch, k, attempts, b, narrated, outcome)
        invariant k == |batch| ==> BatchDone(old(Now()), Now(), Given(), batch, attempts, b,
                                             if outcome.Some? then Finished(outcome.value) else GoesOn)
      {
        ghost var u, was, o := Now(), narrated, outcome;
        var end: Option<RoundEnd>;
        end, outcome, narrated := OneCall(batch, k, attempts, b, earlier, narrated);
        OneMoreHandled(old(Now()), u, Now(), Given(), batch, k, attempts, b, was, o, narrated, end, outcome);
        if end.Some? {
          return end.value;
        }
      }
      r := if outcome.Some? then Finished(outcome.value) else GoesOn;
    }

    // ---------- One round ----------

    // Every call needs an id that the run has not used before, and a name.
    method TakeIds(batch: seq<Call>) returns (ok: bool)
      modifies this`callIds
      ensures ok <==> IdsFit(old(callIds), batch)
      ensures old(callIds) <= callIds && (ok ==> callIds == old(callIds) + Ids(batch))
    {
      for i := 0 to |batch|
        invariant callIds == old(callIds) + Ids(batch[..i]) && IdsFit(old(callIds), batch[..i])
      {
        IdsStep(old(callIds), batch, i);
        if batch[i].id == "" || batch[i].name == "" || batch[i].id in callIds {
          return false;
        }
        callIds := callIds + {batch[i].id};
      }
      assert batch[..|batch|] == batch;
      ok := true;
    }

    method Append(m: Message)
      modifies this`messages
      ensures messages == old(messages) + [m]
    {
      messages := messages + [m];
    }

    // An answer in the wrong language is not published; the model gets one more chance.
    method RetryLanguage(content: string) returns (r: RoundEnd)
      modifies this`messages, this`languageRetries
      ensures RetryDone(old(Now()), Now(), content, r)
    {
      languageRetries := languageRetries + 1;
      if languageRetries > 1 {
        return Raised(LanguageMismatch);
      }
      Append(Assistant(content, []));
      Append(System(LANGUAGE_TEXT));
      assert messages == old(messages) + [Assistant(content, []), System(LANGUAGE_TEXT)];
      return GoesOn;
    }

    // A round without tools: its text is the answer, and only the finishing call is left to make.
    method EndWithText(content: string, interrupted: bool) returns (r: RoundEnd)
      modifies this`messages, this`closingOnly, this`finishReminders
      ensures TextDone(old(Now()), Now(), content, interrupted, r)
    {
      hide Blank;
      if !Blank(content) {
        Append(Assistant(content, []));
      }
      if interrupted {
        return Raised(Interrupted);
      }
      closingOnly := true;
      finishReminders := finishReminders + 1;
      if finishReminders > 1 {
        return Raised(ProtocolBroken);
      }
      Append(System(REMIND_TEXT));
      return GoesOn;
    }

    // A round with tools: the calls are recorded, then handled one by one.
    method EndWithTools(content: string, batch: seq<Call>, attempts: map<string, Attempt>, interrupted: bool)
        returns (r: RoundEnd)
      requires Books() && Earlier(observed) && batch != []
      modifies this`messages, this`callIds, this`texts, this`roundTextStarted, this`hasVisibleText
      modifies this`observed, this`failed, this`blocked, this`delivered, this`executed
      modifies this`closingOnly, this`awaitingConclusion, this`repeatedAction, this`repeatedCount
      ensures Books()
      ensures ToolsDone(old(Now()), Now(), Given(), content, batch, attempts, interrupted, r)
    {
      hide Books, Earlier, BatchDone, IdsFit, Mixed, Blank, Ids, ToolsDone;
      ghost var v := Now();
      ToolsFollow(v, Given(), content, batch, attempts, interrupted);
      var ok := TakeIds(batch);
      if !ok {
        return Raised(ProtocolBroken);
      }
      Append(Assistant(content, batch));
      r := RunBatch(batch, attempts, Blank(content));
      if interrupted && (r.GoesOn? || r.Finished?) {
        r := Raised(Interrupted);
      }
    }

    // What the calls of a round do, once its text is out.
    method EndRound(s: RoundScript, content: string, batch: seq<Call>) returns (r: RoundEnd)
      requires Books() && Earlier(observed)
      modifies this`messages, this`callIds, this`texts, this`roundTextStarted, this`hasVisibleText, this`finishReminders
      modifies this`observed, this`failed, this`blocked, this`delivered, this`executed
      modifies this`closingOnly, this`awaitingConclusion, this`repeatedAction, this`repeatedCount
      ensures Books() && EndDone(old(Now()), Now(), Given(), content, batch, s, r)
    {
      hide Books, Earlier, TextDone, ToolsDone;
      if batch == [] {
        r := EndWithText(content, s.interruptedAtEnd);
      } else {
        r := EndWithTools(content, batch, s.attempts, s.interruptedAtEnd);
      }
    }

    // The rest of the round's text goes out once the stream has ended.
    method PublishRest(content: string, stream: ResponseTextStream, ghost start: State)
      requires stream.Valid() && Streamed(start, Now(), stream.out) && !start.roundTextStarted
      requires content == stream.given || (content == "" && !stream.published)
      modifies this`texts, this`roundTextStarted, this`hasVisibleText, stream
      ensures Streamed(start, Now(), content)
    {
      hide Streamed;
      ghost var out := stream.out;
      var remaining := stream.FinishText(content);
      PublishStreamed(remaining, start, out);
    }

    // What the text amounts to.
    method Answer(content: string, batch: seq<Call>)
      modifies this`responseText, this`answered, this`answers
      ensures Answered(old(Now()), Now(), content, batch)
    {
      hide Blank;
      if !Blank(content) && !closingOnly {
        responseText := (if responseText != "" then responseText + "\n\n" else "") + content;
        if OnlyFinish(batch) {
          answered := true;
          answers := answers + [content];
        }
      }
    }

    // The second half of a round: what the text amounts to, and what the calls do.
    method Conclude(s: RoundScript, heard: string, batch: seq<Call>, stream: ResponseTextStream, ghost start: State)
      returns (r: RoundEnd)
      requires Books() && Earlier(observed)
      requires stream.Valid() && stream.given == heard && Streamed(start, Now(), stream.out) && !start.roundTextStarted
      requires (stream.State(), stream.out) == PushAll(tests, chinese, Fragments(s.chunks))
      requires heard == Concat(Fragments(s.chunks)) && batch == CallsOf(s.chunks)
      modifies this`messages, this`callIds, this`texts, this`roundTextStarted, this`hasVisibleText, this`finishReminders
      modifies this`observed, this`failed, this`blocked, this`delivered, this`executed
      modifies this`closingOnly, this`awaitingConclusion, this`repeatedAction, this`repeatedCount
      modifies this`languageRetries, this`responseText, this`answered, this`answers, stream
      ensures Books() && Heard(start, Now(), Given(), s, r)
    {
      hide Books, Earlier, Streamed, Answered, RetryDone, EndDone, PushAll, Concat, Fragments, CallsOf, Heard, Foreign,
        Faithful, OnlyFinish;
      ghost var v := Now();
      ForeignIs(start, v, stream.out, Given(), s, stream.published);
      SilentIsEmpty(stream.State(), stream.given, stream.out);
      var content := heard;
      if !closingOnly && chinese && !stream.published && tests.english(content) {
        if OnlyFinish(batch) {
          r := RetryLanguage(content);
          HeardRetry(start, v, Now(), Given(), s, r);
          return;
        }
        content := "";
      }
      PublishRest(content, stream, start);
      ghost var u := Now();
      Answer(content, batch);
      ghost var x := Now();
      r := EndRound(s, content, batch);
      HeardSaid(start, u, x, Now(), Given(), s, content, r);
    }

    // The model's response in a round that has its context, unless the stream or the run breaks off.
    method Hear(s: RoundScript, stream: ResponseTextStream, ghost start: State)
      returns (early: Option<RoundEnd>, content: string, batch: seq<Call>)
      requires stream.Valid() && stream.given == "" && stream.out == "" && stream.State() == ResponseText.Open(chinese)
      requires stream.tests == tests && Streamed(start, Now(), "") && !start.roundTextStarted
      modifies this`roundTextStarted, this`texts, this`hasVisibleText, this`contextRetried, stream
      ensures early.Some? ==> ResponseDone(start, Now(), Given(), s, early.value)
      ensures early.None? ==>
                && stream.Valid() && stream.given == content && Streamed(start, Now(), stream.out)
                && (stream.State(), stream.out) == PushAll(tests, chinese, Fragments(s.chunks))
                && content == Concat(Fragments(s.chunks)) && batch == CallsOf(s.chunks)
                && HeardOut(s)
    {
      hide PushAll, Concat, Fragments, Size, BreaksAt, Batch, Merged, PartsOf, Faithful, Streamed, ReadTo, ResponseDone;
      SameRetried(start, Now(), "");
      var calls: map<int, Call>, outputChars: nat, broken: bool;
      ghost var n: nat;
      content, calls, outputChars, broken, n := ReadStream(s.chunks, stream, start);
      ReadWhole(s.chunks, n, broken);
      early, batch := None, Batch(calls, MAX_CALLS);
      if s.interruptedAfterStream {
        early := Some(Raised(Interrupted));
      } else if broken {
        early := Some(Raised(ProtocolBroken));
      } else if !s.end.StreamDone? {
        if s.end.ContextTooLong? && !contextRetried && outputChars == 0 {
          contextRetried := true;
          early := Some(GoesOn);
        } else {
          early := Some(Raised(if s.end.StreamRaised? then s.end.code else RequestFailed));
        }
      }
      if early.Some? {
        UnheardIsDone(start, Now(), Given(), s, n, early.value);
      }
    }

    // Before the model is called: is the run still wanted, and is there a context for it?
    method Open(s: RoundScript) returns (r: Result<Assembly, RoundEnd>)
      requires |messages| >= 2 && messages[1].User? && WellFormed(messages[2..]) && DistinctTurns(s.history)
      ensures r.Failure? ==> RoundDone(Now(), Now(), Given(), s, r.error)
      ensures r.Success? ==>
                !s.interruptedAtStart && RequiredFit(messages, s, cost) && Fits(Request(messages, s, r.value), cost)
    {
      hide WellFormed, Fits, RequiredFit;
      if s.interruptedAtStart {
        return Failure(Raised(Interrupted));
      }
      var context := Prepare(s);
      r := if context.Failure? then Failure(Refused(context.error)) else Success(context.value);
    }

    method Ask(ghost request: Request)
      requires Books() && RoundsOrdered(executed, modelCalls)
      modifies this`modelCalls, this`roundTextStarted, this`asked
      ensures Now() == Begun(old(Now()), request) && Books() && Earlier(observed)
    {
      NewRound(executed, modelCalls, observed);
      modelCalls := modelCalls + 1;
      roundTextStarted := false;
      asked := asked + [request];
    }

    // A round that has its context: the model is asked, and what it says is carried out.
    method Exchange(s: RoundScript, ghost request: Request) returns (r: RoundEnd)
      requires Books() && RoundsOrdered(executed, modelCalls)
      modifies this
      ensures Books() && ResponseDone(Begun(old(Now()), request), Now(), Given(), s, r)
    {
      hide Books, Earlier, Streamed, ResponseDone, Heard, PushAll, Concat, Fragments, CallsOf, RoundsOrdered, HeardOut,
        Faithful;
      Ask(request);
      ghost var start := Now();
      NothingStreamed(start);
      var stream := new ResponseTextStream(tests, chinese);
      var early: Option<RoundEnd>, content: string, batch: seq<Call>;
      early, content, batch := Hear(s, stream, start);
      if early.Some? {
        return early.value;
      }
      r := Conclude(s, content, batch, stream, start);
      HeardIsDone(start, Now(), Given(), s, r);
    }

    // One turn of the loop. The model is asked at most once, with a context made from the history as it is now.
    method Round(s: RoundScript) returns (r: RoundEnd)
      requires Books() && Sound(Now(), Given()) && DistinctTurns(s.history)
      modifies this
      ensures Books() && RoundDone(old(Now()), Now(), Given(), s, r)
      ensures RoundFacts(old(Now()), Now(), Given(), r) && OneAnswer(old(Now()), Now())
    {
      hide Books, Sound, WellFormed, RoundsOrdered, Fits, RequiredFit, ResponseDone, RoundFacts, OneAnswer;
      SoundParts(Now(), Given());
      var context := Open(s);
      if context.Failure? {
        RoundKeepsSound(Now(), Now(), Given(), s, context.error);
        return context.error;
      }
      ghost var v := Now();
      r := Exchange(s, Request(messages, s, context.value));
      RoundKeepsSound(v, Now(), Given(), s, r);
    }

    // The loop, over whatever the outside does in each round; without an end, the run is still going.
    method Run(scripts: seq<RoundScript>) returns (end: Option<RoundEnd>)
      requires Books() && Sound(Now(), Given()) && forall i :: 0 <= i < |scripts| ==> DistinctTurns(scripts[i].history)
      modifies this
      ensures Books() && RunDone(old(Now()), Now(), Given(), scripts, end)
      ensures RunFacts(old(Now()), Now(), Given(), end)
    {
      hide Books, Sound, RoundDone, RoundFacts, OneAnswer, RunFacts, Going;
      ghost var v := Now();
      NotYetGoing(v, Given(), scripts);
      end := None;
      for i := 0 to |scripts|
        invariant Books() && Sound(Now(), Given()) && Going(v, Now(), Given(), scripts, i)
      {
        ghost var u := Now();
        var r := Round(scripts[i]);
        if !r.GoesOn? {
          RunKeepsSound(v, Now(), Given(), scripts, Some(r));
          return Some(r);
        }
        GoingOn(v, u, Now(), Given(), scripts, i);
        GoesOnSound(u, Now(), Given());
      }
      RunKeepsSound(v, Now(), Given(), scripts, None);
    }
  }

  lemma StartIsSound(question: string, t: Terms)
    ensures Sound(State([System(""), User(question)], [], [], [], [], {}, 0, "", 0, false, false, false, "", false, false,
                        false, 0, 0), t)
  {
    NothingIsWellFormed();
    var messages := [System(""), User(question)];
    assert messages[2..] == [];
  }

  lemma SoundParts(v: State, t: Terms)
    requires Sound(v, t)
    ensures RoundsOrdered(v.executed, v.modelCalls)
    ensures |v.messages| >= 2 && v.messages[1].User? && WellFormed(v.messages[2..])
  {
  }

  lemma NotYetGoing(v: State, t: Terms, scripts: seq<RoundScript>)
    ensures Going(v, v, t, scripts, 0)
  {
  }

  lemma GoingOn(v: State, u: State, w: State, t: Terms, scripts: seq<RoundScript>, k: nat)
    requires k < |scripts| && Going(v, u, t, scripts, k) && RoundDone(u, w, t, scripts[k], GoesOn)
    ensures Going(v, w, t, scripts, k + 1)
  {
    hide RoundDone;
  }

  lemma PreparedIffRequiredFit(messages: seq<Message>, s: RoundScript, cost: Cost, order: seq<nat>)
    requires |messages| >= 2 && GroupAll(messages[2..]).Success?
    requires Ranks(messages, s.system, RunExtras(s.data, s.history, s.catalogs), order)
    ensures var r := Assemble(cost, s.toolTokens, messages, s.system, RunExtras(s.data, s.history, s.catalogs),
                              s.budget, order);
            && (r.Success? <==> RequiredFit(messages, s, cost))
            && (r.Failure? ==> !r.error.ProtocolFailure?)
  {
    var extras := RunExtras(s.data, s.history, s.catalogs);
    RefusesBrokenHistories(cost, s.toolTokens, messages, s.system, extras, s.budget, order);
    GroupingIsExact(messages[2..], []);
    AssembledIffRequiredFit(cost, s.toolTokens, messages, s.system, extras, s.budget, order,
                            Candidates(s.system, messages[1], GroupAll(messages[2..]).value, extras));
    hide RunExtras, GroupAll, Candidates, WellFormed, Assemble, SumChosen, RequiredOf;
  }

  lemma PreparedFits(messages: seq<Message>, s: RoundScript, cost: Cost, order: seq<nat>, a: Assembly)
    requires |messages| >= 2 && messages[1].User? && GroupAll(messages[2..]).Success? && DistinctTurns(s.history)
    requires Ranks(messages, s.system, RunExtras(s.data, s.history, s.catalogs), order)
    requires Assemble(cost, s.toolTokens, messages, s.system, RunExtras(s.data, s.history, s.catalogs), s.budget, order)
          == Success(a)
    ensures Fits(Request(messages, s, a), cost)
  {
    var extras := RunExtras(s.data, s.history, s.catalogs);
    var groups := GroupAll(messages[2..]).value;
    RunExtrasAreSound(s.system, messages[1], groups, s.data, s.history, s.catalogs);
    hide RunExtras, GroupAll, AllFollow, DistinctCandidates, Candidates, WellFormed, RunKeepsOrder, SendsChosen, Assemble;
    var cs := Candidates(s.system, messages[1], groups, extras);
    TokensAreConserved(cost, s.toolTokens, messages, s.system, extras, s.budget, order, cs, a);
    OutputFollowsProtocol(cost, s.toolTokens, messages, s.system, extras, s.budget, order, cs, a);
    RunOutputKeepsOrder(cost, s.toolTokens, messages, s.system, s.data, s.history, s.catalogs, s.budget, order, cs, a);
    DistinctIdsSendChosen(cs, a.chosen);
  }

  ghost function Published(v: State, text: string): State {
    if text == "" || v.closingOnly then v
    else
      v.(texts := v.texts + [(if !v.roundTextStarted && v.hasVisibleText then "\n\n" else "") + text],
         roundTextStarted := true, hasVisibleText := true)
  }

  lemma LineIsPublished(v: State, text: string)
    requires text != ""
    ensures Published(v, (if v.roundTextStarted then "\n\n" else "") + text)
         == if v.closingOnly then v else Line(v, text)
  {
    var lead := if v.roundTextStarted then "\n\n" else "";
    assert "" + (lead + text) == lead + text && "" + text == text;
  }

  lemma StreamedMore(start: State, v: State, out: string, text: string)
    requires Streamed(start, v, out) && !start.roundTextStarted
    ensures Streamed(start, Published(v, text), out + text)
  {
    if text == "" {
      assert out + text == out;
    } else if !v.closingOnly {
      TextMore(start.texts, v.texts, Lead(start.hasVisibleText), out, text);
    }
  }

  lemma TextMore(start: seq<string>, texts: seq<string>, lead: string, out: string, text: string)
    requires start <= texts && Concat(texts[|start|..]) == (if out == "" then "" else lead + out)
    ensures Concat((texts + [(if out == "" then lead else "") + text])[|start|..]) == lead + (out + text)
  {
    hide Concat;
    var more := (if out == "" then lead else "") + text;
    assert (texts + [more])[|start|..] == texts[|start|..] + [more];
    ConcatLast(texts[|start|..], more);
    if out == "" {
      assert "" + more == more;
      assert out + text == text;
    } else {
      assert more == text;
      assert (lead + out) + text == lead + (out + text);
    }
  }

  lemma Pushed(tests: Tests, chinese: bool, chunks: seq<Chunk>, i: nat)
    requires i < |chunks|
    ensures var f := Fragments(chunks);
            var (s, out) := PushAll(tests, chinese, f[..i]);
            var (n, more) := Push(tests, s, chunks[i].fragment);
            PushAll(tests, chinese, f[..i + 1]) == (n, out + more)
    ensures Concat(Fragments(chunks)[..i + 1]) == Concat(Fragments(chunks)[..i]) + chunks[i].fragment
  {
    var f := Fragments(chunks);
    assert f[..i + 1] == f[..i] + [f[i]] && f[..i + 1][..i] == f[..i];
    ConcatLast(f[..i], f[i]);
  }

  lemma NothingRead(tests: Tests, chinese: bool, chunks: seq<Chunk>)
    ensures PushAll(tests, chinese, Fragments(chunks)[..0]) == (ResponseText.Open(chinese), "")
    ensures Concat(Fragments(chunks)[..0]) == "" && Merged(PartsOf(chunks[..0])) == map[] && Size(chunks[..0]) == 0
  {
  }

  lemma OneChunkMore(chunks: seq<Chunk>, i: nat)
    requires i < |chunks|
    ensures PartsOf(chunks[..i + 1]) == PartsOf(chunks[..i]) + chunks[i].parts
    ensures Size(chunks[..i + 1])
         == Size(chunks[..i]) + |chunks[i].fragment| + |chunks[i].thoughts| + |Concat(Arguments(chunks[i].parts))|
  {
    var front, more := chunks[..i], chunks[..i + 1];
    assert more[..i] == front;
    hide Concat;
    assert Fragments(more) == Fragments(front) + [chunks[i].fragment];
    ConcatLast(Fragments(front), chunks[i].fragment);
    assert Thoughts(more) == Thoughts(front) + [chunks[i].thoughts];
    ConcatLast(Thoughts(front), chunks[i].thoughts);
    assert Arguments(PartsOf(more)) == Arguments(PartsOf(front)) + Arguments(chunks[i].parts);
    ConcatAppend(Arguments(PartsOf(front)), Arguments(chunks[i].parts));
  }

  lemma OnePartMore(front: seq<Part>, parts: seq<Part>, j: nat)
    requires j < |parts|
    ensures Merged(front + parts[..j + 1]) == MergePart(Merged(front + parts[..j]), parts[j])
    ensures |Concat(Arguments(parts[..j + 1]))| == |Concat(Arguments(parts[..j]))| + |parts[j].arguments|
  {
    var more := front + parts[..j + 1];
    assert more[..|more| - 1] == front + parts[..j];
    assert Arguments(parts[..j + 1]) == Arguments(parts[..j]) + [parts[j].arguments];
    ConcatLast(Arguments(parts[..j]), parts[j].arguments);
  }

  lemma LineThenReworded(v: State, at: nat, text: string)
    requires at < |v.messages| && v.messages[at].Assistant?
    ensures Line(v.(messages := Reworded(v.messages, at, text)), text)
         == Line(v, text).(messages := Reworded(v.messages, at, text))
  {
  }

  lemma EarlierStays(log: seq<Execution>, e: Execution)
    ensures forall id :: ObservedBefore(log + [e], e.round, id) <==> ObservedBefore(log, e.round, id)
  {
    forall id ensures ObservedBefore(log + [e], e.round, id) <==> ObservedBefore(log, e.round, id) {
      if j :| 0 <= j < |log| && log[j].round < e.round && Observes(log[j], id) {
        assert (log + [e])[j] == log[j];
      }
    }
  }

  lemma DeliveredExtends(log: seq<Execution>, e: Execution)
    ensures Delivered(log + [e]) <==> Delivered(log) || Delivers(e)
  {
    var n := log + [e];
    if Delivers(e) {
      assert Delivers(n[|log|]);
    }
    if k :| 0 <= k < |log| && Delivers(log[k]) {
      assert Delivers(n[k]);
    }
  }

  lemma NotRun(v: State, t: Terms, call: Call, a: Attempt, mixed: bool)
    ensures mixed || !a.parses || call.name == FINISH ==> !Runs(v, t, call, a, mixed)
  {
  }

  lemma NoneHandled(v: State, t: Terms, batch: seq<Call>, attempts: map<string, Attempt>, b: Batching)
    ensures Handled(v, v, t, batch, 0, attempts, b, {}, None)
  {
  }

  lemma OneMoreHandled(v: State, u: State, w: State, t: Terms, batch: seq<Call>, k: nat, attempts: map<string, Attempt>,
      b: Batching, was: set<string>, o: Option<Outcome>, now: set<string>, end: Option<RoundEnd>,
      outcome: Option<Outcome>)
    requires k < |batch| && Handled(v, u, t, batch, k, attempts, b, was, o)
    requires Taken(u, w, t, batch, k, attempts, b, was, now, end, outcome)
    ensures end.Some? ==> BatchDone(v, w, t, batch, attempts, b, end.value)
    ensures end.None? ==> Handled(v, w, t, batch, k + 1, attempts, b, now, outcome)
    ensures end.None? && k + 1 == |batch| ==>
              BatchDone(v, w, t, batch, attempts, b, if outcome.Some? then Finished(outcome.value) else GoesOn)
  {
    hide Taken;
  }

  lemma ToolsFollow(v: State, t: Terms, content: string, batch: seq<Call>, attempts: map<string, Attempt>,
      interrupted: bool)
    ensures !IdsFit(v.callIds, batch) ==> forall ids :: v.callIds <= ids ==>
              ToolsDone(v, v.(callIds := ids), t, content, batch, attempts, interrupted, Raised(ProtocolBroken))
    ensures IdsFit(v.callIds, batch) ==> forall w, q ::
              BatchDone(v.(callIds := v.callIds + Ids(batch), messages := v.messages + [Assistant(content, batch)]), w,
                        t, batch, attempts, Batching(|v.messages|, Mixed(batch), Blank(content)), q) ==>
              ToolsDone(v, w, t, content, batch, attempts, interrupted,
                        if interrupted && (q.GoesOn? || q.Finished?) then Raised(Interrupted) else q)
  {
    hide BatchDone, IdsFit, Mixed, Blank, Ids;
  }

  lemma IdsStep(ids: set<string>, batch: seq<Call>, i: nat)
    requires i < |batch| && IdsFit(ids, batch[..i])
    ensures Ids(batch[..i + 1]) == Ids(batch[..i]) + {batch[i].id}
    ensures IdsFit(ids, batch[..i + 1]) <==>
              batch[i].id != "" && batch[i].name != "" && batch[i].id !in ids + Ids(batch[..i])
    ensures !IdsFit(ids, batch[..i + 1]) ==> !IdsFit(ids, batch)
  {
    var more := batch[..i + 1];
    assert more == batch[..i] + [batch[i]];
    if batch[i].id in Ids(batch[..i]) {
      var c :| c in batch[..i] && c.id == batch[i].id;
      var j :| 0 <= j < i && batch[j] == c;
      assert more[j].id == more[i].id;
    }
  }

  // A response that was read to its end.
  predicate HeardOut(s: RoundScript) {
    !s.interruptedAfterStream && s.end.StreamDone? && forall i :: 0 <= i < |s.chunks| ==> !BreaksAt(s.chunks, i)
  }

  lemma ReadWhole(chunks: seq<Chunk>, n: nat, broken: bool)
    requires ReadTo(chunks, n) && (broken <==> n > 0 && BreaksAt(chunks, n - 1))
    ensures n <= |chunks|
    ensures !broken ==> n == |chunks| && Fragments(chunks)[..n] == Fragments(chunks)
    ensures !broken ==> forall i :: 0 <= i < |chunks| ==> !BreaksAt(chunks, i)
  {
    hide BreaksAt;
  }

  lemma UnheardIsDone(v: State, w: State, t: Terms, s: RoundScript, n: nat, r: RoundEnd)
    requires ReadTo(s.chunks, n) && Unheard(v, w, t, s, n, r)
    requires (n > 0 && BreaksAt(s.chunks, n - 1)) || s.interruptedAfterStream || !s.end.StreamDone?
    ensures ResponseDone(v, w, t, s, r)
  {
    hide Unheard, BreaksAt, ReadTo;
  }

  lemma HeardIsDone(v: State, w: State, t: Terms, s: RoundScript, r: RoundEnd)
    requires HeardOut(s) && Heard(v, w, t, s, r)
    ensures ResponseDone(v, w, t, s, r)
  {
    hide Heard, BreaksAt;
    assert ReadTo(s.chunks, |s.chunks|);
  }

  lemma HeardRetry(v: State, u: State, w: State, t: Terms, s: RoundScript, r: RoundEnd)
    requires Foreign(v, t, s) && OnlyFinish(CallsOf(s.chunks)) && Streamed(v, u, "")
    requires RetryDone(u, w, Concat(Fragments(s.chunks)), r)
    ensures Heard(v, w, t, s, r)
  {
    hide Foreign, PushAll, Concat, Fragments, CallsOf, OnlyFinish, Streamed, RetryDone;
  }

  lemma HeardSaid(v: State, u: State, x: State, w: State, t: Terms, s: RoundScript, said: string, r: RoundEnd)
    requires !(Foreign(v, t, s) && OnlyFinish(CallsOf(s.chunks)))
    requires said == if Foreign(v, t, s) then "" else Concat(Fragments(s.chunks))
    requires Streamed(v, u, said) && Answered(u, x, said, CallsOf(s.chunks))
    requires EndDone(x, w, t, said, CallsOf(s.chunks), s, r)
    ensures Heard(v, w, t, s, r)
  {
    hide Foreign, PushAll, Concat, Fragments, CallsOf, OnlyFinish, Streamed, Answered, EndDone;
  }

  lemma ForeignIs(v: State, w: State, out: string, t: Terms, s: RoundScript, published: bool)
    requires Streamed(v, w, out) && published == PushAll(t.tests, t.chinese, Fragments(s.chunks)).0.published
    ensures Foreign(v, t, s) <==>
              !w.closingOnly && t.chinese && !published && t.tests.english(Concat(Fragments(s.chunks)))
  {
  }

  lemma SilentIsEmpty(s: TextState, given: string, out: string)
    requires Faithful(s, given, out)
    ensures !s.published ==> out == ""
  {
  }

  lemma SameRetried(v: State, w: State, out: string)
    requires Streamed(v, w, out)
    ensures w.contextRetried == v.contextRetried
  {
  }

  lemma NothingStreamed(v: State)
    requires !v.roundTextStarted
    ensures Streamed(v, v, "")
  {
    assert v.texts[|v.texts|..] == [];
  }

  lemma NewRound(log: seq<Execution>, round: nat, observed: set<string>)
    requires RoundsOrdered(log, round) && ObservedBooked(log, observed)
    ensures forall id :: id in observed <==> ObservedBefore(log, round + 1, id)
  {
    forall id ensures Observed(log, id) <==> ObservedBefore(log, round + 1, id) {
    }
  }
}
