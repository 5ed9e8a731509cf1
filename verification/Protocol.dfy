/**
 * Chat messages, and the rule that ties tool results to the calls they answer: after a message with tool calls come
 * exactly one result for each call, in any order, and results stand nowhere else. The grouping loop of
 * apps/worker/src/analysis/context-assembler.ts is proved to accept exactly the lists that follow it.
 */
module Protocol {
  import opened Common

  datatype Call = Call(id: string, name: string, arguments: string)

  datatype Message =
    | System(text: string)
    | User(text: string)
    | Assistant(text: string, calls: seq<Call>)
    | ToolResult(callId: string, text: string)

  datatype ProtocolError = IncompleteBatch | OrphanResult

  type Group = seq<Message>

  function Flatten(groups: seq<Group>): seq<Message> {
    if groups == [] then [] else groups[0] + Flatten(groups[1..])
  }

  predicate Calling(m: Message) {
    m.Assistant? && m.calls != []
  }

  function Ids(calls: seq<Call>): set<string> {
    set c | c in calls :: c.id
  }

  // A call message and one result for each id it names.
  ghost predicate IsBatch(g: Group) {
    && g != [] && Calling(g[0])
    && Answers(Ids(g[0].calls), g[1..])
  }

  ghost predicate Answers(ids: set<string>, results: seq<Message>) {
    && (forall i :: 0 <= i < |results| ==> results[i].ToolResult? && results[i].callId in ids)
    && (forall i, j :: 0 <= i < j < |results| && results[i].ToolResult? && results[j].ToolResult? ==>
          results[i].callId != results[j].callId)
    && (forall id :: id in ids ==> exists i :: 0 <= i < |results| && results[i].ToolResult? && results[i].callId == id)
  }

  predicate IsSingle(g: Group) {
    |g| == 1 && !g[0].ToolResult? && !Calling(g[0])
  }

  ghost predicate Decomposes(messages: seq<Message>, groups: seq<Group>) {
    Flatten(groups) == messages && forall g :: g in groups ==> IsBatch(g) || IsSingle(g)
  }

  ghost predicate WellFormed(messages: seq<Message>) {
    exists groups :: Decomposes(messages, groups)
  }

  // ---------- The grouping, front to back ----------

  // How many messages answer the remaining ids.
  function Collect(ids: set<string>, messages: seq<Message>): Option<nat> {
    if ids == {} then Some(0)
    else if messages == [] || !messages[0].ToolResult? || messages[0].callId !in ids then None
    else
      var n := Collect(ids - {messages[0].callId}, messages[1..]);
      if n.Some? then Some(n.value + 1) else None
  }

  lemma {:induction false} CollectBound(ids: set<string>, messages: seq<Message>)
    ensures Collect(ids, messages).Some? ==> Collect(ids, messages).value <= |messages|
  {
    if ids != {} && messages != [] && messages[0].ToolResult? && messages[0].callId in ids {
      CollectBound(ids - {messages[0].callId}, messages[1..]);
    }
  }

  function GroupAll(messages: seq<Message>): Result<seq<Group>, ProtocolError>
    decreases |messages|
  {
    if messages == [] then Success([])
    else if Calling(messages[0]) then
      var n := Collect(Ids(messages[0].calls), messages[1..]);
      if n.None? then Failure(IncompleteBatch)
      else
        CollectBound(Ids(messages[0].calls), messages[1..]);
        var rest :- GroupAll(messages[n.value + 1..]);
        Success([messages[..n.value + 1]] + rest)
    else if messages[0].ToolResult? then Failure(OrphanResult)
    else
      var rest :- GroupAll(messages[1..]);
      Success([messages[..1]] + rest)
  }

  lemma AnswersCons(ids: set<string>, m: Message, rest: seq<Message>)
    requires m.ToolResult? && m.callId in ids && Answers(ids - {m.callId}, rest)
    ensures Answers(ids, [m] + rest)
  {
    var results := [m] + rest;
    forall k | k in ids ensures exists i :: 0 <= i < |results| && results[i].ToolResult? && results[i].callId == k {
      if k == m.callId {
        assert results[0].callId == k;
      } else {
        assert k in ids - {m.callId};
        var i :| 0 <= i < |rest| && rest[i].ToolResult? && rest[i].callId == k;
        assert results[i + 1].callId == k;
      }
    }
  }

  lemma {:induction false} CollectAnswers(ids: set<string>, messages: seq<Message>)
    requires Collect(ids, messages).Some?
    ensures Collect(ids, messages).value <= |messages|
    ensures Answers(ids, messages[..Collect(ids, messages).value])
  {
    CollectBound(ids, messages);
    if ids != {} {
      var m := messages[0];
      CollectAnswers(ids - {m.callId}, messages[1..]);
      var n := Collect(ids - {m.callId}, messages[1..]).value;
      assert messages[..n + 1] == [m] + messages[1..][..n];
      hide Answers;
      AnswersCons(ids, m, messages[1..][..n]);
    }
  }

  lemma AnswersTail(ids: set<string>, results: seq<Message>)
    requires Answers(ids, results) && results != []
    ensures Answers(ids - {results[0].callId}, results[1..])
  {
    var rest := results[1..];
    forall k | k in ids - {results[0].callId}
      ensures exists i :: 0 <= i < |rest| && rest[i].ToolResult? && rest[i].callId == k {
      var i :| 0 <= i < |results| && results[i].ToolResult? && results[i].callId == k;
      assert rest[i - 1].callId == k;
    }
  }

  lemma {:induction false} AnswersCollect(ids: set<string>, results: seq<Message>, rest: seq<Message>)
    requires Answers(ids, results)
    ensures Collect(ids, results + rest) == Some(|results|)
    decreases |results|
  {
    if results == [] {
      assert ids == {};
    } else {
      assert results[0].callId in ids;
      AnswersTail(ids, results);
      AnswersCollect(ids - {results[0].callId}, results[1..], rest);
      assert (results + rest)[1..] == results[1..] + rest;
    }
  }

  lemma FlattenStep(groups: seq<Group>)
    requires groups != []
    ensures Flatten(groups) == groups[0] + Flatten(groups[1..])
  {
  }

  lemma {:induction false} GroupAllDecomposes(messages: seq<Message>)
    requires GroupAll(messages).Success?
    ensures Decomposes(messages, GroupAll(messages).value)
    decreases |messages|
  {
    if messages != [] {
      var n := if Calling(messages[0]) then Collect(Ids(messages[0].calls), messages[1..]).value else 0;
      if Calling(messages[0]) {
        CollectAnswers(Ids(messages[0].calls), messages[1..]);
        assert messages[..n + 1][1..] == messages[1..][..n];
        assert IsBatch(messages[..n + 1]);
      }
      GroupAllDecomposes(messages[n + 1..]);
      var groups := GroupAll(messages).value;
      assert groups == [messages[..n + 1]] + GroupAll(messages[n + 1..]).value;
      FlattenStep(groups);
      assert messages == messages[..n + 1] + messages[n + 1..];
    }
  }

  lemma {:induction false} DecomposedGroups(messages: seq<Message>, groups: seq<Group>)
    requires Decomposes(messages, groups)
    ensures GroupAll(messages) == Success(groups)
    decreases |groups|
  {
    if groups != [] {
      var g, rest := groups[0], Flatten(groups[1..]);
      assert g in groups;
      assert messages == g + rest;
      forall h | h in groups[1..] ensures IsBatch(h) || IsSingle(h) {
        assert h in groups;
      }
      DecomposedGroups(rest, groups[1..]);
      assert messages[|g|..] == rest && messages[..|g|] == g;
      if IsBatch(g) {
        AnswersCollect(Ids(g[0].calls), g[1..], rest);
        assert messages[1..] == g[1..] + rest;
      }
      assert groups == [g] + groups[1..];
    }
  }

  // A list has at most one decomposition, and the grouping finds it whenever there is one.
  lemma GroupingIsExact(messages: seq<Message>, groups: seq<Group>)
    ensures GroupAll(messages) == Success(groups) <==> Decomposes(messages, groups)
    ensures GroupAll(messages).Success? <==> WellFormed(messages)
  {
    if GroupAll(messages).Success? {
      GroupAllDecomposes(messages);
    }
    if Decomposes(messages, groups) {
      DecomposedGroups(messages, groups);
    }
    if WellFormed(messages) {
      var gs :| Decomposes(messages, gs);
      DecomposedGroups(messages, gs);
    }
  }

  // ---------- Putting lists together ----------

  lemma {:induction false} FlattenConcat(a: seq<Group>, b: seq<Group>)
    ensures Flatten(a + b) == Flatten(a) + Flatten(b)
  {
    if a == [] {
      assert a + b == b;
    } else {
      assert (a + b)[1..] == a[1..] + b;
      FlattenConcat(a[1..], b);
    }
  }

  lemma DecomposesConcat(a: seq<Message>, ga: seq<Group>, b: seq<Message>, gb: seq<Group>)
    requires Decomposes(a, ga) && Decomposes(b, gb)
    ensures Decomposes(a + b, ga + gb)
  {
    FlattenConcat(ga, gb);
  }

  lemma WellFormedConcat(a: seq<Message>, b: seq<Message>)
    requires WellFormed(a) && WellFormed(b)
    ensures WellFormed(a + b)
  {
    var ga :| Decomposes(a, ga);
    var gb :| Decomposes(b, gb);
    DecomposesConcat(a, ga, b, gb);
  }

  lemma OneGroup(g: Group)
    requires IsBatch(g) || IsSingle(g)
    ensures Decomposes(g, [g]) && WellFormed(g)
  {
    assert [g][1..] == [];
    assert Flatten([g]) == g + Flatten([g][1..]);
    assert Decomposes(g, [g]);
  }

  // ---------- The loop ----------

  function Prefixed(groups: seq<Group>, r: Result<seq<Group>, ProtocolError>): Result<seq<Group>, ProtocolError> {
    if r.Success? then Success(groups + r.value) else r
  }

  lemma PrefixedTwice(groups: seq<Group>, g: Group, r: Result<seq<Group>, ProtocolError>)
    ensures Prefixed([], r) == r
    ensures Prefixed(groups, Prefixed([g], r)) == Prefixed(groups + [g], r)
  {
    if r.Success? {
      assert [] + r.value == r.value;
      assert groups + ([g] + r.value) == groups + [g] + r.value;
    }
  }

  // The front group of what is left from position i.
  lemma GroupFront(messages: seq<Message>, i: nat, n: nat)
    requires i < |messages|
    requires if Calling(messages[i]) then Collect(Ids(messages[i].calls), messages[i + 1..]) == Some(n)
               else n == 0 && !messages[i].ToolResult?
    ensures i + n + 1 <= |messages|
    ensures GroupAll(messages[i..]) == Prefixed([messages[i..i + n + 1]], GroupAll(messages[i + n + 1..]))
  {
    if Calling(messages[i]) {
      CollectBound(Ids(messages[i].calls), messages[i + 1..]);
    }
    var rest := messages[i..];
    assert rest[0] == messages[i] && rest[1..] == messages[i + 1..];
    assert rest[..n + 1] == messages[i..i + n + 1] && rest[n + 1..] == messages[i + n + 1..];
  }

  lemma GroupStops(messages: seq<Message>, i: nat)
    requires i <= |messages|
    ensures i == |messages| ==> GroupAll(messages[i..]) == Success([])
    ensures i < |messages| && messages[i].ToolResult? ==> GroupAll(messages[i..]) == Failure(OrphanResult)
    ensures i < |messages| && Calling(messages[i]) && Collect(Ids(messages[i].calls), messages[i + 1..]).None? ==>
              GroupAll(messages[i..]) == Failure(IncompleteBatch)
  {
    if i < |messages| {
      assert messages[i..][1..] == messages[i + 1..];
    }
  }

  // The inner loop: results are taken until every id has been answered.
  method CollectBatch(messages: seq<Message>, first: nat) returns (group: Option<Group>)
    requires first < |messages| && Calling(messages[first])
    ensures var n := Collect(Ids(messages[first].calls), messages[first + 1..]);
            if n.None? then group.None?
            else first + n.value + 1 <= |messages| && group == Some(messages[first..first + n.value + 1])
  {
    var i := first;
    var ids := Ids(messages[first].calls);
    ghost var n := Collect(ids, messages[first + 1..]);
    var taken := [messages[first]];
    while ids != {}
      invariant first <= i < |messages|
      invariant taken == messages[first..i + 1]
      invariant var m := Collect(ids, messages[i + 1..]); n == if m.Some? then Some(m.value + (i - first)) else None
    {
      i := i + 1;
      if i >= |messages| || !messages[i].ToolResult? || messages[i].callId !in ids {
        return None;
      }
      assert messages[i..][1..] == messages[i + 1..];
      ids := ids - {messages[i].callId};
      taken := taken + [messages[i]];
    }
    return Some(taken);
  }

  method GroupMessages(messages: seq<Message>, start: nat) returns (r: Result<seq<Group>, ProtocolError>)
    requires start <= |messages|
    ensures r == GroupAll(messages[start..])
  {
    hide GroupAll, Collect;
    var groups: seq<Group> := [];
    var i: nat := start;
    PrefixedTwice([], [], GroupAll(messages[start..]));
    while i < |messages|
      invariant start <= i <= |messages|
      invariant GroupAll(messages[start..]) == Prefixed(groups, GroupAll(messages[i..]))
    {
      var m := messages[i];
      GroupStops(messages, i);
      if Calling(m) {
        var group := CollectBatch(messages, i);
        if group.None? {
          return Failure(IncompleteBatch);
        }
        GroupFront(messages, i, |group.value| - 1);
        PrefixedTwice(groups, group.value, GroupAll(messages[i + |group.value|..]));
        groups := groups + [group.value];
        i := i + |group.value|;
      } else if m.ToolResult? {
        return Failure(OrphanResult);
      } else {
        GroupFront(messages, i, 0);
        PrefixedTwice(groups, messages[i..i + 1], GroupAll(messages[i + 1..]));
        assert messages[i..i + 1] == [m];
        groups := groups + [[m]];
        i := i + 1;
      }
    }
    GroupStops(messages, i);
    assert groups + [] == groups;
    return Success(groups);
  }
}
