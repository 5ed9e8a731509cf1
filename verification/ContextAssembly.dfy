/**
 * Which messages a model call gets: candidates are ranked, taken greedily while they fit the token budget, and put back
 * into conversation order (apps/worker/src/analysis/context-assembler.ts).
 */
module ContextAssembly {
  import opened Common
  import opened Protocol

  datatype Candidate = Candidate(id: string, category: string, priority: int, messages: seq<Message>, required: bool)

  const TOOLS := "tool-interaction"
  const RECENT := "recent-turn"

  // ---------- Token cost: any measure that adds up over messages ----------

  type Cost = Message -> nat

  function CostOf(cost: Cost, messages: seq<Message>): nat {
    if messages == [] then 0 else cost(messages[0]) + CostOf(cost, messages[1..])
  }

  lemma {:induction false} CostConcat(cost: Cost, a: seq<Message>, b: seq<Message>)
    ensures CostOf(cost, a + b) == CostOf(cost, a) + CostOf(cost, b)
  {
    if a == [] {
      assert a + b == b;
    } else {
      assert (a + b)[1..] == a[1..] + b;
      CostConcat(cost, a[1..], b);
    }
  }

  // ---------- Candidates ----------

  predicate IsToolGroup(g: Group) {
    g != [] && Calling(g[0])
  }

  // The last tool batch, or none.
  function LatestToolGroup(groups: seq<Group>): Option<nat> {
    if groups == [] then None
    else if IsToolGroup(groups[|groups| - 1]) then Some(|groups| - 1)
    else LatestToolGroup(groups[..|groups| - 1])
  }

  function ActionId(i: nat): string {
    "action-" + Decimal(i)
  }

  function Action(groups: seq<Group>, i: nat): Candidate
    requires i < |groups|
  {
    Candidate(ActionId(i), TOOLS, 3, groups[i], i == |groups| - 1 || LatestToolGroup(groups) == Some(i))
  }

  function Actions(groups: seq<Group>, n: nat): (r: seq<Candidate>)
    requires n <= |groups|
    ensures |r| == n && forall i :: 0 <= i < n ==> r[i] == Action(groups, i)
  {
    if n == 0 then [] else Actions(groups, n - 1) + [Action(groups, n - 1)]
  }

  function Base(system: string, user: Message): Candidate {
    Candidate("current-task", "rules-and-state", 1, [System(system), user], true)
  }

  function Candidates(system: string, user: Message, groups: seq<Group>, extras: seq<Candidate>): seq<Candidate> {
    [Base(system, user)] + Actions(groups, |groups|) + extras
  }

  // ---------- Ranking ----------

  // The comparator: required first, then by priority; tool batches newest first, everything else in order.
  predicate Before(cs: seq<Candidate>, a: nat, b: nat)
    requires a < |cs| && b < |cs|
  {
    if cs[a].required != cs[b].required then cs[a].required
    else if cs[a].priority != cs[b].priority then cs[a].priority < cs[b].priority
    else if cs[a].category == TOOLS && cs[b].category == TOOLS then b < a
    else a < b
  }

  predicate SameRank(cs: seq<Candidate>, a: nat, b: nat)
    requires a < |cs| && b < |cs|
  {
    cs[a].required == cs[b].required && cs[a].priority == cs[b].priority
  }

  predicate IsTool(cs: seq<Candidate>, i: nat)
    requires i < |cs|
  {
    cs[i].category == TOOLS
  }

  // No other candidate of the same rank stands between two tool batches.
  ghost predicate ToolsAdjacent(cs: seq<Candidate>) {
    forall i, j, k ::
      0 <= i < j < k < |cs| && IsTool(cs, i) && IsTool(cs, k) && SameRank(cs, i, j) && SameRank(cs, j, k) ==>
        IsTool(cs, j)
  }

  ghost predicate Transitive(cs: seq<Candidate>) {
    forall i, j, k :: 0 <= i < |cs| && 0 <= j < |cs| && 0 <= k < |cs| && Before(cs, i, j) && Before(cs, j, k)
        ==> Before(cs, i, k)
  }

  lemma BeforeIsTotal(cs: seq<Candidate>, a: nat, b: nat)
    requires a < |cs| && b < |cs|
    ensures !Before(cs, a, a)
    ensures a != b ==> (Before(cs, a, b) <==> !Before(cs, b, a))
  {
  }

  // The comparator is a strict total order exactly when tool batches of one rank are adjacent.
  lemma OrderIsTotalIffToolsAdjacent(cs: seq<Candidate>)
    ensures Transitive(cs) <==> ToolsAdjacent(cs)
  {
    if ToolsAdjacent(cs) {
      forall i, j, k | 0 <= i < |cs| && 0 <= j < |cs| && 0 <= k < |cs| && Before(cs, i, j) && Before(cs, j, k)
        ensures Before(cs, i, k)
      {
        if SameRank(cs, i, j) && SameRank(cs, j, k) {
          assert IsTool(cs, i) && IsTool(cs, j) && !IsTool(cs, k) ==> !(j < k < i);
          assert !IsTool(cs, i) && IsTool(cs, j) && IsTool(cs, k) ==> !(k < i < j);
        }
      }
    }
    if Transitive(cs) {
      forall i, j, k | 0 <= i < j < k < |cs| && IsTool(cs, i) && IsTool(cs, k) && SameRank(cs, i, j)
          && SameRank(cs, j, k)
        ensures IsTool(cs, j)
      {
        if !IsTool(cs, j) {
          assert Before(cs, i, j) && Before(cs, j, k);
        }
      }
    }
  }

  // So it is one on every list of candidates whose extras are not tool interactions.
  lemma CandidatesAreOrdered(system: string, user: Message, groups: seq<Group>, extras: seq<Candidate>)
    requires forall c :: c in extras ==> c.category != TOOLS
    ensures ToolsAdjacent(Candidates(system, user, groups, extras))
          && Transitive(Candidates(system, user, groups, extras))
  {
    var cs := Candidates(system, user, groups, extras);
    assert forall k :: |groups| < k < |cs| ==> cs[k] in extras;
    OrderIsTotalIffToolsAdjacent(cs);
  }

  // ---------- Sorting ----------

  predicate Within(order: seq<nat>, n: nat) {
    forall p :: 0 <= p < |order| ==> order[p] < n
  }

  predicate Sorted(cs: seq<Candidate>, order: seq<nat>)
    requires Within(order, |cs|)
  {
    forall p, q :: 0 <= p < q < |order| ==> Before(cs, order[p], order[q])
  }

  predicate Permutes(order: seq<nat>, n: nat) {
    && Within(order, n)
    && (forall i :: 0 <= i < n ==> i in order)
    && (forall p, q :: 0 <= p < q < |order| ==> order[p] != order[q])
  }

  ghost predicate IsRanking(cs: seq<Candidate>, order: seq<nat>) {
    Permutes(order, |cs|) && Sorted(cs, order)
  }

  // The sort of the candidates, as an insertion sort. Without a total order it still arranges all of them.
  method Rank(cs: seq<Candidate>) returns (order: seq<nat>)
    ensures Permutes(order, |cs|) && (Transitive(cs) ==> IsRanking(cs, order))
  {
    order := [];
    var n := 0;
    while n < |cs|
      invariant n <= |cs| && Permutes(order, n) && (Transitive(cs) ==> Sorted(cs, order))
    {
      var p := 0;
      while p < |order| && Before(cs, order[p], n)
        invariant p <= |order|
        invariant forall k :: 0 <= k < p ==> Before(cs, order[k], n)
      {
        p := p + 1;
      }
      if p < |order| {
        BeforeIsTotal(cs, order[p], n);
      }
      InsertPermutes(order, n, p);
      if Transitive(cs) {
        InsertSorted(cs, order, n, p);
      }
      order := order[..p] + [n] + order[p..];
      n := n + 1;
    }
  }

  lemma InsertPermutes(order: seq<nat>, n: nat, p: nat)
    requires p <= |order| && Permutes(order, n)
    ensures Permutes(order[..p] + [n] + order[p..], n + 1)
  {
    var r := order[..p] + [n] + order[p..];
    forall i | 0 <= i < n + 1 ensures i in r {
      if i == n {
        assert r[p] == i;
      } else {
        assert i in order;
        var k :| 0 <= k < |order| && order[k] == i;
        assert r[if k < p then k else k + 1] == i;
      }
    }
  }

  lemma InsertSorted(cs: seq<Candidate>, order: seq<nat>, n: nat, p: nat)
    requires Transitive(cs) && n < |cs| && p <= |order| && Permutes(order, n) && Sorted(cs, order)
    requires forall k :: 0 <= k < p ==> Before(cs, order[k], n)
    requires p < |order| ==> Before(cs, n, order[p])
    ensures Permutes(order[..p] + [n] + order[p..], n + 1)
    ensures Sorted(cs, order[..p] + [n] + order[p..])
  {
    InsertPermutes(order, n, p);
    var r := order[..p] + [n] + order[p..];
    forall a, b | 0 <= a < b < |r| ensures Before(cs, r[a], r[b]) {
      var x, y := if a < p then a else a - 1, if b < p then b else b - 1;
      if a == p {
        assert r[b] == order[y];
        assert y > p ==> Before(cs, order[p], order[y]);
      } else if b == p {
        assert r[a] == order[x];
      } else {
        assert r[a] == order[x] && r[b] == order[y];
      }
    }
  }

  // ---------- Greedy selection ----------

  datatype ContextError = ProtocolFailure(error: ProtocolError) | BudgetExceeded

  datatype Selection = Selection(chosen: set<nat>, remaining: int)

  function Costs(cost: Cost, cs: seq<Candidate>, i: nat): nat
    requires i < |cs|
  {
    CostOf(cost, cs[i].messages)
  }

  function Greedy(cost: Cost, cs: seq<Candidate>, order: seq<nat>, remaining: int): Result<Selection, ContextError>
    requires Within(order, |cs|)
  {
    if order == [] then Success(Selection({}, remaining))
    else
      var i := order[0];
      if Costs(cost, cs, i) <= remaining then
        var r :- Greedy(cost, cs, order[1..], remaining - Costs(cost, cs, i));
        Success(Selection(r.chosen + {i}, r.remaining))
      else if cs[i].required then Failure(BudgetExceeded)
      else Greedy(cost, cs, order[1..], remaining)
  }

  // Candidates are taken in ranked order as long as they fit.
  method Select(cost: Cost, cs: seq<Candidate>, order: seq<nat>, budget: int)
      returns (r: Result<Selection, ContextError>)
    requires Within(order, |cs|)
    ensures r == Greedy(cost, cs, order, budget)
  {
    var chosen := {};
    var remaining := budget;
    var p := 0;
    assert order[0..] == order;
    WithChosenTwice({}, 0, Greedy(cost, cs, order, budget));
    while p < |order|
      invariant 0 <= p <= |order|
      invariant Greedy(cost, cs, order, budget) == WithChosen(chosen, Greedy(cost, cs, order[p..], remaining))
    {
      var i := order[p];
      assert order[p..][0] == i && order[p..][1..] == order[p + 1..];
      if Costs(cost, cs, i) <= remaining {
        WithChosenTwice(chosen, i, Greedy(cost, cs, order[p + 1..], remaining - Costs(cost, cs, i)));
        chosen := chosen + {i};
        remaining := remaining - Costs(cost, cs, i);
      } else if cs[i].required {
        return Failure(BudgetExceeded);
      }
      p := p + 1;
    }
    return Success(Selection(chosen, remaining));
  }

  function WithChosen(chosen: set<nat>, r: Result<Selection, ContextError>): Result<Selection, ContextError> {
    if r.Success? then Success(Selection(r.value.chosen + chosen, r.value.remaining)) else r
  }

  lemma WithChosenTwice(chosen: set<nat>, i: nat, r: Result<Selection, ContextError>)
    ensures WithChosen({}, r) == r
    ensures WithChosen(chosen, WithChosen({i}, r)) == WithChosen(chosen + {i}, r)
  {
    if r.Success? {
      assert r.value.chosen + {} == r.value.chosen;
      assert r.value.chosen + {i} + chosen == r.value.chosen + (chosen + {i});
    }
  }

  function SumChosen(cost: Cost, cs: seq<Candidate>, chosen: set<nat>, n: nat): nat
    requires n <= |cs|
  {
    if n == 0 then 0
    else SumChosen(cost, cs, chosen, n - 1) + if n - 1 in chosen then Costs(cost, cs, n - 1) else 0
  }

  lemma {:induction false} SumAdds(cost: Cost, cs: seq<Candidate>, chosen: set<nat>, i: nat, n: nat)
    requires n <= |cs| && i !in chosen && i < |cs|
    ensures SumChosen(cost, cs, chosen + {i}, n) == SumChosen(cost, cs, chosen, n) + if i < n then Costs(cost, cs, i)
          else 0
  {
    if n > 0 {
      SumAdds(cost, cs, chosen, i, n - 1);
    }
  }

  lemma {:induction false} SumOfNone(cost: Cost, cs: seq<Candidate>, n: nat)
    requires n <= |cs|
    ensures SumChosen(cost, cs, {}, n) == 0
  {
    if n > 0 {
      SumOfNone(cost, cs, n - 1);
    }
  }

  // What is chosen is paid for exactly, and every required candidate is chosen.
  lemma {:induction false} GreedyPays(cost: Cost, cs: seq<Candidate>, order: seq<nat>, budget: int)
    requires Within(order, |cs|) && (forall p, q :: 0 <= p < q < |order| ==> order[p] != order[q])
    requires Greedy(cost, cs, order, budget).Success?
    ensures var s := Greedy(cost, cs, order, budget).value;
            && (forall i :: i in s.chosen ==> i in order)
            && SumChosen(cost, cs, s.chosen, |cs|) == budget - s.remaining
            && (forall i :: i in order && cs[i].required ==> i in s.chosen)
            && (order != [] && cs[order[0]].required ==> s.remaining >= 0)
            && (budget >= 0 ==> s.remaining >= 0)
    decreases |order|
  {
    if order == [] {
      SumOfNone(cost, cs, |cs|);
    } else {
      var i, rest := order[0], order[1..];
      var left := if Costs(cost, cs, i) <= budget then budget - Costs(cost, cs, i) else budget;
      GreedyPays(cost, cs, rest, left);
      if Costs(cost, cs, i) <= budget {
        SumAdds(cost, cs, Greedy(cost, cs, rest, left).value.chosen, i, |cs|);
      }
    }
  }

  // If an earlier-ranked candidate is dropped and a later one is kept, the dropped one is strictly larger.
  lemma {:induction false} GreedyDominance(cost: Cost, cs: seq<Candidate>, order: seq<nat>, budget: int, p: nat, q: nat)
    requires Within(order, |cs|) && (forall a, b :: 0 <= a < b < |order| ==> order[a] != order[b])
    requires Greedy(cost, cs, order, budget).Success? && p < q < |order|
    requires order[p] !in Greedy(cost, cs, order, budget).value.chosen
          && order[q] in Greedy(cost, cs, order, budget).value.chosen
    ensures Costs(cost, cs, order[p]) > Costs(cost, cs, order[q])
    decreases |order|
  {
    var i, rest := order[0], order[1..];
    var left := if Costs(cost, cs, i) <= budget then budget - Costs(cost, cs, i) else budget;
    if p == 0 {
      ChosenFits(cost, cs, rest, left, q - 1);
    } else {
      GreedyDominance(cost, cs, rest, left, p - 1, q - 1);
    }
  }

  lemma {:induction false} ChosenFits(cost: Cost, cs: seq<Candidate>, order: seq<nat>, budget: int, q: nat)
    requires Within(order, |cs|) && (forall a, b :: 0 <= a < b < |order| ==> order[a] != order[b])
    requires Greedy(cost, cs, order, budget).Success? && q < |order|
          && order[q] in Greedy(cost, cs, order, budget).value.chosen
    ensures Costs(cost, cs, order[q]) <= budget
    decreases |order|
  {
    var i, rest := order[0], order[1..];
    var left := if Costs(cost, cs, i) <= budget then budget - Costs(cost, cs, i) else budget;
    GreedyPays(cost, cs, rest, left);
    if q > 0 {
      ChosenFits(cost, cs, rest, left, q - 1);
    }
  }

  // ---------- The output ----------

  function ChosenIds(cs: seq<Candidate>, chosen: set<nat>): set<string> {
    set i | i in chosen && i < |cs| :: cs[i].id
  }

  function MessagesOf(cs: seq<Candidate>): seq<Message> {
    if cs == [] then [] else cs[0].messages + MessagesOf(cs[1..])
  }

  function Kept(extras: seq<Candidate>, ids: set<string>, recent: bool): seq<Candidate> {
    if extras == [] then []
    else
      (if extras[0].id in ids && (extras[0].category == RECENT) == recent then [extras[0]] else [])
      + Kept(extras[1..], ids, recent)
  }

  function Reverse<T>(s: seq<T>): seq<T> {
    if s == [] then [] else Reverse(s[1..]) + [s[0]]
  }

  function KeptGroups(groups: seq<Group>, ids: set<string>, n: nat): seq<Message>
    requires n <= |groups|
  {
    if n == 0 then [] else KeptGroups(groups, ids, n - 1) + if ActionId(n - 1) in ids then groups[n - 1] else []
  }

  function ExtraMessages(extras: seq<Candidate>, ids: set<string>): seq<Message> {
    MessagesOf(Reverse(Kept(extras, ids, true))) + MessagesOf(Kept(extras, ids, false))
  }

  function Output(system: string, user: Message, groups: seq<Group>, extras: seq<Candidate>,
      ids: set<string>): seq<Message> {
    [System(system)] + ExtraMessages(extras, ids) + [user] + KeptGroups(groups, ids, |groups|)
  }

  datatype Assembly = Assembly(messages: seq<Message>, chosen: set<nat>, estimated: int)

  // `order` is the ranking of the candidates; `toolTokens` what the tool definitions cost.
  function Assemble(cost: Cost, toolTokens: nat, messages: seq<Message>, system: string, extras: seq<Candidate>,
      budget: int, order: seq<nat>)
    : Result<Assembly, ContextError>
    requires |messages| >= 2
    requires GroupAll(messages[2..]).Success? ==> Within(order,
          |Candidates(system, messages[1], GroupAll(messages[2..]).value, extras)|)
  {
    var g := GroupAll(messages[2..]);
    if g.Failure? then Failure(ProtocolFailure(g.error))
    else
      var cs := Candidates(system, messages[1], g.value, extras);
      var s :- Greedy(cost, cs, order, budget - toolTokens);
      Success(Assembly(Output(system, messages[1], g.value, extras, ChosenIds(cs, s.chosen)), s.chosen,
          budget - s.remaining))
  }

  // Under a total order there is only one ranking, so the result does not depend on how the sort works.
  lemma {:induction false} RankingIsUnique(cs: seq<Candidate>, a: seq<nat>, b: seq<nat>)
    requires Within(a, |cs|) && Within(b, |cs|) && Sorted(cs, a) && Sorted(cs, b)
    requires forall i :: i in a <==> i in b
    ensures a == b
    decreases |a|
  {
    if a == [] {
      assert forall k :: 0 <= k < |b| ==> b[k] in a;
    } else {
      assert a[0] in b && b[0] in a;
      var q :| 0 <= q < |b| && b[q] == a[0];
      var p :| 0 <= p < |a| && a[p] == b[0];
      BeforeIsTotal(cs, a[0], b[0]);
      forall i ensures i in a[1..] <==> i in b[1..] {
        HeadIsNotInTail(cs, a);
        HeadIsNotInTail(cs, b);
        assert i in a <==> i == a[0] || i in a[1..];
        assert i in b <==> i == b[0] || i in b[1..];
      }
      RankingIsUnique(cs, a[1..], b[1..]);
    }
  }

  lemma HeadIsNotInTail(cs: seq<Candidate>, a: seq<nat>)
    requires Within(a, |cs|) && Sorted(cs, a) && a != []
    ensures a[0] !in a[1..]
  {
    forall p | 1 <= p < |a| ensures a[p] != a[0] {
      assert Before(cs, a[0], a[p]);
    }
  }

  ghost predicate Ranks(messages: seq<Message>, system: string, extras: seq<Candidate>, order: seq<nat>)
    requires |messages| >= 2
  {
    GroupAll(messages[2..]).Success? ==> IsRanking(Candidates(system, messages[1], GroupAll(messages[2..]).value,
        extras), order)
  }

  lemma SameRanking(cs: seq<Candidate>, a: seq<nat>, b: seq<nat>)
    requires IsRanking(cs, a) && IsRanking(cs, b)
    ensures a == b
  {
    RankingIsUnique(cs, a, b);
  }

  // All candidates, in some order.
  ghost predicate Arranges(messages: seq<Message>, system: string, extras: seq<Candidate>, order: seq<nat>)
    requires |messages| >= 2
  {
    GroupAll(messages[2..]).Success? ==> Permutes(order,
        |Candidates(system, messages[1], GroupAll(messages[2..]).value, extras)|)
  }

  // The comparator orders the candidates.
  ghost predicate Orderly(messages: seq<Message>, system: string, extras: seq<Candidate>)
    requires |messages| >= 2
  {
    GroupAll(messages[2..]).Success? ==> Transitive(Candidates(system, messages[1], GroupAll(messages[2..]).value,
        extras))
  }

  // The selection follows some arrangement of the candidates. If the comparator orders them, there is a ranking, and
  // whichever one a sort finds, the result is the same.
  method AssembleContext(cost: Cost, toolTokens: nat, messages: seq<Message>, system: string, extras: seq<Candidate>,
      budget: int)
    returns (r: Result<Assembly, ContextError>)
    requires |messages| >= 2
    ensures exists order ::
              Arranges(messages, system, extras, order)
                  && r == Assemble(cost, toolTokens, messages, system, extras, budget, order)
    ensures Orderly(messages, system, extras) ==> exists order :: Ranks(messages, system, extras, order)
    ensures forall order :: Orderly(messages, system, extras) && Ranks(messages, system, extras, order) ==>
              r == Assemble(cost, toolTokens, messages, system, extras, budget, order)
  {
    hide Greedy, GroupAll, Output, Candidates, IsRanking, Transitive, ToolsAdjacent;
    var groups := GroupMessages(messages, 2);
    if groups.Failure? {
      assert Ranks(messages, system, extras, []) && Arranges(messages, system, extras, []);
      return Failure(ProtocolFailure(groups.error));
    }
    var cs := Candidates(system, messages[1], groups.value, extras);
    var ranked := Rank(cs);
    assert Arranges(messages, system, extras, ranked);
    if Orderly(messages, system, extras) {
      assert Ranks(messages, system, extras, ranked);
      forall order | Ranks(messages, system, extras, order) ensures order == ranked {
        SameRanking(cs, order, ranked);
      }
    }
    var s :- Select(cost, cs, ranked, budget - toolTokens);
    r := Success(Assembly(Output(system, messages[1], groups.value, extras, ChosenIds(cs, s.chosen)), s.chosen,
        budget - s.remaining));
  }
}
