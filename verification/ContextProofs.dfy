/**
 * What a successful context assembly guarantees: tokens are conserved, what must be there is there, the greedy choice
 * is explained by size, and the messages still follow the tool protocol.
 */
module ContextProofs {
  import opened Common
  import opened Protocol
  import opened ContextAssembly

  // ---------- Tokens ----------

  function SumIds(cost: Cost, cs: seq<Candidate>, ids: set<string>): nat {
    if cs == [] then 0
    else SumIds(cost, cs[..|cs| - 1], ids) + if cs[|cs| - 1].id in ids then CostOf(cost, cs[|cs| - 1].messages) else 0
  }

  lemma {:induction false} SumIdsConcat(cost: Cost, a: seq<Candidate>, b: seq<Candidate>, ids: set<string>)
    ensures SumIds(cost, a + b, ids) == SumIds(cost, a, ids) + SumIds(cost, b, ids)
  {
    if b == [] {
      assert a + b == a;
    } else {
      assert (a + b)[..|a + b| - 1] == a + b[..|b| - 1];
      SumIdsConcat(cost, a, b[..|b| - 1], ids);
    }
  }

  lemma {:induction false} ActionsCost(cost: Cost, groups: seq<Group>, ids: set<string>, n: nat)
    requires n <= |groups|
    ensures SumIds(cost, Actions(groups, n), ids) == CostOf(cost, KeptGroups(groups, ids, n))
  {
    if n > 0 {
      ActionsCost(cost, groups, ids, n - 1);
      assert Actions(groups, n)[..n - 1] == Actions(groups, n - 1);
      CostConcat(cost, KeptGroups(groups, ids, n - 1), if ActionId(n - 1) in ids then groups[n - 1] else []);
    }
  }

  function TotalCost(cost: Cost, cs: seq<Candidate>): nat {
    if cs == [] then 0 else CostOf(cost, cs[0].messages) + TotalCost(cost, cs[1..])
  }

  lemma {:induction false} TotalConcat(cost: Cost, a: seq<Candidate>, b: seq<Candidate>)
    ensures TotalCost(cost, a + b) == TotalCost(cost, a) + TotalCost(cost, b)
  {
    if a == [] {
      assert a + b == b;
    } else {
      assert (a + b)[1..] == a[1..] + b;
      TotalConcat(cost, a[1..], b);
    }
  }

  lemma {:induction false} TotalReverse(cost: Cost, cs: seq<Candidate>)
    ensures TotalCost(cost, Reverse(cs)) == TotalCost(cost, cs)
  {
    if cs != [] {
      TotalReverse(cost, cs[1..]);
      TotalConcat(cost, Reverse(cs[1..]), [cs[0]]);
    }
  }

  lemma {:induction false} TotalOfMessages(cost: Cost, cs: seq<Candidate>)
    ensures CostOf(cost, MessagesOf(cs)) == TotalCost(cost, cs)
  {
    if cs != [] {
      TotalOfMessages(cost, cs[1..]);
      CostConcat(cost, cs[0].messages, MessagesOf(cs[1..]));
    }
  }

  lemma {:induction false} KeptSplit(cost: Cost, extras: seq<Candidate>, ids: set<string>)
    ensures TotalCost(cost, Kept(extras, ids, true)) + TotalCost(cost, Kept(extras, ids, false))
          == SumIds(cost, extras, ids)
    decreases |extras|
  {
    if extras != [] {
      KeptSplit(cost, extras[1..], ids);
      assert extras == [extras[0]] + extras[1..];
      SumIdsConcat(cost, [extras[0]], extras[1..], ids);
      OneId(cost, extras[0], ids);
      forall recent { TotalConcat(cost, if extras[0].id in ids && (extras[0].category == RECENT) == recent
          then [extras[0]] else [], Kept(extras[1..], ids, recent)); }
    }
  }

  lemma OneId(cost: Cost, c: Candidate, ids: set<string>)
    ensures SumIds(cost, [c], ids) == if c.id in ids then CostOf(cost, c.messages) else 0
    ensures TotalCost(cost, [c]) == CostOf(cost, c.messages)
  {
    assert [c][..0] == [] && [c][1..] == [];
  }

  lemma ExtrasCost(cost: Cost, extras: seq<Candidate>, ids: set<string>)
    ensures CostOf(cost, ExtraMessages(extras, ids)) == SumIds(cost, extras, ids)
  {
    var recent, rest := Kept(extras, ids, true), Kept(extras, ids, false);
    CostConcat(cost, MessagesOf(Reverse(recent)), MessagesOf(rest));
    TotalOfMessages(cost, Reverse(recent));
    TotalReverse(cost, recent);
    TotalOfMessages(cost, rest);
    KeptSplit(cost, extras, ids);
  }

  // The output costs what the candidates cost whose ids were chosen.
  lemma OutputCost(cost: Cost, system: string, user: Message, groups: seq<Group>, extras: seq<Candidate>,
      ids: set<string>)
    requires "current-task" in ids
    ensures CostOf(cost, Output(system, user, groups, extras, ids))
          == SumIds(cost, Candidates(system, user, groups, extras), ids)
  {
    var base, actions := Base(system, user), Actions(groups, |groups|);
    SumIdsConcat(cost, [base] + actions, extras, ids);
    SumIdsConcat(cost, [base], actions, ids);
    OneId(cost, base, ids);
    ActionsCost(cost, groups, ids, |groups|);
    ExtrasCost(cost, extras, ids);
    var head, tail := [System(system)] + ExtraMessages(extras, ids), [user] + KeptGroups(groups, ids, |groups|);
    assert Output(system, user, groups, extras, ids) == head + tail;
    CostConcat(cost, head, tail);
    CostConcat(cost, [System(system)], ExtraMessages(extras, ids));
    CostConcat(cost, [user], KeptGroups(groups, ids, |groups|));
    assert [System(system), user] == [System(system)] + [user];
    CostConcat(cost, [System(system)], [user]);
  }

  lemma {:induction false} SumOfSet(cost: Cost, cs: seq<Candidate>, kept: set<nat>, ids: set<string>, n: nat)
    requires n <= |cs| && forall i :: 0 <= i < n ==> (i in kept <==> cs[i].id in ids)
    ensures SumChosen(cost, cs, kept, n) == SumIds(cost, cs[..n], ids)
  {
    if n > 0 {
      SumOfSet(cost, cs, kept, ids, n - 1);
      assert cs[..n][..n - 1] == cs[..n - 1];
    }
  }

  lemma {:induction false} SumSplits(cost: Cost, cs: seq<Candidate>, part: set<nat>, whole: set<nat>, n: nat)
    requires n <= |cs| && part <= whole
    ensures SumChosen(cost, cs, whole, n) == SumChosen(cost, cs, part, n) + SumChosen(cost, cs, whole - part, n)
  {
    if n > 0 {
      SumSplits(cost, cs, part, whole, n - 1);
    }
  }

  // Candidates that were dropped but share the id of a chosen one: the output contains them all the same.
  function Leaked(cs: seq<Candidate>, chosen: set<nat>): set<nat> {
    set i | 0 <= i < |cs| && i !in chosen && cs[i].id in ChosenIds(cs, chosen)
  }

  lemma SumOfChosenIds(cost: Cost, cs: seq<Candidate>, chosen: set<nat>)
    requires forall i :: i in chosen ==> i < |cs|
    ensures SumIds(cost, cs, ChosenIds(cs, chosen)) == SumChosen(cost, cs, chosen, |cs|)
          + SumChosen(cost, cs, Leaked(cs, chosen), |cs|)
  {
    var ids, whole := ChosenIds(cs, chosen), chosen + Leaked(cs, chosen);
    assert cs[..|cs|] == cs;
    SumOfSet(cost, cs, whole, ids, |cs|);
    SumSplits(cost, cs, chosen, whole, |cs|);
    assert whole - chosen == Leaked(cs, chosen);
  }

  predicate DistinctCandidates(cs: seq<Candidate>) {
    forall i, j :: 0 <= i < j < |cs| ==> cs[i].id != cs[j].id
  }

  ghost predicate Assembled(cost: Cost, toolTokens: nat, messages: seq<Message>, system: string,
      extras: seq<Candidate>, budget: int, order: seq<nat>, cs: seq<Candidate>, a: Assembly) {
    && |messages| >= 2 && GroupAll(messages[2..]).Success?
    && cs == Candidates(system, messages[1], GroupAll(messages[2..]).value, extras)
    && IsRanking(cs, order)
    && Assemble(cost, toolTokens, messages, system, extras, budget, order) == Success(a)
  }

  // The same, for some ranking of the candidates.
  ghost predicate Selected(cost: Cost, toolTokens: nat, messages: seq<Message>, system: string, extras: seq<Candidate>,
      budget: int, a: Assembly) {
    exists order, cs :: Assembled(cost, toolTokens, messages, system, extras, budget, order, cs, a)
  }

  // The base candidate is required, so it is chosen and the budget is never overdrawn.
  lemma AssembledPays(cost: Cost, toolTokens: nat, messages: seq<Message>, system: string, extras: seq<Candidate>,
      budget: int, order: seq<nat>, cs: seq<Candidate>, a: Assembly)
    requires Assembled(cost, toolTokens, messages, system, extras, budget, order, cs, a)
    ensures (forall i :: i in a.chosen ==> i < |cs|) && "current-task" in ChosenIds(cs, a.chosen)
    ensures forall i :: 0 <= i < |cs| && cs[i].required ==> i in a.chosen
    ensures SumChosen(cost, cs, a.chosen, |cs|) == a.estimated - toolTokens && a.estimated <= budget
  {
    hide Candidates, Output, ChosenIds, IsRanking, SumChosen, Greedy, GroupAll;
    RankingArranges(cs, order);
    GreedyPays(cost, cs, order, budget - toolTokens);
    RequiredFirst(cs, order, system, messages[1], GroupAll(messages[2..]).value, extras);
    assert 0 in a.chosen;
    ChosenBase(cs, a.chosen, system, messages[1], GroupAll(messages[2..]).value, extras);
  }

  lemma RankingArranges(cs: seq<Candidate>, order: seq<nat>)
    requires IsRanking(cs, order)
    ensures Within(order, |cs|) && forall p, q :: 0 <= p < q < |order| ==> order[p] != order[q]
  {
  }

  lemma RequiredFirst(cs: seq<Candidate>, order: seq<nat>, system: string, user: Message, groups: seq<Group>,
      extras: seq<Candidate>)
    requires cs == Candidates(system, user, groups, extras) && IsRanking(cs, order)
    ensures order != [] && cs[order[0]].required && cs[0].required
    ensures forall i :: 0 <= i < |cs| ==> i in order
  {
    assert 0 in order;
    var p :| 0 <= p < |order| && order[p] == 0;
    assert p > 0 ==> Before(cs, order[0], order[p]);
  }

  lemma ChosenBase(cs: seq<Candidate>, chosen: set<nat>, system: string, user: Message, groups: seq<Group>,
      extras: seq<Candidate>)
    requires cs == Candidates(system, user, groups, extras) && 0 in chosen
    ensures "current-task" in ChosenIds(cs, chosen)
  {
    assert cs[0].id == "current-task";
  }

  // The tokens of the output, plus the tools', are what is reported, plus those of leaked duplicates.
  lemma TokensAreAccountedFor(cost: Cost, toolTokens: nat, messages: seq<Message>, system: string,
      extras: seq<Candidate>, budget: int, order: seq<nat>, cs: seq<Candidate>, a: Assembly)
    requires Assembled(cost, toolTokens, messages, system, extras, budget, order, cs, a)
    ensures CostOf(cost, a.messages) + toolTokens == a.estimated + SumChosen(cost, cs, Leaked(cs, a.chosen), |cs|)
    ensures a.estimated <= budget
  {
    AssembledPays(cost, toolTokens, messages, system, extras, budget, order, cs, a);
    var groups := GroupAll(messages[2..]).value;
    hide Greedy, Candidates, Output, ChosenIds, Leaked;
    OutputCost(cost, system, messages[1], groups, extras, ChosenIds(cs, a.chosen));
    SumOfChosenIds(cost, cs, a.chosen);
  }

  lemma {:induction false} SumIsZero(cost: Cost, cs: seq<Candidate>, chosen: set<nat>, n: nat)
    requires n <= |cs|
    ensures SumChosen(cost, cs, chosen, n) == 0 <==> forall i :: 0 <= i < n && i in chosen ==> Costs(cost, cs, i) == 0
  {
    if n > 0 {
      SumIsZero(cost, cs, chosen, n - 1);
    }
  }

  // So the report is exact if and only if no candidate that costs anything shares the id of a chosen one.
  lemma ConservedExactly(cost: Cost, toolTokens: nat, messages: seq<Message>, system: string, extras: seq<Candidate>,
      budget: int, order: seq<nat>, cs: seq<Candidate>, a: Assembly)
    requires Assembled(cost, toolTokens, messages, system, extras, budget, order, cs, a)
    ensures CostOf(cost, a.messages) + toolTokens == a.estimated
            <==> forall i :: 0 <= i < |cs| && i in Leaked(cs, a.chosen) ==> Costs(cost, cs, i) == 0
  {
    hide Assembled, Leaked, Costs;
    TokensAreAccountedFor(cost, toolTokens, messages, system, extras, budget, order, cs, a);
    SumIsZero(cost, cs, Leaked(cs, a.chosen), |cs|);
  }

  // What the first n candidates of a ranking cost together.
  function FirstCosts(cost: Cost, cs: seq<Candidate>, order: seq<nat>, n: nat): nat
    requires Within(order, |cs|) && n <= |order|
  {
    if n == 0 then 0 else Costs(cost, cs, order[0]) + FirstCosts(cost, cs, order[1..], n - 1)
  }

  // A budget that the first n candidates use up: they are chosen, and of the rest whatever is free.
  lemma {:induction false} TightBudget(cost: Cost, cs: seq<Candidate>, order: seq<nat>, n: nat)
    requires Within(order, |cs|) && (forall p, q :: 0 <= p < q < |order| ==> order[p] != order[q])
    requires n <= |order| && forall k :: n <= k < |order| ==> !cs[order[k]].required
    ensures var r := Greedy(cost, cs, order, FirstCosts(cost, cs, order, n));
            && r.Success?
            && forall k :: 0 <= k < |order| ==> (order[k] in r.value.chosen
                <==> k < n || Costs(cost, cs, order[k]) == 0)
    decreases |order|
  {
    if order != [] {
      var i, rest := order[0], order[1..];
      var m := if n == 0 then 0 else n - 1;
      TightBudget(cost, cs, rest, m);
      GreedyPays(cost, cs, rest, FirstCosts(cost, cs, rest, m));
      var all := Greedy(cost, cs, order, FirstCosts(cost, cs, order, n)).value.chosen;
      var tail := Greedy(cost, cs, rest, FirstCosts(cost, cs, rest, m)).value.chosen;
      assert i !in rest;
      assert all == if n > 0 || Costs(cost, cs, i) == 0 then tail + {i} else tail;
      hide Greedy, FirstCosts, Costs;
      forall k | 0 <= k < |order| ensures order[k] in all <==> k < n || Costs(cost, cs, order[k]) == 0 {
        if k > 0 {
          assert rest[k - 1] == order[k];
        }
      }
    }
  }

  // Candidate j may be dropped and sent all the same, because i has its id.
  predicate MayLeak(cost: Cost, cs: seq<Candidate>, i: nat, j: nat)
    requires i < |cs| && j < |cs|
  {
    i != j && cs[i].id == cs[j].id && !cs[j].required && Costs(cost, cs, j) > 0
  }

  predicate NothingMayLeak(cost: Cost, cs: seq<Candidate>) {
    forall i, j :: 0 <= i < |cs| && 0 <= j < |cs| ==> !MayLeak(cost, cs, i, j)
  }

  ghost predicate AlwaysExact(cost: Cost, toolTokens: nat, messages: seq<Message>, system: string,
      extras: seq<Candidate>, order: seq<nat>, cs: seq<Candidate>) {
    forall budget: int, a: Assembly ::
      Assembled(cost, toolTokens, messages, system, extras, budget, order, cs, a) ==>
        CostOf(cost, a.messages) + toolTokens == a.estimated
  }

  lemma NothingLeaks(cost: Cost, toolTokens: nat, messages: seq<Message>, system: string, extras: seq<Candidate>,
      budget: int, order: seq<nat>, cs: seq<Candidate>, a: Assembly)
    requires NothingMayLeak(cost, cs) && Assembled(cost, toolTokens, messages, system, extras, budget, order, cs, a)
    ensures CostOf(cost, a.messages) + toolTokens == a.estimated
  {
    AssembledPays(cost, toolTokens, messages, system, extras, budget, order, cs, a);
    ConservedExactly(cost, toolTokens, messages, system, extras, budget, order, cs, a);
    hide Assembled, Costs;
    forall j | 0 <= j < |cs| && j in Leaked(cs, a.chosen) ensures Costs(cost, cs, j) == 0 {
      var i :| i in a.chosen && i < |cs| && cs[i].id == cs[j].id;
      assert !MayLeak(cost, cs, i, j);
    }
  }

  // A budget for which the candidate at place q leaks, because the one at place p is chosen: p comes first or is free.
  lemma LeakAt(cost: Cost, toolTokens: nat, messages: seq<Message>, system: string, extras: seq<Candidate>,
      order: seq<nat>, cs: seq<Candidate>, p: nat, q: nat)
    requires |messages| >= 2 && GroupAll(messages[2..]).Success? && IsRanking(cs, order)
    requires cs == Candidates(system, messages[1], GroupAll(messages[2..]).value, extras)
    requires p < |order| && q < |order| && MayLeak(cost, cs, order[p], order[q])
          && (p < q || Costs(cost, cs, order[p]) == 0)
    ensures !AlwaysExact(cost, toolTokens, messages, system, extras, order, cs)
  {
    hide GroupAll, Candidates, Output, Costs;
    forall k | q <= k < |order| ensures !cs[order[k]].required {
      if k > q {
        assert Before(cs, order[q], order[k]);
      }
    }
    TightBudget(cost, cs, order, q);
    var budget := FirstCosts(cost, cs, order, q) + toolTokens;
    var a := Assemble(cost, toolTokens, messages, system, extras, budget, order).value;
    assert Assembled(cost, toolTokens, messages, system, extras, budget, order, cs, a);
    assert a.chosen == Greedy(cost, cs, order, budget - toolTokens).value.chosen;
    hide Greedy, Assembled;
    ConservedExactly(cost, toolTokens, messages, system, extras, budget, order, cs, a);
    assert order[p] in a.chosen && order[q] !in a.chosen;
    assert cs[order[q]].id in ChosenIds(cs, a.chosen);
    assert order[q] in Leaked(cs, a.chosen);
  }

  // Which inputs can leak shows before any budget is given: the report is exact for every budget that suffices if and
  // only if no candidate that costs anything and is not required shares its id with another one.
  lemma ExactForEveryBudget(cost: Cost, toolTokens: nat, messages: seq<Message>, system: string,
      extras: seq<Candidate>, order: seq<nat>, cs: seq<Candidate>)
    requires |messages| >= 2 && GroupAll(messages[2..]).Success? && IsRanking(cs, order)
    requires cs == Candidates(system, messages[1], GroupAll(messages[2..]).value, extras)
    ensures AlwaysExact(cost, toolTokens, messages, system, extras, order, cs) <==> NothingMayLeak(cost, cs)
  {
    if NothingMayLeak(cost, cs) {
      hide NothingMayLeak, Assembled;
      forall budget: int, a: Assembly | Assembled(cost, toolTokens, messages, system, extras, budget, order, cs, a)
        ensures CostOf(cost, a.messages) + toolTokens == a.estimated
      {
        NothingLeaks(cost, toolTokens, messages, system, extras, budget, order, cs, a);
      }
    } else {
      var i, j :| 0 <= i < |cs| && 0 <= j < |cs| && MayLeak(cost, cs, i, j);
      hide AlwaysExact, GroupAll, Candidates, Costs;
      assert i in order && j in order;
      var p :| 0 <= p < |order| && order[p] == i;
      var q :| 0 <= q < |order| && order[q] == j;
      if p < q || Costs(cost, cs, i) == 0 {
        LeakAt(cost, toolTokens, messages, system, extras, order, cs, p, q);
      } else {
        assert Before(cs, order[q], order[p]);
        assert MayLeak(cost, cs, j, i);
        LeakAt(cost, toolTokens, messages, system, extras, order, cs, q, p);
      }
    }
  }

  lemma DistinctLeakNothing(cs: seq<Candidate>, chosen: set<nat>)
    requires DistinctCandidates(cs)
    ensures Leaked(cs, chosen) == {}
  {
  }

  // With distinct candidate ids the report is exact, so counting the result again can never exceed the budget.
  lemma TokensAreConserved(cost: Cost, toolTokens: nat, messages: seq<Message>, system: string,
      extras: seq<Candidate>, budget: int, order: seq<nat>, cs: seq<Candidate>, a: Assembly)
    requires Assembled(cost, toolTokens, messages, system, extras, budget, order, cs, a) && DistinctCandidates(cs)
    ensures CostOf(cost, a.messages) + toolTokens == a.estimated <= budget
  {
    hide Assembled, DistinctCandidates, Leaked;
    TokensAreAccountedFor(cost, toolTokens, messages, system, extras, budget, order, cs, a);
    DistinctLeakNothing(cs, a.chosen);
    SumOfNone(cost, cs, |cs|);
  }

  lemma GreedyOfThree(cost: Cost, cs: seq<Candidate>, budget: nat)
    requires |cs| == 3 && !cs[1].required && !cs[2].required
    requires budget == Costs(cost, cs, 0) + Costs(cost, cs, 1) && Costs(cost, cs, 2) > 0
    ensures Greedy(cost, cs, [0, 1, 2], budget) == Success(Selection({0, 1}, 0))
  {
    var a: seq<nat>, b: seq<nat>, c: seq<nat> := [0, 1, 2], [1, 2], [2];
    assert a[1..] == b && b[1..] == c && c[1..] == [];
    assert Greedy(cost, cs, [], 0) == Success(Selection({}, 0));
    assert Greedy(cost, cs, c, 0) == Success(Selection({}, 0));
    assert Greedy(cost, cs, b, Costs(cost, cs, 1)) == Success(Selection({} + {1}, 0));
    assert {} + {1} + {0} == {0, 1};
  }

  // Two extras of one id: the small one is chosen, the large one is sent as well, and the budget is exceeded.
  lemma SharedIdsLeak(cost: Cost, system: string, user: Message, small: Message, large: Message, budget: nat)
    requires !small.ToolResult? && !large.ToolResult? && !user.ToolResult?
    requires budget == CostOf(cost, [System(system), user]) + cost(small) && cost(large) > 0
    ensures var extras := [Candidate("x", "directory", 4, [small], false),
          Candidate("x", "directory", 5, [large], false)];
            var r := Assemble(cost, 0, [System(""), user], system, extras, budget, [0, 1, 2]);
            && IsRanking(Candidates(system, user, [], extras), [0, 1, 2])
            && r.Success? && r.value.estimated == budget
            && CostOf(cost, r.value.messages) == budget + cost(large)
  {
    var extras := [Candidate("x", "directory", 4, [small], false), Candidate("x", "directory", 5, [large], false)];
    var messages := [System(""), user];
    assert messages[2..] == [] && GroupAll([]) == Success([]);
    var cs := Candidates(system, user, [], extras);
    assert cs == [Base(system, user), extras[0], extras[1]];
    var order: seq<nat> := [0, 1, 2];
    assert forall i :: 0 <= i < 3 ==> order[i] == i;
    OneCost(cost, small);
    OneCost(cost, large);
    assert Costs(cost, cs, 0) == CostOf(cost, [System(system), user]);
    assert Costs(cost, cs, 1) == cost(small) && Costs(cost, cs, 2) == cost(large);
    GreedyOfThree(cost, cs, budget);
    ChosenOfThree(cost, cs);
    hide Greedy, GroupAll, Output, Candidates, ChosenIds, Leaked;
    var a := Assemble(cost, 0, messages, system, extras, budget, order).value;
    TokensAreAccountedFor(cost, 0, messages, system, extras, budget, order, cs, a);
  }

  lemma ChosenOfThree(cost: Cost, cs: seq<Candidate>)
    requires |cs| == 3 && cs[1].id == cs[2].id
    ensures Leaked(cs, {0, 1}) == {2} && SumChosen(cost, cs, {2}, 3) == Costs(cost, cs, 2)
  {
    assert cs[1].id in ChosenIds(cs, {0, 1});
    assert SumChosen(cost, cs, {2}, 0) == 0 && SumChosen(cost, cs, {2}, 1) == 0 && SumChosen(cost, cs, {2}, 2) == 0;
  }

  lemma OneCost(cost: Cost, m: Message)
    ensures CostOf(cost, [m]) == cost(m)
  {
    assert [m][1..] == [];
  }

  // ---------- When there is a context ----------

  function RequiredOf(cs: seq<Candidate>): (r: set<nat>)
    ensures forall i :: i in r <==> 0 <= i < |cs| && cs[i].required
  {
    set i | 0 <= i < |cs| && cs[i].required
  }

  lemma SumGrows(cost: Cost, cs: seq<Candidate>, part: set<nat>, whole: set<nat>)
    requires part <= whole
    ensures SumChosen(cost, cs, part, |cs|) <= SumChosen(cost, cs, whole, |cs|)
  {
    SumSplits(cost, cs, part, whole, |cs|);
  }

  ghost predicate RequiredComeFirst(cs: seq<Candidate>, order: seq<nat>)
    requires Within(order, |cs|)
  {
    forall p, q :: 0 <= p < q < |order| && cs[order[q]].required ==> cs[order[p]].required
  }

  // A selection that fails has taken required candidates only, and they are already too much with the next one.
  lemma {:induction false} FailsOverBudget(cost: Cost, cs: seq<Candidate>, order: seq<nat>, remaining: int,
      taken: set<nat>, budget: int)
    requires Within(order, |cs|) && (forall p, q :: 0 <= p < q < |order| ==> order[p] != order[q])
    requires RequiredComeFirst(cs, order) && Greedy(cost, cs, order, remaining).Failure?
    requires taken <= RequiredOf(cs) && (forall p :: 0 <= p < |order| ==> order[p] !in taken)
    requires SumChosen(cost, cs, taken, |cs|) == budget - remaining
    ensures SumChosen(cost, cs, RequiredOf(cs), |cs|) > budget
    decreases |order|
  {
    var i, rest := order[0], order[1..];
    if cs[i].required {
      SumAdds(cost, cs, taken, i, |cs|);
      if Costs(cost, cs, i) <= remaining {
        FailsOverBudget(cost, cs, rest, remaining - Costs(cost, cs, i), taken + {i}, budget);
      } else {
        SumGrows(cost, cs, taken + {i}, RequiredOf(cs));
      }
    } else {
      OptionalNeverFails(cost, cs, order, remaining);
    }
  }

  lemma {:induction false} OptionalNeverFails(cost: Cost, cs: seq<Candidate>, order: seq<nat>, remaining: int)
    requires Within(order, |cs|) && forall p :: 0 <= p < |order| ==> !cs[order[p]].required
    ensures Greedy(cost, cs, order, remaining).Success?
    decreases |order|
  {
    if order != [] {
      OptionalNeverFails(cost, cs, order[1..], remaining - Costs(cost, cs, order[0]));
      OptionalNeverFails(cost, cs, order[1..], remaining);
    }
  }

  lemma GreedyIffRequiredFit(cost: Cost, cs: seq<Candidate>, order: seq<nat>, left: int)
    requires IsRanking(cs, order) && exists i :: 0 <= i < |cs| && cs[i].required
    ensures Greedy(cost, cs, order, left).Success? <==> SumChosen(cost, cs, RequiredOf(cs), |cs|) <= left
  {
    RankedRequiredFirst(cs, order);
    SumOfNone(cost, cs, |cs|);
    hide IsRanking, RequiredComeFirst;
    if Greedy(cost, cs, order, left).Success? {
      GreedyPays(cost, cs, order, left);
      SumGrows(cost, cs, RequiredOf(cs), Greedy(cost, cs, order, left).value.chosen);
    } else {
      FailsOverBudget(cost, cs, order, left, {}, left);
    }
  }

  // There is a context exactly if what is required fits the budget, next to the tool definitions.
  lemma AssembledIffRequiredFit(cost: Cost, toolTokens: nat, messages: seq<Message>, system: string,
      extras: seq<Candidate>, budget: int, order: seq<nat>, cs: seq<Candidate>)
    requires |messages| >= 2 && GroupAll(messages[2..]).Success? && IsRanking(cs, order)
    requires cs == Candidates(system, messages[1], GroupAll(messages[2..]).value, extras)
    ensures Assemble(cost, toolTokens, messages, system, extras, budget, order).Success?
        <==> SumChosen(cost, cs, RequiredOf(cs), |cs|) + toolTokens <= budget
  {
    RequiredFirst(cs, order, system, messages[1], GroupAll(messages[2..]).value, extras);
    GreedyIffRequiredFit(cost, cs, order, budget - toolTokens);
    hide Candidates, Output, ChosenIds, GroupAll, IsRanking, SumChosen, RequiredOf, Greedy;
  }

  lemma RankedRequiredFirst(cs: seq<Candidate>, order: seq<nat>)
    requires IsRanking(cs, order)
    ensures RequiredComeFirst(cs, order)
  {
    forall p, q | 0 <= p < q < |order| && cs[order[q]].required ensures cs[order[p]].required {
      assert Before(cs, order[p], order[q]);
    }
  }

  // What the chosen ones among the first p of a ranking cost.
  function Spent(cost: Cost, cs: seq<Candidate>, order: seq<nat>, chosen: set<nat>, p: nat): nat
    requires Within(order, |cs|) && p <= |order|
  {
    if p == 0 then 0
    else (if order[0] in chosen then Costs(cost, cs, order[0]) else 0) + Spent(cost, cs, order[1..], chosen, p - 1)
  }

  lemma {:induction false} SpentOnly(cost: Cost, cs: seq<Candidate>, order: seq<nat>, a: set<nat>, b: set<nat>, p: nat)
    requires Within(order, |cs|) && p <= |order| && forall k :: 0 <= k < |order| ==> (order[k] in a <==> order[k] in b)
    ensures Spent(cost, cs, order, a, p) == Spent(cost, cs, order, b, p)
    decreases p
  {
    if p > 0 {
      SpentOnly(cost, cs, order[1..], a, b, p - 1);
    }
  }

  // A candidate is chosen exactly if it fits what those ranked before it have left.
  lemma {:induction false} GreedyIsExact(cost: Cost, cs: seq<Candidate>, order: seq<nat>, budget: int, p: nat)
    requires Within(order, |cs|) && (forall a, b :: 0 <= a < b < |order| ==> order[a] != order[b])
    requires Greedy(cost, cs, order, budget).Success? && p < |order|
    ensures var chosen := Greedy(cost, cs, order, budget).value.chosen;
            order[p] in chosen <==> Costs(cost, cs, order[p]) <= budget - Spent(cost, cs, order, chosen, p)
    decreases |order|
  {
    var i, rest := order[0], order[1..];
    var left := if Costs(cost, cs, i) <= budget then budget - Costs(cost, cs, i) else budget;
    GreedyPays(cost, cs, rest, left);
    var chosen, later := Greedy(cost, cs, order, budget).value.chosen, Greedy(cost, cs, rest, left).value.chosen;
    assert i !in rest && i !in later;
    assert forall k :: 0 <= k < |rest| ==> (rest[k] in chosen <==> rest[k] in later);
    if p > 0 {
      hide Costs;
      GreedyIsExact(cost, cs, rest, left, p - 1);
      SpentOnly(cost, cs, rest, chosen, later, p - 1);
    }
  }

  // ---------- Why something was dropped ----------

  lemma RankedInOrder(cs: seq<Candidate>, order: seq<nat>, p: nat, q: nat)
    requires Within(order, |cs|) && Sorted(cs, order) && p < |order| && q < |order| && Before(cs, order[p], order[q])
    ensures p < q
  {
    BeforeIsTotal(cs, order[p], order[q]);
    BeforeIsTotal(cs, order[p], order[p]);
  }

  // Whatever was dropped although something ranked after it was kept is strictly larger.
  lemma DroppedIsLarger(cost: Cost, toolTokens: nat, messages: seq<Message>, system: string, extras: seq<Candidate>,
      budget: int, order: seq<nat>, cs: seq<Candidate>, a: Assembly, i: nat, j: nat)
    requires Assembled(cost, toolTokens, messages, system, extras, budget, order, cs, a)
    requires i < |cs| && j < |cs| && i !in a.chosen && j in a.chosen && Before(cs, i, j)
    ensures Costs(cost, cs, i) > Costs(cost, cs, j)
  {
    hide Candidates, Output, ChosenIds, GroupAll;
    assert i in order && j in order;
    var p :| 0 <= p < |order| && order[p] == i;
    var q :| 0 <= q < |order| && order[q] == j;
    RankedInOrder(cs, order, p, q);
    GreedyDominance(cost, cs, order, budget - toolTokens, p, q);
  }

  lemma {:induction false} LatestIsLast(groups: seq<Group>, i: nat)
    requires i < |groups| && IsToolGroup(groups[i])
    ensures LatestToolGroup(groups).Some? && i <= LatestToolGroup(groups).value < |groups|
    ensures IsToolGroup(groups[LatestToolGroup(groups).value])
  {
    if !IsToolGroup(groups[|groups| - 1]) {
      LatestIsLast(groups[..|groups| - 1], i);
    }
  }

  // In particular a kept older group is smaller than a dropped tool batch that is newer.
  lemma OlderKeptGroupIsSmaller(cost: Cost, toolTokens: nat, messages: seq<Message>, system: string,
      extras: seq<Candidate>, budget: int, order: seq<nat>, cs: seq<Candidate>, a: Assembly, older: nat, newer: nat)
    requires Assembled(cost, toolTokens, messages, system, extras, budget, order, cs, a)
    requires older < newer < |GroupAll(messages[2..]).value| && IsToolGroup(GroupAll(messages[2..]).value[newer])
    requires older + 1 in a.chosen && newer + 1 !in a.chosen
    ensures CostOf(cost, GroupAll(messages[2..]).value[older]) < CostOf(cost, GroupAll(messages[2..]).value[newer])
  {
    var groups := GroupAll(messages[2..]).value;
    AssembledPays(cost, toolTokens, messages, system, extras, budget, order, cs, a);
    LatestIsLast(groups, newer);
    assert cs[older + 1] == Action(groups, older) && cs[newer + 1] == Action(groups, newer);
    assert Before(cs, newer + 1, older + 1) by {
      hide Assembled;
    }
    hide GroupAll, Greedy, ChosenIds, Output, Assembled, Candidates, Before, LatestToolGroup, IsToolGroup;
    DroppedIsLarger(cost, toolTokens, messages, system, extras, budget, order, cs, a, newer + 1, older + 1);
  }

  // ---------- The messages ----------

  // Assembly refuses exactly the histories that break the tool protocol, and asks for a smaller question only
  // otherwise.
  lemma RefusesBrokenHistories(cost: Cost, toolTokens: nat, messages: seq<Message>, system: string,
      extras: seq<Candidate>, budget: int, order: seq<nat>)
    requires |messages| >= 2
    requires GroupAll(messages[2..]).Success? ==> Within(order,
          |Candidates(system, messages[1], GroupAll(messages[2..]).value, extras)|)
    ensures var r := Assemble(cost, toolTokens, messages, system, extras, budget, order);
            r.Failure? && r.error.ProtocolFailure? <==> !WellFormed(messages[2..])
  {
    GroupingIsExact(messages[2..], []);
    if GroupAll(messages[2..]).Success? {
      GreedyFailsOnBudget(cost, Candidates(system, messages[1], GroupAll(messages[2..]).value, extras), order,
          budget - toolTokens);
    }
  }

  lemma {:induction false} GreedyFailsOnBudget(cost: Cost, cs: seq<Candidate>, order: seq<nat>, budget: int)
    requires Within(order, |cs|)
    ensures var r := Greedy(cost, cs, order, budget); r.Failure? ==> r.error.BudgetExceeded?
    decreases |order|
  {
    if order != [] {
      GreedyFailsOnBudget(cost, cs, order[1..], budget - Costs(cost, cs, order[0]));
      GreedyFailsOnBudget(cost, cs, order[1..], budget);
    }
  }

  lemma NothingIsWellFormed()
    ensures WellFormed([])
  {
    assert Decomposes([], []);
  }

  lemma {:induction false} KeptGroupsFollow(groups: seq<Group>, ids: set<string>, n: nat)
    requires n <= |groups| && forall g :: g in groups ==> IsBatch(g) || IsSingle(g)
    ensures WellFormed(KeptGroups(groups, ids, n))
  {
    if n == 0 {
      NothingIsWellFormed();
    } else {
      KeptGroupsFollow(groups, ids, n - 1);
      if ActionId(n - 1) in ids {
        OneGroup(groups[n - 1]);
        WellFormedConcat(KeptGroups(groups, ids, n - 1), groups[n - 1]);
      } else {
        assert KeptGroups(groups, ids, n - 1) + [] == KeptGroups(groups, ids, n - 1);
      }
    }
  }

  ghost predicate AllFollow(cs: seq<Candidate>) {
    forall c :: c in cs ==> WellFormed(c.messages)
  }

  lemma {:induction false} MessagesFollow(cs: seq<Candidate>)
    requires AllFollow(cs)
    ensures WellFormed(MessagesOf(cs))
  {
    if cs == [] {
      NothingIsWellFormed();
    } else {
      MessagesFollow(cs[1..]);
      WellFormedConcat(cs[0].messages, MessagesOf(cs[1..]));
    }
  }

  lemma {:induction false} KeptAreExtras(extras: seq<Candidate>, ids: set<string>, recent: bool)
    ensures forall c :: c in Kept(extras, ids, recent) ==> c in extras
  {
    if extras != [] {
      KeptAreExtras(extras[1..], ids, recent);
    }
  }

  lemma {:induction false} ReverseElements<T>(s: seq<T>)
    ensures forall x :: x in Reverse(s) ==> x in s
  {
    if s != [] {
      ReverseElements(s[1..]);
    }
  }

  lemma ExtrasFollow(extras: seq<Candidate>, ids: set<string>)
    requires AllFollow(extras)
    ensures WellFormed(ExtraMessages(extras, ids))
  {
    KeptAreExtras(extras, ids, true);
    KeptAreExtras(extras, ids, false);
    ReverseElements(Kept(extras, ids, true));
    hide WellFormed;
    MessagesFollow(Reverse(Kept(extras, ids, true)));
    MessagesFollow(Kept(extras, ids, false));
    WellFormedConcat(MessagesOf(Reverse(Kept(extras, ids, true))), MessagesOf(Kept(extras, ids, false)));
  }

  // What is sent to the model follows the tool protocol: tool batches are kept or dropped whole.
  lemma OutputFollowsProtocol(cost: Cost, toolTokens: nat, messages: seq<Message>, system: string,
      extras: seq<Candidate>, budget: int, order: seq<nat>, cs: seq<Candidate>, a: Assembly)
    requires Assembled(cost, toolTokens, messages, system, extras, budget, order, cs, a)
    requires AllFollow(extras) && messages[1].User?
    ensures WellFormed(a.messages)
  {
    var groups, ids := GroupAll(messages[2..]).value, ChosenIds(cs, a.chosen);
    GroupAllDecomposes(messages[2..]);
    hide GroupAll, Greedy, Candidates, ChosenIds, WellFormed, ExtraMessages, KeptGroups, IsBatch;
    KeptGroupsFollow(groups, ids, |groups|);
    ExtrasFollow(extras, ids);
    OneGroup([System(system)]);
    OneGroup([messages[1]]);
    WellFormedConcat([System(system)], ExtraMessages(extras, ids));
    WellFormedConcat([System(system)] + ExtraMessages(extras, ids), [messages[1]]);
    WellFormedConcat([System(system)] + ExtraMessages(extras, ids) + [messages[1]], KeptGroups(groups, ids, |groups|));
  }

  // The groups whose ids were chosen, by their positions.
  function KeptPositions(groups: seq<Group>, ids: set<string>, n: nat): (r: seq<nat>)
    requires n <= |groups|
    ensures Within(r, n) && Increasing(r) && forall k :: 0 <= k < n ==> (k in r <==> ActionId(k) in ids)
  {
    if n == 0 then [] else KeptPositions(groups, ids, n - 1) + if ActionId(n - 1) in ids then [n - 1] else []
  }

  predicate Increasing(positions: seq<nat>) {
    forall j, k :: 0 <= j < k < |positions| ==> positions[j] < positions[k]
  }

  function At(groups: seq<Group>, positions: seq<nat>): seq<Group>
    requires Within(positions, |groups|)
  {
    if positions == [] then [] else At(groups, positions[..|positions| - 1]) + [groups[positions[|positions| - 1]]]
  }

  lemma AtLast(groups: seq<Group>, front: seq<nat>, k: nat)
    requires Within(front, |groups|) && k < |groups|
    ensures Within(front + [k], |groups|)
    ensures Flatten(At(groups, front + [k])) == Flatten(At(groups, front)) + groups[k]
  {
    assert (front + [k])[..|front|] == front;
    FlattenConcat(At(groups, front), [groups[k]]);
    assert [groups[k]][1..] == [];
    assert Flatten([groups[k]]) == groups[k] + Flatten([groups[k]][1..]);
  }

  lemma {:induction false} KeptGroupsInOrder(groups: seq<Group>, ids: set<string>, n: nat)
    requires n <= |groups|
    ensures Within(KeptPositions(groups, ids, n), |groups|)
    ensures KeptGroups(groups, ids, n) == Flatten(At(groups, KeptPositions(groups, ids, n)))
  {
    hide Flatten, At, ActionId;
    if n == 0 {
      NoPositions(groups);
    } else {
      KeptGroupsInOrder(groups, ids, n - 1);
      var front := KeptPositions(groups, ids, n - 1);
      var last: seq<nat> := if ActionId(n - 1) in ids then [n - 1] else [];
      assert KeptPositions(groups, ids, n) == front + last;
      hide KeptPositions;
      if ActionId(n - 1) in ids {
        AtLast(groups, front, n - 1);
      } else {
        assert front + last == front;
      }
    }
  }

  // The last group, and the last tool batch.
  predicate MustStay(groups: seq<Group>, k: nat)
    requires k < |groups|
  {
    k == |groups| - 1 || (IsToolGroup(groups[k]) && forall j :: k < j < |groups| ==> !IsToolGroup(groups[j]))
  }

  // Increasing positions of exactly the groups with a chosen id, among them those that must stay.
  ghost predicate KeptAt(groups: seq<Group>, ids: set<string>, positions: seq<nat>) {
    && Within(positions, |groups|) && Increasing(positions)
    && (forall k :: 0 <= k < |groups| ==> (k in positions <==> ActionId(k) in ids))
    && (forall k :: 0 <= k < |groups| && MustStay(groups, k) ==> k in positions)
  }

  // ---------- The extras ----------

  // The places of the kept recent turns, or of the other kept extras, in order.
  ghost predicate ExtrasAt(extras: seq<Candidate>, ids: set<string>, recent: bool, ps: seq<nat>) {
    && Ascends(ps, |extras|)
    && forall k :: 0 <= k < |extras| ==>
         (k in ps <==> extras[k].id in ids && (extras[k].category == RECENT <==> recent))
  }

  // What the candidates at these places say, first to last and last to first.
  function Forward(extras: seq<Candidate>, ps: seq<nat>): seq<Message>
    requires Within(ps, |extras|)
  {
    if ps == [] then [] else extras[ps[0]].messages + Forward(extras, ps[1..])
  }

  function Backward(extras: seq<Candidate>, ps: seq<nat>): seq<Message>
    requires Within(ps, |extras|)
  {
    if ps == [] then [] else Backward(extras, ps[1..]) + extras[ps[0]].messages
  }

  lemma {:induction false} KeptIsExact(extras: seq<Candidate>, ids: set<string>, recent: bool) returns (ps: seq<nat>)
    ensures Picked(extras, Kept(extras, ids, recent), ps) && ExtrasAt(extras, ids, recent, ps)
  {
    if extras == [] {
      ps := [];
    } else {
      var rest, kept := extras[1..], Kept(extras[1..], ids, recent);
      var take := extras[0].id in ids && (extras[0].category == RECENT) == recent;
      var qs := KeptIsExact(rest, ids, recent);
      assert Kept(extras, ids, recent) == (if take then [extras[0]] else []) + kept;
      hide Kept;
      ps := PickMore(extras[0], rest, kept, qs, take);
      assert [extras[0]] + rest == extras;
      hide Picked;
      forall k | 0 <= k < |extras| ensures k in ps <==> extras[k].id in ids && (extras[k].category == RECENT <==> recent) {
        assert k > 0 ==> extras[k] == rest[k - 1] && (k - 1) + 1 == k;
      }
    }
  }

  lemma {:induction false} ForwardIsExact(extras: seq<Candidate>, kept: seq<Candidate>, ps: seq<nat>)
    requires Picked(extras, kept, ps)
    ensures MessagesOf(kept) == Forward(extras, ps)
  {
    if ps != [] {
      ForwardIsExact(extras, kept[1..], ps[1..]);
    }
  }

  lemma {:induction false} MessagesOfConcat(a: seq<Candidate>, b: seq<Candidate>)
    ensures MessagesOf(a + b) == MessagesOf(a) + MessagesOf(b)
  {
    if a == [] {
      assert a + b == b;
    } else {
      assert (a + b)[1..] == a[1..] + b;
      MessagesOfConcat(a[1..], b);
    }
  }

  lemma {:induction false} BackwardIsExact(extras: seq<Candidate>, kept: seq<Candidate>, ps: seq<nat>)
    requires Picked(extras, kept, ps)
    ensures MessagesOf(Reverse(kept)) == Backward(extras, ps)
  {
    if ps != [] {
      BackwardIsExact(extras, kept[1..], ps[1..]);
      MessagesOfConcat(Reverse(kept[1..]), [kept[0]]);
      assert [kept[0]][1..] == [];
      assert MessagesOf([kept[0]]) == kept[0].messages + MessagesOf([kept[0]][1..]);
    }
  }

  // Between the system message and the question: the kept recent turns, last listed first, and then the other kept
  // extras in their order, each whole.
  ghost predicate ExtrasInOrder(extras: seq<Candidate>, ids: set<string>, middle: seq<Message>) {
    exists turns, rest ::
      && ExtrasAt(extras, ids, true, turns) && ExtrasAt(extras, ids, false, rest)
      && middle == Backward(extras, turns) + Forward(extras, rest)
  }

  lemma ExtrasAreInOrder(extras: seq<Candidate>, ids: set<string>)
    ensures ExtrasInOrder(extras, ids, ExtraMessages(extras, ids))
  {
    var turns := KeptIsExact(extras, ids, true);
    var rest := KeptIsExact(extras, ids, false);
    BackwardIsExact(extras, Kept(extras, ids, true), turns);
    ForwardIsExact(extras, Kept(extras, ids, false), rest);
  }

  // The system message, the kept extras, the question, and then the kept groups of the history, each whole and all in
  // their order.
  ghost predicate KeepsOrder(messages: seq<Message>, system: string, extras: seq<Candidate>, a: Assembly) {
    && |messages| >= 2 && GroupAll(messages[2..]).Success?
    && var groups := GroupAll(messages[2..]).value;
       var ids := ChosenIds(Candidates(system, messages[1], groups, extras), a.chosen);
       exists middle, positions :: ExtrasInOrder(extras, ids, middle) && KeptAt(groups, ids, positions)
           && a.messages == [System(system)] + middle + [messages[1]] + Flatten(At(groups, positions))
  }

  lemma KeptPositionsStay(system: string, user: Message, groups: seq<Group>, extras: seq<Candidate>, chosen: set<nat>)
    requires var cs := Candidates(system, user, groups, extras);
             forall i :: 0 <= i < |cs| && cs[i].required ==> i in chosen
    ensures var ids := ChosenIds(Candidates(system, user, groups, extras), chosen);
            KeptAt(groups, ids, KeptPositions(groups, ids, |groups|))
  {
    var ids := ChosenIds(Candidates(system, user, groups, extras), chosen);
    hide Candidates, ChosenIds, MustStay, ActionId, KeptPositions;
    forall k | 0 <= k < |groups| && MustStay(groups, k) ensures k in KeptPositions(groups, ids, |groups|) {
      StaysChosen(system, user, groups, extras, chosen, k);
    }
  }

  lemma OutputKeepsOrder(cost: Cost, toolTokens: nat, messages: seq<Message>, system: string, extras: seq<Candidate>,
      budget: int, order: seq<nat>, cs: seq<Candidate>, a: Assembly)
    requires Assembled(cost, toolTokens, messages, system, extras, budget, order, cs, a)
    ensures KeepsOrder(messages, system, extras, a)
  {
    var groups, ids := GroupAll(messages[2..]).value, ChosenIds(cs, a.chosen);
    hide GroupAll, Greedy, Candidates, ChosenIds, ExtraMessages, Flatten, At, KeptGroups, KeptAt, KeptPositions,
        IsRanking, ExtrasInOrder;
    AssembledPays(cost, toolTokens, messages, system, extras, budget, order, cs, a);
    KeptPositionsStay(system, messages[1], groups, extras, a.chosen);
    KeptGroupsInOrder(groups, ids, |groups|);
    ExtrasAreInOrder(extras, ids);
  }

  lemma StaysChosen(system: string, user: Message, groups: seq<Group>, extras: seq<Candidate>, chosen: set<nat>, k: nat)
    requires k < |groups| && MustStay(groups, k)
    requires var cs := Candidates(system, user, groups, extras);
             forall i :: 0 <= i < |cs| && cs[i].required ==> i in chosen
    ensures ActionId(k) in ChosenIds(Candidates(system, user, groups, extras), chosen)
  {
    var cs := Candidates(system, user, groups, extras);
    if IsToolGroup(groups[k]) {
      LatestIsLast(groups, k);
    }
    assert cs[k + 1] == Action(groups, k);
    assert cs[k + 1].required;
  }

  // What is sent is what was chosen: a candidate's id is selected only with the candidate itself.
  ghost predicate SendsChosen(cs: seq<Candidate>, chosen: set<nat>) {
    forall i :: 0 <= i < |cs| ==> (cs[i].id in ChosenIds(cs, chosen) <==> i in chosen)
  }

  lemma DistinctIdsSendChosen(cs: seq<Candidate>, chosen: set<nat>)
    requires DistinctCandidates(cs)
    ensures SendsChosen(cs, chosen)
  {
    forall i | 0 <= i < |cs| ensures cs[i].id in ChosenIds(cs, chosen) <==> i in chosen {
      if j :| j in chosen && j < |cs| && cs[j].id == cs[i].id {
        assert i == j;
      }
    }
  }

  lemma NoPositions(groups: seq<Group>)
    ensures Flatten(At(groups, [])) == []
  {
  }

  // ---------- The extras that a run builds ----------

  datatype PastTurn = PastTurn(id: string, question: string, answer: string)

  function PastTurns(history: seq<PastTurn>): (r: seq<Candidate>)
    ensures |r| == |history|
    ensures forall i :: 0 <= i < |r| ==> r[i] == PastCandidate(history[i])
  {
    if history == [] then [] else PastTurns(history[..|history| - 1]) + [PastCandidate(history[|history| - 1])]
  }

  function PastCandidate(h: PastTurn): Candidate {
    Candidate("turn-" + h.id, RECENT, 4, [User(h.question), Assistant(h.answer, [])], false)
  }

  function RunExtras(data: string, history: seq<PastTurn>, catalogs: string): seq<Candidate> {
    [Candidate("analysis-data", "state-data", 1, [User(data)], true)] + PastTurns(history) +
    [Candidate("catalogs", "directory", 5, [User(catalogs)], false)]
  }

  // The first two letters tell the kinds of candidates apart.
  function Kind(groups: nat, turns: nat, i: nat): (char, char) {
    if i == 0 then ('c', 'u')
    else if i <= groups then ('a', 'c')
    else if i == groups + 1 then ('a', 'n')
    else if i < groups + 2 + turns then ('t', 'u')
    else ('c', 'a')
  }

  lemma RunIdKind(system: string, user: Message, groups: seq<Group>, data: string, history: seq<PastTurn>,
      catalogs: string, i: nat)
    requires i < |Candidates(system, user, groups, RunExtras(data, history, catalogs))|
    ensures var id := Candidates(system, user, groups, RunExtras(data, history, catalogs))[i].id;
            |id| >= 2 && (id[0], id[1]) == Kind(|groups|, |history|, i)
  {
  }

  lemma ActionIdsDiffer(i: nat, j: nat)
    requires i != j
    ensures ActionId(i) != ActionId(j)
  {
    assert ActionId(i)[7..] == Decimal(i) && ActionId(j)[7..] == Decimal(j);
    if ActionId(i) == ActionId(j) {
      DecimalInjective(i, j);
    }
  }

  lemma TurnIdsDiffer(a: string, b: string)
    requires a != b
    ensures "turn-" + a != "turn-" + b
  {
    assert ("turn-" + a)[5..] == a && ("turn-" + b)[5..] == b;
  }

  // A run's candidates have distinct ids as long as its past turns have, so its tokens are always conserved; none of
  // its extras is a tool interaction, and all of them follow the tool protocol.
  lemma RunExtrasAreSound(system: string, user: Message, groups: seq<Group>, data: string, history: seq<PastTurn>,
      catalogs: string)
    requires forall i, j :: 0 <= i < j < |history| ==> history[i].id != history[j].id
    ensures DistinctCandidates(Candidates(system, user, groups, RunExtras(data, history, catalogs)))
    ensures forall c :: c in RunExtras(data, history, catalogs) ==> c.category != TOOLS
    ensures AllFollow(RunExtras(data, history, catalogs))
  {
    var extras := RunExtras(data, history, catalogs);
    var cs := Candidates(system, user, groups, extras);
    forall i, j | 0 <= i < j < |cs| ensures cs[i].id != cs[j].id {
      RunIdsDiffer(system, user, groups, data, history, catalogs, i, j);
    }
    forall c | c in extras ensures c.category != TOOLS && WellFormed(c.messages) {
      PlainMessagesFollow(c.messages);
    }
  }

  lemma RunCandidateAt(system: string, user: Message, groups: seq<Group>, data: string, history: seq<PastTurn>,
      catalogs: string, i: nat)
    requires i < |Candidates(system, user, groups, RunExtras(data, history, catalogs))|
    ensures var c := Candidates(system, user, groups, RunExtras(data, history, catalogs))[i];
            && (1 <= i <= |groups| ==> c.id == ActionId(i - 1))
            && (|groups| + 2 <= i < |groups| + 2 + |history| ==> c.id == "turn-" + history[i - |groups| - 2].id)
            && i < |groups| + 3 + |history|
  {
  }

  lemma RunIdsDiffer(system: string, user: Message, groups: seq<Group>, data: string, history: seq<PastTurn>,
      catalogs: string, i: nat, j: nat)
    requires forall i, j :: 0 <= i < j < |history| ==> history[i].id != history[j].id
    requires i < j < |Candidates(system, user, groups, RunExtras(data, history, catalogs))|
    ensures var cs := Candidates(system, user, groups, RunExtras(data, history, catalogs)); cs[i].id != cs[j].id
  {
    hide Candidates, RunExtras, ActionId;
    RunCandidateAt(system, user, groups, data, history, catalogs, i);
    RunCandidateAt(system, user, groups, data, history, catalogs, j);
    var n := |groups|;
    if 1 <= i && j <= n {
      ActionIdsDiffer(i - 1, j - 1);
    } else if n + 2 <= i && j < n + 2 + |history| {
      TurnIdsDiffer(history[i - n - 2].id, history[j - n - 2].id);
    } else {
      RunIdKind(system, user, groups, data, history, catalogs, i);
      RunIdKind(system, user, groups, data, history, catalogs, j);
      assert Kind(n, |history|, i) != Kind(n, |history|, j);
    }
  }

  lemma {:induction false} PlainMessagesFollow(messages: seq<Message>)
    requires forall m :: m in messages ==> !m.ToolResult? && !Calling(m)
    ensures WellFormed(messages)
  {
    if messages == [] {
      NothingIsWellFormed();
    } else {
      PlainMessagesFollow(messages[1..]);
      OneGroup([messages[0]]);
      WellFormedConcat([messages[0]], messages[1..]);
      assert messages == [messages[0]] + messages[1..];
    }
  }

  // ---------- A run's context ----------

  // Past turns from the last listed to the first, which is the order in which they took place.
  function TurnsSaid(history: seq<PastTurn>, ps: seq<nat>): seq<Message>
    requires Within(ps, |history|)
  {
    if ps == [] then []
    else TurnsSaid(history, ps[1..]) + [User(history[ps[0]].question), Assistant(history[ps[0]].answer, [])]
  }

  // A run tells the model the kept past turns in the order in which they took place, then the analysis data, then the
  // catalogs if they are kept.
  ghost predicate RunMiddle(data: string, history: seq<PastTurn>, catalogs: string, ids: set<string>,
      middle: seq<Message>) {
    exists ps ::
      && Ascends(ps, |history|) && (forall k :: 0 <= k < |history| ==> (k in ps <==> "turn-" + history[k].id in ids))
      && middle == TurnsSaid(history, ps) + [User(data)] + if "catalogs" in ids then [User(catalogs)] else []
  }

  lemma {:induction false} TurnsAreSaid(data: string, history: seq<PastTurn>, catalogs: string, ps: seq<nat>)
    returns (qs: seq<nat>)
    requires Ascends(ps, |history| + 2) && forall i :: 0 <= i < |ps| ==> 1 <= ps[i] <= |history|
    ensures Ascends(qs, |history|) && (forall k :: k in qs <==> k + 1 in ps)
    ensures Backward(RunExtras(data, history, catalogs), ps) == TurnsSaid(history, qs)
  {
    hide RunExtras;
    if ps == [] {
      qs := [];
    } else {
      var rest := TurnsAreSaid(data, history, catalogs, ps[1..]);
      qs := [ps[0] - 1] + rest;
      RunExtraAt(data, history, catalogs, ps[0]);
      assert ps == [ps[0]] + ps[1..];
      forall i | 0 <= i < |rest| ensures qs[0] < rest[i] {
        assert rest[i] in rest;
        assert rest[i] + 1 in ps[1..];
      }
    }
  }

  lemma RunExtraAt(data: string, history: seq<PastTurn>, catalogs: string, i: nat)
    requires i < |history| + 2
    ensures |RunExtras(data, history, catalogs)| == |history| + 2
    ensures RunExtras(data, history, catalogs)[i] ==
            if i == 0 then Candidate("analysis-data", "state-data", 1, [User(data)], true)
            else if i <= |history| then Candidate("turn-" + history[i - 1].id, RECENT, 4,
                [User(history[i - 1].question), Assistant(history[i - 1].answer, [])], false)
            else Candidate("catalogs", "directory", 5, [User(catalogs)], false)
  {
  }

  // The data and the catalogs are the only other extras.
  lemma OthersAreSaid(data: string, history: seq<PastTurn>, catalogs: string, ids: set<string>, ps: seq<nat>)
    requires ExtrasAt(RunExtras(data, history, catalogs), ids, false, ps) && "analysis-data" in ids
    ensures Forward(RunExtras(data, history, catalogs), ps)
         == [User(data)] + if "catalogs" in ids then [User(catalogs)] else []
  {
    var extras, n := RunExtras(data, history, catalogs), |history|;
    hide RunExtras;
    RunExtraAt(data, history, catalogs, 0);
    RunExtraAt(data, history, catalogs, n + 1);
    forall k | 0 < k <= n ensures extras[k].category == RECENT {
      RunExtraAt(data, history, catalogs, k);
    }
    assert 0 in ps && (n + 1 in ps <==> "catalogs" in ids);
    forall i | 0 <= i < |ps| ensures ps[i] == 0 || ps[i] == n + 1 {
      var k := ps[i];
      assert k in ps && extras[k].category != RECENT;
    }
    TwoPlaces(ps, n + 1);
    assert ps[1..] == if "catalogs" in ids then [n + 1] else [];
    if "catalogs" in ids {
      assert ps[1..][1..] == [];
      assert [User(catalogs)] + Forward(extras, []) == [User(catalogs)];
    }
  }

  lemma TwoPlaces(ps: seq<nat>, n: nat)
    requires Ascends(ps, n + 1) && n > 0 && 0 in ps && forall i :: 0 <= i < |ps| ==> ps[i] == 0 || ps[i] == n
    ensures ps == [0] + if n in ps then [n] else []
  {
    hide Ascends;
    var i :| 0 <= i < |ps| && ps[i] == 0;
    if i > 0 {
      AscendsAt(ps, n + 1, 0, i);
    }
    if |ps| > 2 {
      AscendsAt(ps, n + 1, 1, 2);
    }
    if |ps| > 1 {
      AscendsAt(ps, n + 1, 0, 1);
    }
  }

  lemma AscendsAt(ps: seq<nat>, n: nat, i: nat, j: nat)
    requires Ascends(ps, n) && i < j < |ps|
    ensures ps[i] < ps[j] < n
  {
  }

  lemma RunMiddleIsExact(data: string, history: seq<PastTurn>, catalogs: string, ids: set<string>, middle: seq<Message>)
    requires ExtrasInOrder(RunExtras(data, history, catalogs), ids, middle) && "analysis-data" in ids
    ensures RunMiddle(data, history, catalogs, ids, middle)
  {
    var extras, n := RunExtras(data, history, catalogs), |history|;
    hide RunExtras, Backward, Forward, TurnsSaid;
    var turns, rest :| ExtrasAt(extras, ids, true, turns) && ExtrasAt(extras, ids, false, rest)
        && middle == Backward(extras, turns) + Forward(extras, rest);
    RunExtraAt(data, history, catalogs, 0);
    forall k | 0 <= k < n + 2 ensures extras[k].category == RECENT <==> 1 <= k <= n {
      RunExtraAt(data, history, catalogs, k);
    }
    forall i | 0 <= i < |turns| ensures 1 <= turns[i] <= n {
      assert turns[i] in turns;
    }
    var ps := TurnsAreSaid(data, history, catalogs, turns);
    OthersAreSaid(data, history, catalogs, ids, rest);
    forall k | 0 <= k < n ensures k in ps <==> "turn-" + history[k].id in ids {
      RunExtraAt(data, history, catalogs, k + 1);
    }
  }

  // Where a candidate of a run is ranked: the question and the data, the groups that must stay, the other groups, the
  // past turns, the catalogs; groups from the newest, past turns as they are listed.
  function RunRank(groups: seq<Group>, turns: nat, i: nat): (nat, nat) {
    if i == 0 then (0, 0)
    else if i == |groups| + 1 then (0, 1)
    else if i <= |groups| then (if MustStay(groups, i - 1) then 1 else 2, |groups| - i)
    else if i <= |groups| + 1 + turns then (3, i)
    else (4, 0)
  }

  lemma RequiredGroups(groups: seq<Group>, k: nat)
    requires k < |groups|
    ensures Action(groups, k).required <==> MustStay(groups, k)
  {
    if IsToolGroup(groups[k]) {
      LatestIsLast(groups, k);
    }
    if LatestToolGroup(groups) == Some(k) {
      LatestIsTool(groups);
    }
  }

  lemma {:induction false} LatestIsTool(groups: seq<Group>)
    ensures LatestToolGroup(groups).Some? ==>
              var k := LatestToolGroup(groups).value;
              k < |groups| && IsToolGroup(groups[k]) && forall j :: k < j < |groups| ==> !IsToolGroup(groups[j])
  {
    if groups != [] && !IsToolGroup(groups[|groups| - 1]) {
      LatestIsTool(groups[..|groups| - 1]);
    }
  }

  lemma RunRankAt(system: string, user: Message, groups: seq<Group>, data: string, history: seq<PastTurn>,
      catalogs: string, i: nat)
    requires i < |groups| + |history| + 3
    ensures var cs := Candidates(system, user, groups, RunExtras(data, history, catalogs));
            var r := RunRank(groups, |history|, i);
            && i < |cs| == |groups| + |history| + 3
            && (cs[i].required <==> r.0 <= 1)
            && cs[i].priority == (match r.0 case 0 => 1 case 1 => 3 case 2 => 3 case 3 => 4 case _ => 5)
            && (cs[i].category == TOOLS <==> r.0 == 1 || r.0 == 2)
  {
    if 1 <= i <= |groups| {
      RequiredGroups(groups, i - 1);
    } else if i > |groups| {
      RunExtraAt(data, history, catalogs, i - |groups| - 1);
    }
    hide RunExtras, MustStay, LatestToolGroup;
  }

  lemma RunRanksExactly(system: string, user: Message, groups: seq<Group>, data: string, history: seq<PastTurn>,
      catalogs: string, i: nat, j: nat)
    requires i < |groups| + |history| + 3 && j < |groups| + |history| + 3
    ensures |Candidates(system, user, groups, RunExtras(data, history, catalogs))| == |groups| + |history| + 3
    ensures var (x, y) := (RunRank(groups, |history|, i), RunRank(groups, |history|, j));
            Before(Candidates(system, user, groups, RunExtras(data, history, catalogs)), i, j)
            <==> x.0 < y.0 || (x.0 == y.0 && x.1 < y.1)
  {
    RunRankAt(system, user, groups, data, history, catalogs, i);
    RunRankAt(system, user, groups, data, history, catalogs, j);
    hide Candidates, RunExtras, MustStay;
  }

  // What a run asks with: the system message, the kept turns in the order of time, the data of the analysis, the
  // catalogs if there is room, the question, and then the kept groups of the history in their order.
  ghost predicate RunKeepsOrder(messages: seq<Message>, system: string, data: string, history: seq<PastTurn>,
      catalogs: string, a: Assembly) {
    && |messages| >= 2 && GroupAll(messages[2..]).Success?
    && var groups := GroupAll(messages[2..]).value;
       var ids := ChosenIds(Candidates(system, messages[1], groups, RunExtras(data, history, catalogs)), a.chosen);
       exists middle, positions :: RunMiddle(data, history, catalogs, ids, middle) && KeptAt(groups, ids, positions)
           && a.messages == [System(system)] + middle + [messages[1]] + Flatten(At(groups, positions))
  }

  lemma RunOutputKeepsOrder(cost: Cost, toolTokens: nat, messages: seq<Message>, system: string, data: string,
      history: seq<PastTurn>, catalogs: string, budget: int, order: seq<nat>, cs: seq<Candidate>, a: Assembly)
    requires Assembled(cost, toolTokens, messages, system, RunExtras(data, history, catalogs), budget, order, cs, a)
    ensures RunKeepsOrder(messages, system, data, history, catalogs, a)
  {
    var extras := RunExtras(data, history, catalogs);
    OutputKeepsOrder(cost, toolTokens, messages, system, extras, budget, order, cs, a);
    AssembledPays(cost, toolTokens, messages, system, extras, budget, order, cs, a);
    hide RunExtras, GroupAll, Assembled, RunMiddle, KeptAt, ExtrasInOrder;
    var groups := GroupAll(messages[2..]).value;
    var ids := ChosenIds(cs, a.chosen);
    DataIsSent(system, messages[1], groups, data, history, catalogs, a.chosen);
    var middle, positions :| ExtrasInOrder(extras, ids, middle) && KeptAt(groups, ids, positions)
        && a.messages == [System(system)] + middle + [messages[1]] + Flatten(At(groups, positions));
    RunMiddleIsExact(data, history, catalogs, ids, middle);
  }

  lemma DataIsSent(system: string, user: Message, groups: seq<Group>, data: string, history: seq<PastTurn>,
      catalogs: string, chosen: set<nat>)
    requires var cs := Candidates(system, user, groups, RunExtras(data, history, catalogs));
             forall i :: 0 <= i < |cs| && cs[i].required ==> i in chosen
    ensures "analysis-data" in ChosenIds(Candidates(system, user, groups, RunExtras(data, history, catalogs)), chosen)
  {
    RunExtraAt(data, history, catalogs, 0);
    hide RunExtras;
    var cs := Candidates(system, user, groups, RunExtras(data, history, catalogs));
    var i := |Actions(groups, |groups|)| + 1;
    assert cs[i] == RunExtras(data, history, catalogs)[0];
    assert i in chosen;
  }
}
