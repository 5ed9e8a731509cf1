/**
 * Leased concurrency permits over three sorted sets (apps/worker/src/chat/generation-reliability.service.ts): each
 * script is one atomic step, and any number of workers with clocks of their own may run them.
 */
module Semaphores {
  import opened Common

  type Token = nat
  datatype Key = Global | Provider(name: string) | User(id: int)

  // A sorted set: members with the time their lease ends.
  type Leases = map<Token, int>
  type Sets = map<Key, Leases>

  datatype Limits = Limits(global: nat, provider: nat, user: nat) {
    function Of(key: Key): nat {
      match key
      case Global => global
      case Provider(_) => provider
      case User(_) => user
    }
  }

  function KeysOf(provider: string, user: int): seq<Key> {
    [Global, Provider(provider), User(user)]
  }

  function At(sets: Sets, key: Key): Leases {
    if key in sets then sets[key] else map[]
  }

  // Leases that have run out are removed.
  function Purge(sets: Sets, key: Key, now: int): Sets {
    sets[key := map t | t in At(sets, key) && At(sets, key)[t] > now :: At(sets, key)[t]]
  }

  function TryAll(sets: Sets, limits: Limits, keys: seq<Key>, now: int): (Sets, bool)
    decreases |keys|
  {
    if keys == [] then (sets, true)
    else
      var s := Purge(sets, keys[0], now);
      if |At(s, keys[0])| >= limits.Of(keys[0]) then (s, false) else TryAll(s, limits, keys[1..], now)
  }

  function AddAll(sets: Sets, keys: seq<Key>, token: Token, expires: int): Sets
    decreases |keys|
  {
    if keys == [] then sets
    else AddAll(sets[keys[0] := At(sets, keys[0])[token := expires]], keys[1..], token, expires)
  }

  function Acquire(sets: Sets, limits: Limits, keys: seq<Key>, token: Token, now: int, expires: int): (Sets, bool) {
    var (s, ok) := TryAll(sets, limits, keys, now);
    if ok then (AddAll(s, keys, token, expires), true) else (s, false)
  }

  function RenewAll(sets: Sets, keys: seq<Key>, token: Token, expires: int): (Sets, nat)
    decreases |keys|
  {
    if keys == [] then (sets, 0)
    else
      var held := token in At(sets, keys[0]);
      var s := if held then sets[keys[0] := At(sets, keys[0])[token := expires]] else sets;
      var (n, count) := RenewAll(s, keys[1..], token, expires);
      (n, count + if held then 1 else 0)
  }

  function ReleaseAll(sets: Sets, keys: seq<Key>, token: Token): Sets
    decreases |keys|
  {
    if keys == [] then sets else ReleaseAll(sets[keys[0] := At(sets, keys[0]) - {token}], keys[1..], token)
  }

  // ---------- One step ----------

  datatype Step =
    | AcquireStep(provider: string, user: int, token: Token, now: int, expires: int)
    | RenewStep(provider: string, user: int, token: Token, expires: int)
    | ReleaseStep(provider: string, user: int, token: Token)

  function Apply(sets: Sets, limits: Limits, s: Step): Sets {
    match s
    case AcquireStep(p, u, t, now, expires) => Acquire(sets, limits, KeysOf(p, u), t, now, expires).0
    case RenewStep(p, u, t, expires) => RenewAll(sets, KeysOf(p, u), t, expires).0
    case ReleaseStep(p, u, t) => ReleaseAll(sets, KeysOf(p, u), t)
  }

  function Run(sets: Sets, limits: Limits, steps: seq<Step>): Sets {
    if steps == [] then sets else Apply(Run(sets, limits, steps[..|steps| - 1]), limits, steps[|steps| - 1])
  }

  ghost predicate Within(sets: Sets, limits: Limits) {
    forall key :: |At(sets, key)| <= limits.Of(key)
  }

  // Every set of b holds at most what a's holds, besides `more`.
  ghost predicate NoNewcomers(a: Sets, b: Sets, more: set<Token>) {
    forall key :: At(b, key).Keys <= At(a, key).Keys + more
  }

  lemma SmallerSet(a: Leases, b: Leases)
    requires a.Keys <= b.Keys
    ensures |a| <= |b|
  {
    assert |a.Keys| == |a| && |b.Keys| == |b|;
    SubsetSize(a.Keys, b.Keys);
  }

  lemma ShrinkKeepsWithin(a: Sets, b: Sets, limits: Limits)
    requires Within(a, limits) && NoNewcomers(a, b, {})
    ensures Within(b, limits)
  {
    forall key ensures |At(b, key)| <= limits.Of(key) {
      assert At(b, key).Keys <= At(a, key).Keys + {};
      SmallerSet(At(b, key), At(a, key));
    }
  }

  lemma PurgeOnlyRemoves(sets: Sets, key: Key, now: int)
    ensures NoNewcomers(sets, Purge(sets, key, now), {})
  {
  }

  // A refused attempt leaves nothing new behind; a granted one finds room under every key.
  lemma {:induction false} TryFindsRoom(sets: Sets, limits: Limits, keys: seq<Key>, now: int)
    ensures NoNewcomers(sets, TryAll(sets, limits, keys, now).0, {})
    ensures TryAll(sets, limits, keys, now).1 ==>
              forall key :: key in keys ==> |At(TryAll(sets, limits, keys, now).0, key)| < limits.Of(key)
    decreases |keys|
  {
    if keys != [] {
      var purged := Purge(sets, keys[0], now);
      PurgeOnlyRemoves(sets, keys[0], now);
      hide Purge;
      TryFindsRoom(purged, limits, keys[1..], now);
      var (s, ok) := TryAll(sets, limits, keys, now);
      if ok {
        SmallerSet(At(s, keys[0]), At(purged, keys[0]));
        assert forall key :: key in keys ==> key == keys[0] || key in keys[1..];
      }
    }
  }

  // The leases that have not run out.
  function Live(leases: Leases, now: int): Leases {
    map t | t in leases && leases[t] > now :: leases[t]
  }

  // The first loop goes through exactly if every set has room once expired leases are gone; then it has removed them
  // from all sets, and otherwise from some.
  lemma {:induction false} TryIsExact(sets: Sets, limits: Limits, keys: seq<Key>, now: int)
    ensures var (s, ok) := TryAll(sets, limits, keys, now);
            && (ok <==> forall key :: key in keys ==> |Live(At(sets, key), now)| < limits.Of(key))
            && (forall key :: key !in keys ==> At(s, key) == At(sets, key))
            && (forall key :: key in keys ==> At(s, key) == Live(At(sets, key), now) || At(s, key) == At(sets, key))
            && (ok ==> forall key :: key in keys ==> At(s, key) == Live(At(sets, key), now))
    decreases |keys|
  {
    hide Live, At, Purge;
    if keys != [] {
      var first, rest := keys[0], keys[1..];
      PurgeIsLive(sets, first, now);
      TryIsExact(Purge(sets, first, now), limits, rest, now);
      assert forall key :: key in keys <==> key == first || key in rest;
      LiveTwice(At(sets, first), now);
    }
  }

  lemma PurgeIsLive(sets: Sets, key: Key, now: int)
    ensures At(Purge(sets, key, now), key) == Live(At(sets, key), now)
    ensures forall other :: other != key ==> At(Purge(sets, key, now), other) == At(sets, other)
  {
  }

  lemma LiveTwice(leases: Leases, now: int)
    ensures Live(Live(leases, now), now) == Live(leases, now)
  {
  }

  // A permit is granted exactly if every set has fewer live leases than its limit; then it is added to all of them.
  lemma AcquireIsExact(sets: Sets, limits: Limits, keys: seq<Key>, token: Token, now: int, expires: int)
    ensures var (n, granted) := Acquire(sets, limits, keys, token, now, expires);
            && (granted <==> forall key :: key in keys ==> |Live(At(sets, key), now)| < limits.Of(key))
            && (forall key :: key !in keys ==> At(n, key) == At(sets, key))
            && (granted ==> forall key :: key in keys ==> At(n, key) == Live(At(sets, key), now)[token := expires])
            && (!granted ==> forall key :: key in keys ==>
                  At(n, key) == Live(At(sets, key), now) || At(n, key) == At(sets, key))
  {
    TryIsExact(sets, limits, keys, now);
    var (s, ok) := TryAll(sets, limits, keys, now);
    hide TryAll, AddAll, Live, At;
    if ok {
      AddedToAll(s, keys, token, expires);
    }
  }

  lemma {:induction false} AddedToAll(sets: Sets, keys: seq<Key>, token: Token, expires: int)
    ensures var n := AddAll(sets, keys, token, expires);
            forall key :: At(n, key) == if key in keys then At(sets, key)[token := expires] else At(sets, key)
    decreases |keys|
  {
    if keys != [] {
      var next := sets[keys[0] := At(sets, keys[0])[token := expires]];
      AddedToAll(next, keys[1..], token, expires);
      forall key ensures At(AddAll(sets, keys, token, expires), key) == if key in keys
          then At(sets, key)[token := expires] else At(sets, key) {
        assert At(sets, keys[0])[token := expires][token := expires] == At(sets, keys[0])[token := expires];
        assert key in keys <==> key == keys[0] || key in keys[1..];
      }
    }
  }

  lemma AddKeepsWithin(sets: Sets, limits: Limits, keys: seq<Key>, token: Token, expires: int)
    requires Within(sets, limits) && forall key :: key in keys ==> |At(sets, key)| < limits.Of(key)
    ensures var n := AddAll(sets, keys, token, expires);
            && Within(n, limits)
            && (forall key :: key in keys ==> token in At(n, key) && At(n, key)[token] == expires)
            && NoNewcomers(sets, n, {token})
  {
    var n := AddAll(sets, keys, token, expires);
    AddedToAll(sets, keys, token, expires);
    hide AddAll;
    forall key ensures |At(n, key)| <= limits.Of(key) {
      if key in keys {
        assert At(n, key).Keys == At(sets, key).Keys + {token};
        assert |At(n, key).Keys| <= |At(sets, key).Keys| + 1;
      }
    }
  }

  // Granted: the permit is in every set, each within its limit. Refused: nothing was added.
  lemma AcquireIsSafe(sets: Sets, limits: Limits, keys: seq<Key>, token: Token, now: int, expires: int)
    requires Within(sets, limits)
    ensures var (n, granted) := Acquire(sets, limits, keys, token, now, expires);
            && Within(n, limits)
            && (granted ==> forall key :: key in keys ==> token in At(n, key) && At(n, key)[token] == expires)
            && NoNewcomers(sets, n, if granted then {token} else {})
  {
    TryFindsRoom(sets, limits, keys, now);
    var (s, ok) := TryAll(sets, limits, keys, now);
    ShrinkKeepsWithin(sets, s, limits);
    hide Within, TryAll, AddAll, At;
    if ok {
      AddKeepsWithin(s, limits, keys, token, expires);
      Newcomers(sets, s, AddAll(s, keys, token, expires), token);
    }
  }

  lemma Newcomers(a: Sets, b: Sets, c: Sets, token: Token)
    requires NoNewcomers(a, b, {}) && NoNewcomers(b, c, {token})
    ensures NoNewcomers(a, c, {token})
  {
    hide At;
    forall key ensures At(c, key).Keys <= At(a, key).Keys + {token} {
      assert At(b, key).Keys <= At(a, key).Keys + {};
      assert At(c, key).Keys <= At(b, key).Keys + {token};
    }
  }

  // Renewing succeeds exactly when the permit is still in every set, and extends the leases that are there.
  lemma {:induction false} RenewCountsHeld(sets: Sets, keys: seq<Key>, token: Token, expires: int)
    requires forall i, j :: 0 <= i < j < |keys| ==> keys[i] != keys[j]
    ensures var (n, count) := RenewAll(sets, keys, token, expires);
            && (forall key :: At(n, key) == if key in keys && token in At(sets, key) then At(sets, key)[token := expires]
                                            else At(sets, key))
            && count <= |keys|
            && (count == |keys| <==> forall key :: key in keys ==> token in At(sets, key))
    decreases |keys|
  {
    if keys != [] {
      var held := token in At(sets, keys[0]);
      var s := if held then sets[keys[0] := At(sets, keys[0])[token := expires]] else sets;
      RenewCountsHeld(s, keys[1..], token, expires);
      assert forall key :: key in keys <==> key == keys[0] || key in keys[1..];
      assert forall key :: key in keys[1..] ==> At(s, key) == At(sets, key);
    }
  }

  lemma {:induction false} ReleaseRemoves(sets: Sets, keys: seq<Key>, token: Token)
    ensures var n := ReleaseAll(sets, keys, token);
            forall key :: At(n, key) == if key in keys then At(sets, key) - {token} else At(sets, key)
    decreases |keys|
  {
    if keys != [] {
      ReleaseRemoves(sets[keys[0] := At(sets, keys[0]) - {token}], keys[1..], token);
      assert forall key :: key in keys <==> key == keys[0] || key in keys[1..];
    }
  }

  lemma RenewKeepsWithin(sets: Sets, limits: Limits, provider: string, user: int, token: Token, expires: int)
    requires Within(sets, limits)
    ensures Within(RenewAll(sets, KeysOf(provider, user), token, expires).0, limits)
  {
    RenewCountsHeld(sets, KeysOf(provider, user), token, expires);
    hide RenewAll;
    ShrinkKeepsWithin(sets, RenewAll(sets, KeysOf(provider, user), token, expires).0, limits);
  }

  lemma ReleaseKeepsWithin(sets: Sets, limits: Limits, keys: seq<Key>, token: Token)
    requires Within(sets, limits)
    ensures Within(ReleaseAll(sets, keys, token), limits)
  {
    ReleaseRemoves(sets, keys, token);
    hide ReleaseAll;
    ShrinkKeepsWithin(sets, ReleaseAll(sets, keys, token), limits);
  }

  lemma ApplyKeepsWithin(sets: Sets, limits: Limits, s: Step)
    requires Within(sets, limits)
    ensures Within(Apply(sets, limits, s), limits)
  {
    hide Within, Acquire, RenewAll, ReleaseAll;
    match s
    case AcquireStep(p, u, t, now, expires) => AcquireIsSafe(sets, limits, KeysOf(p, u), t, now, expires);
    case RenewStep(p, u, t, expires) => RenewKeepsWithin(sets, limits, p, u, t, expires);
    case ReleaseStep(p, u, t) => ReleaseKeepsWithin(sets, limits, KeysOf(p, u), t);
  }

  // Under any interleaving, with any clocks, no set ever exceeds its limit.
  lemma {:induction false} LimitsHold(limits: Limits, steps: seq<Step>)
    ensures Within(Run(map[], limits, steps), limits)
  {
    hide Within, Apply;
    if steps == [] {
      EmptyWithin(limits);
    } else {
      LimitsHold(limits, steps[..|steps| - 1]);
      ApplyKeepsWithin(Run(map[], limits, steps[..|steps| - 1]), limits, steps[|steps| - 1]);
    }
  }

  lemma EmptyWithin(limits: Limits)
    ensures Within(map[], limits)
  {
  }

  // ---------- Leases ----------

  // The token holds a lease under every one of its keys, until `until` at least.
  ghost predicate Holds(sets: Sets, keys: seq<Key>, token: Token, until: int) {
    forall key :: key in keys ==> token in At(sets, key) && At(sets, key)[token] >= until
  }

  // Nobody gives the permit back or shortens it, and nobody's clock has reached its end.
  predicate Respects(s: Step, token: Token, until: int) {
    match s
    case AcquireStep(_, _, t, now, expires) => now < until && (t == token ==> expires >= until)
    case RenewStep(_, _, t, expires) => t == token ==> expires >= until
    case ReleaseStep(_, _, t) => t != token
  }

  ghost predicate HoldsAt(sets: Sets, key: Key, token: Token, until: int) {
    token in At(sets, key) && At(sets, key)[token] >= until
  }

  lemma {:induction false} TryKeepsLease(sets: Sets, limits: Limits, keys: seq<Key>, now: int, key: Key, token: Token,
      until: int)
    requires HoldsAt(sets, key, token, until) && now < until
    ensures HoldsAt(TryAll(sets, limits, keys, now).0, key, token, until)
    decreases |keys|
  {
    if keys != [] {
      TryKeepsLease(Purge(sets, keys[0], now), limits, keys[1..], now, key, token, until);
    }
  }

  lemma {:induction false} AddKeepsLease(sets: Sets, keys: seq<Key>, t: Token, expires: int, key: Key, token: Token,
      until: int)
    requires HoldsAt(sets, key, token, until) && (t == token ==> expires >= until)
    ensures HoldsAt(AddAll(sets, keys, t, expires), key, token, until)
    decreases |keys|
  {
    if keys != [] {
      AddKeepsLease(sets[keys[0] := At(sets, keys[0])[t := expires]], keys[1..], t, expires, key, token, until);
    }
  }

  lemma {:induction false} RenewKeepsLease(sets: Sets, keys: seq<Key>, t: Token, expires: int, key: Key, token: Token,
      until: int)
    requires HoldsAt(sets, key, token, until) && (t == token ==> expires >= until)
    ensures HoldsAt(RenewAll(sets, keys, t, expires).0, key, token, until)
    decreases |keys|
  {
    if keys != [] {
      var s := if t in At(sets, keys[0]) then sets[keys[0] := At(sets, keys[0])[t := expires]] else sets;
      RenewKeepsLease(s, keys[1..], t, expires, key, token, until);
    }
  }

  lemma {:induction false} ReleaseKeepsLease(sets: Sets, keys: seq<Key>, t: Token, key: Key, token: Token, until: int)
    requires HoldsAt(sets, key, token, until) && t != token
    ensures HoldsAt(ReleaseAll(sets, keys, t), key, token, until)
    decreases |keys|
  {
    if keys != [] {
      ReleaseKeepsLease(sets[keys[0] := At(sets, keys[0]) - {t}], keys[1..], t, key, token, until);
    }
  }

  lemma StepKeepsLease(sets: Sets, limits: Limits, s: Step, key: Key, token: Token, until: int)
    requires HoldsAt(sets, key, token, until) && Respects(s, token, until)
    ensures HoldsAt(Apply(sets, limits, s), key, token, until)
  {
    hide HoldsAt, TryAll, AddAll, RenewAll, ReleaseAll;
    match s
    case AcquireStep(p, u, t, now, expires) =>
      TryKeepsLease(sets, limits, KeysOf(p, u), now, key, token, until);
      AddKeepsLease(TryAll(sets, limits, KeysOf(p, u), now).0, KeysOf(p, u), t, expires, key, token, until);
    case RenewStep(p, u, t, expires) => RenewKeepsLease(sets, KeysOf(p, u), t, expires, key, token, until);
    case ReleaseStep(p, u, t) => ReleaseKeepsLease(sets, KeysOf(p, u), t, key, token, until);
  }

  lemma {:induction false} RunKeepsLease(sets: Sets, limits: Limits, steps: seq<Step>, key: Key, token: Token,
      until: int)
    requires HoldsAt(sets, key, token, until) && forall i :: 0 <= i < |steps| ==> Respects(steps[i], token, until)
    ensures HoldsAt(Run(sets, limits, steps), key, token, until)
    decreases |steps|
  {
    hide HoldsAt, Respects, Apply;
    if steps != [] {
      RunKeepsLease(sets, limits, steps[..|steps| - 1], key, token, until);
      StepKeepsLease(Run(sets, limits, steps[..|steps| - 1]), limits, steps[|steps| - 1], key, token, until);
    }
  }

  // A granted permit is in force under all its keys until it is given back, shortened, or some worker's clock passes
  // its end; and as many permits as are in force together under a key, the key's limit bounds them.
  lemma GrantedPermitsHold(limits: Limits, before: seq<Step>, after: seq<Step>, provider: string, user: int,
      token: Token, now: int, expires: int)
    requires Acquire(Run(map[], limits, before), limits, KeysOf(provider, user), token, now, expires).1
    requires forall i :: 0 <= i < |after| ==> Respects(after[i], token, expires)
    ensures var start := Acquire(Run(map[], limits, before), limits, KeysOf(provider, user), token, now, expires).0;
            Holds(Run(start, limits, after), KeysOf(provider, user), token, expires)
  {
    LimitsHold(limits, before);
    var keys := KeysOf(provider, user);
    AcquireIsSafe(Run(map[], limits, before), limits, keys, token, now, expires);
    var start := Acquire(Run(map[], limits, before), limits, keys, token, now, expires).0;
    hide Acquire, Run, Respects, KeysOf;
    forall key | key in keys ensures HoldsAt(Run(start, limits, after), key, token, expires) {
      RunKeepsLease(start, limits, after, key, token, expires);
    }
  }

  lemma PermitsInForceAreBounded(limits: Limits, steps: seq<Step>, key: Key, tokens: set<Token>)
    requires forall t :: t in tokens ==> t in At(Run(map[], limits, steps), key)
    ensures |tokens| <= limits.Of(key)
  {
    LimitsHold(limits, steps);
    var leases := At(Run(map[], limits, steps), key);
    SubsetSize(tokens, leases.Keys);
    assert |leases| == |leases.Keys|;
  }

  // ---------- The scripts ----------

  class SemaphoreStore {
    var sets: Sets

    method PurgeKey(key: Key, now: int)
      modifies this
      ensures sets == Purge(old(sets), key, now)
    {
      sets := sets[key := map t | t in At(sets, key) && At(sets, key)[t] > now :: At(sets, key)[t]];
    }

    // The acquire script: purge and count key by key, and add only when every count is below its limit.
    method AcquirePermit(limits: Limits, keys: seq<Key>, token: Token, now: int, expires: int) returns (granted: bool)
      modifies this
      ensures (sets, granted) == Acquire(old(sets), limits, keys, token, now, expires)
    {
      for i := 0 to |keys|
        invariant TryAll(old(sets), limits, keys, now) == TryAll(sets, limits, keys[i..], now)
      {
        assert keys[i..][0] == keys[i] && keys[i..][1..] == keys[i + 1..];
        PurgeKey(keys[i], now);
        if |At(sets, keys[i])| >= limits.Of(keys[i]) {
          return false;
        }
      }
      assert keys[|keys|..] == [];
      ghost var purged := sets;
      for i := 0 to |keys|
        invariant AddAll(purged, keys, token, expires) == AddAll(sets, keys[i..], token, expires)
      {
        assert keys[i..][0] == keys[i] && keys[i..][1..] == keys[i + 1..];
        sets := sets[keys[i] := At(sets, keys[i])[token := expires]];
      }
      assert keys[|keys|..] == [];
      granted := true;
    }

    method RenewPermit(keys: seq<Key>, token: Token, expires: int) returns (ok: bool)
      modifies this
      ensures sets == RenewAll(old(sets), keys, token, expires).0
      ensures ok <==> RenewAll(old(sets), keys, token, expires).1 == |keys|
    {
      var count := 0;
      for i := 0 to |keys|
        invariant var (n, k) := RenewAll(sets, keys[i..], token, expires);
                  RenewAll(old(sets), keys, token, expires) == (n, count + k)
      {
        assert keys[i..][0] == keys[i] && keys[i..][1..] == keys[i + 1..];
        if token in At(sets, keys[i]) {
          sets := sets[keys[i] := At(sets, keys[i])[token := expires]];
          count := count + 1;
        }
      }
      assert keys[|keys|..] == [];
      ok := count == |keys|;
    }

    method ReleasePermit(keys: seq<Key>, token: Token)
      modifies this
      ensures sets == ReleaseAll(old(sets), keys, token)
    {
      for i := 0 to |keys|
        invariant ReleaseAll(old(sets), keys, token) == ReleaseAll(sets, keys[i..], token)
      {
        assert keys[i..][0] == keys[i] && keys[i..][1..] == keys[i + 1..];
        sets := sets[keys[i] := At(sets, keys[i]) - {token}];
      }
      assert keys[|keys|..] == [];
    }
  }
}
