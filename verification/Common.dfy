/** Small shared vocabulary: optional values, results, and the ECMAScript notion of white space. */
module Common {

  datatype Option<+T> = None | Some(value: T) {
    function GetOr(default: T): T {
      match this
      case Some(v) => v
      case None => default
    }
  }

  datatype Result<+T, +E> = Success(value: T) | Failure(error: E) {
    predicate IsFailure() {
      Failure?
    }

    function PropagateFailure<U>(): Result<U, E>
      requires Failure?
    {
      Failure(error)
    }

    function Extract(): T
      requires Success?
    {
      value
    }
  }

  // White space and line terminators, as String.prototype.trim and the regular expression class \s see them.
  predicate IsSpace(c: char) {
    || c in "\t\n\r \U{000B}\U{000C}\U{00A0}\U{1680}\U{2028}\U{2029}\U{202F}\U{205F}\U{3000}\U{FEFF}"
    || '\U{2000}' <= c <= '\U{200A}'
  }

  function TrimStart(s: string): string {
    if s != "" && IsSpace(s[0]) then TrimStart(s[1..]) else s
  }

  function TrimEnd(s: string): string {
    if s != "" && IsSpace(s[|s| - 1]) then TrimEnd(s[..|s| - 1]) else s
  }

  function Trim(s: string): string {
    TrimEnd(TrimStart(s))
  }

  // What remains between the white space at both ends.
  ghost predicate Trimmed(s: string, t: string) {
    exists i, j :: TrimmedAt(s, t, i, j)
  }

  predicate TrimmedAt(s: string, t: string, i: int, j: int) {
    && 0 <= i <= j <= |s| && t == s[i..j] && OnlySpace(s[..i]) && OnlySpace(s[j..])
    && (t != "" ==> !IsSpace(t[0]) && !IsSpace(t[|t| - 1]))
  }

  predicate OnlySpace(s: string) {
    forall k :: 0 <= k < |s| ==> IsSpace(s[k])
  }

  lemma {:induction false} TrimStartIsExact(s: string) returns (i: nat)
    ensures i <= |s| && TrimStart(s) == s[i..] && OnlySpace(s[..i]) && (i < |s| ==> !IsSpace(s[i]))
  {
    hide IsSpace;
    if s != "" && IsSpace(s[0]) {
      var k := TrimStartIsExact(s[1..]);
      i := k + 1;
      assert s[1..][k..] == s[i..] && s[..i] == [s[0]] + s[1..][..k];
    } else {
      i := 0;
      assert s[0..] == s;
    }
  }

  lemma {:induction false} TrimEndIsExact(s: string) returns (j: nat)
    ensures j <= |s| && TrimEnd(s) == s[..j] && OnlySpace(s[j..]) && (j > 0 ==> !IsSpace(s[j - 1]))
  {
    hide IsSpace;
    if s != "" && IsSpace(s[|s| - 1]) {
      j := TrimEndIsExact(s[..|s| - 1]);
      assert s[..|s| - 1][..j] == s[..j] && s[j..] == s[..|s| - 1][j..] + [s[|s| - 1]];
    } else {
      j := |s|;
      assert s[..j] == s;
    }
  }

  lemma TrimIsTrimmed(s: string)
    ensures Trimmed(s, Trim(s))
  {
    hide IsSpace;
    var i := TrimStartIsExact(s);
    var k := TrimEndIsExact(s[i..]);
    var t := Trim(s);
    assert t == s[i..][..k] == s[i..i + k];
    assert s[i + k..] == s[i..][k..];
    assert t != "" ==> t[0] == s[i] && t[|t| - 1] == s[i..][k - 1];
    assert TrimmedAt(s, t, i, i + k);
  }

  lemma SpaceAround(s: string, k: int, l: int)
    requires 0 <= k <= l <= |s| && OnlySpace(s[..k]) && OnlySpace(s[l..])
    ensures forall i :: 0 <= i < |s| && (i < k || l <= i) ==> IsSpace(s[i])
  {
    hide IsSpace;
    forall i | 0 <= i < |s| && (i < k || l <= i) ensures IsSpace(s[i]) {
      assert if i < k then s[..k][i] == s[i] else s[l..][i - l] == s[i];
    }
  }

  // A stretch that begins and ends with other characters lies inside any stretch with only white space around it.
  lemma InsideIsKept(s: string, t: string, i: int, j: int, u: string, k: int, l: int)
    requires TrimmedAt(s, t, i, j) && TrimmedAt(s, u, k, l) && t != ""
    ensures k <= i && j <= l
  {
    assert t[0] == s[i] && t[|t| - 1] == s[j - 1];
    hide IsSpace, OnlySpace;
    SpaceAround(s, k, l);
  }

  lemma TrimmedIsUnique(s: string, t: string, u: string)
    requires Trimmed(s, t) && Trimmed(s, u)
    ensures t == u
  {
    hide IsSpace, OnlySpace;
    var i, j :| TrimmedAt(s, t, i, j);
    var k, l :| TrimmedAt(s, u, k, l);
    if t != "" {
      InsideIsKept(s, t, i, j, u, k, l);
    }
    if u != "" {
      InsideIsKept(s, u, k, l, t, i, j);
    }
  }

  lemma TrimIsExact(s: string, t: string)
    ensures t == Trim(s) <==> Trimmed(s, t)
  {
    hide Trim, Trimmed;
    TrimIsTrimmed(s);
    if Trimmed(s, t) {
      TrimmedIsUnique(s, t, Trim(s));
    }
  }

  function Concat(parts: seq<string>): string {
    if parts == [] then "" else parts[0] + Concat(parts[1..])
  }

  lemma {:induction false} ConcatAppend(parts: seq<string>, more: seq<string>)
    ensures Concat(parts + more) == Concat(parts) + Concat(more)
  {
    if parts == [] {
      assert parts + more == more;
    } else {
      assert (parts + more)[1..] == parts[1..] + more;
      ConcatAppend(parts[1..], more);
    }
  }

  // The decimal numeral of a number, as a template literal prints it.
  function Digit(d: nat): char
    requires d < 10
  {
    ['0', '1', '2', '3', '4', '5', '6', '7', '8', '9'][d]
  }

  function Decimal(n: nat): (s: string)
    ensures s != ""
  {
    if n < 10 then [Digit(n)] else Decimal(n / 10) + [Digit(n % 10)]
  }

  lemma {:induction false} DecimalInjective(m: nat, n: nat)
    requires Decimal(m) == Decimal(n)
    ensures m == n
    decreases m
  {
    assert Decimal(m)[|Decimal(m)| - 1] == Digit(m % 10) && Decimal(n)[|Decimal(n)| - 1] == Digit(n % 10);
    assert Decimal(m)[..|Decimal(m)| - 1] == Decimal(n)[..|Decimal(n)| - 1];
    if m >= 10 && n >= 10 {
      assert Decimal(m)[..|Decimal(m)| - 1] == Decimal(m / 10);
      assert Decimal(n)[..|Decimal(n)| - 1] == Decimal(n / 10);
      DecimalInjective(m / 10, n / 10);
    }
  }

  // Reading a numeral digit by digit.
  function Value(s: string): int {
    if s == "" then 0 else 10 * Value(s[..|s| - 1]) + (s[|s| - 1] as int - '0' as int)
  }

  // A number is printed in digits, without leading zeros, so that it reads as the number again.
  lemma {:induction false} DecimalReads(n: nat)
    ensures Value(Decimal(n)) == n
    ensures forall c :: c in Decimal(n) ==> '0' <= c <= '9'
    ensures n > 0 ==> Decimal(n)[0] != '0'
    decreases n
  {
    if n < 10 {
      assert [Digit(n)][..0] == "";
    } else {
      DecimalReads(n / 10);
      assert Decimal(n)[..|Decimal(n)| - 1] == Decimal(n / 10);
    }
  }

  lemma SubsetSize<T>(a: set<T>, b: set<T>)
    requires a <= b
    ensures |a| <= |b|
  {
    assert b == a + (b - a);
  }

  // ---------- Some elements of a list, in order ----------

  ghost predicate Ascends(ps: seq<nat>, n: nat) {
    (forall i :: 0 <= i < |ps| ==> ps[i] < n) && forall i, j :: 0 <= i < j < |ps| ==> ps[i] < ps[j]
  }

  // The elements at these places, in order.
  ghost predicate Picked<T>(all: seq<T>, picked: seq<T>, ps: seq<nat>) {
    Ascends(ps, |all|) && |picked| == |ps| && forall i :: 0 <= i < |ps| ==> picked[i] == all[ps[i]]
  }

  lemma PickMore<T>(x: T, all: seq<T>, picked: seq<T>, ps: seq<nat>, take: bool) returns (qs: seq<nat>)
    requires Picked(all, picked, ps)
    ensures Picked([x] + all, (if take then [x] else []) + picked, qs)
    ensures 0 in qs <==> take
    ensures forall k :: 0 <= k < |all| ==> (k + 1 in qs <==> k in ps)
  {
    var shifted := seq(|ps|, i requires 0 <= i < |ps| => ps[i] + 1);
    qs := (if take then [0] else []) + shifted;
    forall k | 0 <= k < |all| ensures k + 1 in qs <==> k in ps {
      if k in ps {
        var i :| 0 <= i < |ps| && ps[i] == k;
        assert shifted[i] == k + 1;
      }
    }
  }

  lemma PickedWithin<T>(all: seq<T>, picked: seq<T>, ps: seq<nat>)
    requires Picked(all, picked, ps)
    ensures forall k :: k in ps ==> 0 <= k < |all|
    ensures forall x :: x in picked <==> exists k :: k in ps && all[k] == x
  {
    forall x | x in picked ensures exists k :: k in ps && all[k] == x {
      var i :| 0 <= i < |picked| && picked[i] == x;
      assert ps[i] in ps;
    }
    forall k | k in ps ensures 0 <= k < |all| && all[k] in picked {
      var i :| 0 <= i < |ps| && ps[i] == k;
      assert picked[i] == all[k];
    }
  }
}
