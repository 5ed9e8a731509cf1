/**
 * Which part of a model's answer reaches the reader, and when (apps/worker/src/analysis/response-text-stream.ts): an
 * answer may be held back at its start until its language is clear, but its text is never lost and never repeated.
 */
module ResponseText {
  import opened Common

  // The language tests are not modelled: any tests will do.
  datatype Tests = Tests(english: string -> bool, chinese: string -> bool)

  datatype Mode = Holding | Streaming | Withheld

  datatype TextState = TextState(pending: string, mode: Mode, published: bool)

  function Open(chinese: bool): TextState {
    TextState("", if chinese then Holding else Streaming, false)
  }

  function Push(tests: Tests, s: TextState, fragment: string): (TextState, string) {
    if fragment == "" || s.mode.Withheld? then (s, "")
    else if s.mode.Streaming? then (s.(published := true), fragment)
    else
      var held := s.pending + fragment;
      if tests.english(held) then (TextState("", Withheld, s.published), "")
      else if tests.chinese(held) then (TextState("", Streaming, true), held)
      else (s.(pending := held), "")
  }

  function Finish(s: TextState, content: string): (TextState, string) {
    if s.published then (s, "") else (TextState("", s.mode, content != ""), content)
  }

  // The stream after some fragments, and what it has let through.
  function PushAll(tests: Tests, chinese: bool, fragments: seq<string>): (TextState, string) {
    if fragments == [] then (Open(chinese), "")
    else
      var (s, out) := PushAll(tests, chinese, fragments[..|fragments| - 1]);
      var (n, more) := Push(tests, s, fragments[|fragments| - 1]);
      (n, out + more)
  }

  predicate Faithful(s: TextState, given: string, out: string) {
    && out == (if s.published then given else "")
    && (s.mode.Holding? ==> !s.published && s.pending == given)
    && (s.mode.Withheld? ==> !s.published)
    && (s.mode.Streaming? && !s.published ==> given == "")
  }

  lemma PushIsFaithful(tests: Tests, s: TextState, fragment: string, given: string, out: string)
    requires Faithful(s, given, out)
    ensures Faithful(Push(tests, s, fragment).0, given + fragment, out + Push(tests, s, fragment).1)
  {
    assert given + "" == given && out + "" == out;
    assert "" + fragment == fragment;
    assert "" + (s.pending + fragment) == s.pending + fragment;
  }

  lemma ConcatLast(parts: seq<string>, last: string)
    ensures Concat(parts + [last]) == Concat(parts) + last
  {
    ConcatAppend(parts, [last]);
    assert [last][1..] == [] && Concat([]) == "" && last + "" == last;
  }

  lemma {:induction false} StreamIsFaithful(tests: Tests, chinese: bool, fragments: seq<string>)
    ensures Faithful(PushAll(tests, chinese, fragments).0, Concat(fragments), PushAll(tests, chinese, fragments).1)
  {
    if fragments != [] {
      var front, last := fragments[..|fragments| - 1], fragments[|fragments| - 1];
      StreamIsFaithful(tests, chinese, front);
      assert fragments == front + [last];
      ConcatLast(front, last);
      PushIsFaithful(tests, PushAll(tests, chinese, front).0, last, Concat(front), PushAll(tests, chinese, front).1);
    }
  }

  // ---------- When text is let through ----------

  // The text after k fragments is put to the language tests when the k-th fragment comes in.
  predicate Tested(fragments: seq<string>, k: nat) {
    0 < k <= |fragments| && fragments[k - 1] != ""
  }

  predicate Decides(tests: Tests, fragments: seq<string>, k: nat) {
    && Tested(fragments, k)
    && (tests.english(Concat(fragments[..k])) || tests.chinese(Concat(fragments[..k])))
  }

  ghost predicate Undecided(tests: Tests, fragments: seq<string>) {
    forall k: nat :: !Decides(tests, fragments, k)
  }

  // The first opening that a test accepts settles the language of the whole response.
  ghost predicate SettledAt(tests: Tests, fragments: seq<string>, k: nat) {
    Decides(tests, fragments, k) && forall j: nat :: j < k ==> !Decides(tests, fragments, j)
  }

  ghost predicate SettledEnglish(tests: Tests, fragments: seq<string>) {
    exists k: nat :: SettledAt(tests, fragments, k) && tests.english(Concat(fragments[..k]))
  }

  lemma DecidesBefore(tests: Tests, front: seq<string>, last: string, k: nat)
    requires k <= |front|
    ensures Decides(tests, front + [last], k) <==> Decides(tests, front, k)
    ensures SettledAt(tests, front + [last], k) <==> SettledAt(tests, front, k)
    ensures Concat((front + [last])[..k]) == Concat(front[..k])
  {
    var n := front + [last];
    forall j: nat | j <= |front| ensures Decides(tests, n, j) <==> Decides(tests, front, j) {
      assert n[..j] == front[..j];
    }
    assert n[..k] == front[..k];
  }

  lemma SettledStays(tests: Tests, front: seq<string>, last: string)
    requires !Undecided(tests, front)
    ensures !Undecided(tests, front + [last])
    ensures SettledEnglish(tests, front + [last]) <==> SettledEnglish(tests, front)
  {
    hide Decides, Concat;
    var n := front + [last];
    var k: nat :| Decides(tests, front, k);
    InRange(tests, front, k);
    DecidesBefore(tests, front, last, k);
    if SettledEnglish(tests, n) {
      var j: nat :| SettledAt(tests, n, j) && tests.english(Concat(n[..j]));
      assert j <= k;
      DecidesBefore(tests, front, last, j);
    }
    if SettledEnglish(tests, front) {
      var j: nat :| SettledAt(tests, front, j) && tests.english(Concat(front[..j]));
      InRange(tests, front, j);
      DecidesBefore(tests, front, last, j);
    }
  }

  lemma InRange(tests: Tests, fragments: seq<string>, k: nat)
    requires Decides(tests, fragments, k)
    ensures k <= |fragments|
  {
  }

  lemma SettledNow(tests: Tests, front: seq<string>, last: string)
    requires Undecided(tests, front)
    ensures var n := front + [last];
            && (Decides(tests, n, |n|) <==>
                  last != "" && (tests.english(Concat(front) + last) || tests.chinese(Concat(front) + last)))
            && (Undecided(tests, n) <==> !Decides(tests, n, |n|))
            && (SettledEnglish(tests, n) <==> last != "" && tests.english(Concat(front) + last))
  {
    hide Concat;
    var n := front + [last];
    forall k: nat | k < |n| ensures !Decides(tests, n, k) {
      DecidesBefore(tests, front, last, k);
    }
    ConcatLast(front, last);
    assert n[..|n|] == n;
    if Decides(tests, n, |n|) {
      assert SettledAt(tests, n, |n|);
    }
  }

  // Text is let through as soon as the language is settled as Chinese, and at once if Chinese is not asked for.
  lemma {:induction false} LetThroughExactly(tests: Tests, chinese: bool, fragments: seq<string>)
    ensures var (s, out) := PushAll(tests, chinese, fragments);
            && (s.mode.Holding? <==> chinese && Undecided(tests, fragments))
            && (s.mode.Withheld? <==> chinese && SettledEnglish(tests, fragments))
            && (s.published <==>
                  if chinese then !Undecided(tests, fragments) && !SettledEnglish(tests, fragments)
                  else exists k :: Tested(fragments, k))
            && out == if s.published then Concat(fragments) else ""
  {
    StreamIsFaithful(tests, chinese, fragments);
    hide Undecided, SettledEnglish, Concat;
    if fragments == [] {
      NothingDecides(tests);
    } else {
      var front, last := fragments[..|fragments| - 1], fragments[|fragments| - 1];
      assert fragments == front + [last];
      LetThroughExactly(tests, chinese, front);
      StreamIsFaithful(tests, chinese, front);
      if Undecided(tests, front) {
        SettledNow(tests, front, last);
        UndecidedIsUnsettled(tests, front);
      } else {
        SettledStays(tests, front, last);
      }
      TestedMore(front, last);
    }
  }

  lemma NothingDecides(tests: Tests)
    ensures Undecided(tests, []) && !SettledEnglish(tests, [])
  {
  }

  lemma UndecidedIsUnsettled(tests: Tests, fragments: seq<string>)
    requires Undecided(tests, fragments)
    ensures !SettledEnglish(tests, fragments)
  {
  }

  lemma TestedMore(front: seq<string>, last: string)
    ensures (exists k :: Tested(front + [last], k)) <==> last != "" || exists k :: Tested(front, k)
  {
    var n := front + [last];
    if last != "" {
      assert Tested(n, |n|);
    }
    if k :| Tested(front, k) {
      assert Tested(n, k);
    }
    if k :| Tested(n, k) {
      assert k == |n| || Tested(front, k);
    }
  }

  // However a response is cut into fragments and whatever its language, finishing it with its own text publishes every
  // character exactly once and in order.
  lemma PublishedExactlyOnce(tests: Tests, chinese: bool, fragments: seq<string>)
    ensures var (s, out) := PushAll(tests, chinese, fragments);
            out + Finish(s, Concat(fragments)).1 == Concat(fragments)
  {
    StreamIsFaithful(tests, chinese, fragments);
    var out := PushAll(tests, chinese, fragments).1;
    assert out + "" == out;
    assert "" + Concat(fragments) == Concat(fragments);
  }

  // Text that was withheld as a whole can still be dropped as a whole.
  lemma WithheldCanBeDropped(tests: Tests, chinese: bool, fragments: seq<string>)
    ensures var (s, out) := PushAll(tests, chinese, fragments);
            !s.published ==> out + Finish(s, "").1 == ""
  {
    StreamIsFaithful(tests, chinese, fragments);
  }

  class ResponseTextStream {
    const tests: Tests
    var pending: string
    var mode: Mode
    var published: bool
    ghost var given: string
    ghost var out: string

    ghost function State(): TextState
      reads this
    {
      TextState(pending, mode, published)
    }

    ghost predicate Valid()
      reads this
    {
      Faithful(State(), given, out)
    }

    constructor (tests: Tests, chinese: bool)
      ensures Valid() && given == "" && out == "" && State() == Open(chinese) && this.tests == tests
    {
      this.tests := tests;
      pending, mode, published := "", if chinese then Holding else Streaming, false;
      given, out := "", "";
    }

    method PushText(fragment: string) returns (text: string)
      requires Valid()
      modifies this
      ensures Valid() && given == old(given) + fragment && out == old(out) + text
      ensures (State(), text) == Push(tests, old(State()), fragment)
    {
      PushIsFaithful(tests, State(), fragment, given, out);
      text := "";
      if fragment == "" || mode.Withheld? {
      } else if mode.Streaming? {
        published := true;
        text := fragment;
      } else {
        pending := pending + fragment;
        if tests.english(pending) {
          mode := Withheld;
          pending := "";
        } else if tests.chinese(pending) {
          mode := Streaming;
          text := pending;
          pending := "";
          published := true;
        }
      }
      given := given + fragment;
      out := out + text;
    }

    method FinishText(content: string) returns (text: string)
      requires Valid()
      modifies this
      ensures (State(), text) == Finish(old(State()), content)
      ensures given == old(given) && out == old(out) + text
      ensures content == given ==> out == given
      ensures content == "" && !old(published) ==> out == ""
    {
      text := "";
      if !published {
        pending := "";
        published := content != "";
        text := content;
      }
      assert old(out) + "" == old(out) && "" + content == content;
      out := out + text;
    }
  }
}
