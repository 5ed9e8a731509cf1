/**
 * When a new memory is close enough to an existing one to need a review (packages/database/src/memory-policy.ts), and
 * why the review gate guards the unique index on names, although the two normalise names in different orders
 * (packages/database/src/memory-repository.ts).
 */
module MemoryPolicy {
  import opened Common

  // Unicode: compatibility normalisation, lower case character by character, punctuation and separators.
  datatype Text = Text(compatible: string -> string, lower: char -> string, punctuation: char -> bool)

  // Lower case neither makes nor removes white space.
  ghost predicate Sane(t: Text) {
    && (forall c :: IsSpace(c) ==> t.lower(c) == [c])
    && (forall c :: !IsSpace(c) ==> t.lower(c) != "" && forall i :: 0 <= i < |t.lower(c)| ==> !IsSpace(t.lower(c)[i]))
  }

  function Lower(t: Text, s: string): string {
    if s == "" then "" else t.lower(s[0]) + Lower(t, s[1..])
  }

  // Every stretch of white space becomes one blank.
  function Collapse(s: string): string
    decreases |s|
  {
    if s == "" then ""
    else if IsSpace(s[0]) then
      TrimStartShrinks(s);
      " " + Collapse(TrimStart(s))
    else [s[0]] + Collapse(s[1..])
  }

  lemma {:induction false} TrimStartShrinks(s: string)
    ensures |TrimStart(s)| <= |s|
    ensures s != "" && IsSpace(s[0]) ==> |TrimStart(s)| < |s|
    ensures TrimStart(s) == "" || !IsSpace(TrimStart(s)[0])
  {
    if s != "" && IsSpace(s[0]) {
      TrimStartShrinks(s[1..]);
    }
  }

  // The policy's form of a text, and the repository's form of a name.
  function Normalize(t: Text, s: string): string {
    Trim(Collapse(Lower(t, t.compatible(s))))
  }

  function NormalizedName(t: Text, name: string): string {
    Collapse(Lower(t, Trim(t.compatible(name))))
  }

  // ---------- The two forms agree ----------

  lemma {:induction false} LowerConcat(t: Text, a: string, b: string)
    ensures Lower(t, a + b) == Lower(t, a) + Lower(t, b)
  {
    if a == "" {
      assert a + b == b;
    } else {
      assert (a + b)[1..] == a[1..] + b;
      LowerConcat(t, a[1..], b);
    }
  }

  lemma LowerHead(t: Text, s: string)
    requires Sane(t) && s != ""
    ensures Lower(t, s) != "" && IsSpace(Lower(t, s)[0]) == IsSpace(s[0])
  {
  }

  lemma {:induction false} LowerTrimsStart(t: Text, s: string)
    requires Sane(t)
    ensures TrimStart(Lower(t, s)) == Lower(t, TrimStart(s))
  {
    if s != "" {
      LowerHead(t, s);
      if IsSpace(s[0]) {
        assert Lower(t, s)[1..] == Lower(t, s[1..]);
        LowerTrimsStart(t, s[1..]);
      }
    }
  }

  lemma {:induction false} LowerTrimsEnd(t: Text, s: string)
    requires Sane(t)
    ensures TrimEnd(Lower(t, s)) == Lower(t, TrimEnd(s))
  {
    if s != "" {
      var front, last := s[..|s| - 1], s[|s| - 1];
      assert s == front + [last];
      LowerConcat(t, front, [last]);
      assert [last][1..] == "" && t.lower(last) + "" == t.lower(last);
      assert Lower(t, [last]) == t.lower(last);
      var low := Lower(t, s);
      assert low[|low| - 1] == t.lower(last)[|t.lower(last)| - 1];
      if IsSpace(last) {
        assert low[..|low| - 1] == Lower(t, front);
        LowerTrimsEnd(t, front);
      }
    }
  }

  // TrimEnd, seen from the front.
  lemma {:induction false} TrimEndFront(c: char, s: string)
    ensures TrimEnd([c] + s) == if TrimEnd(s) == "" && IsSpace(c) then "" else [c] + TrimEnd(s)
  {
    var whole := [c] + s;
    if s == "" {
      assert whole == [c] && whole[..0] == "";
    } else {
      assert whole[|whole| - 1] == s[|s| - 1];
      if IsSpace(s[|s| - 1]) {
        assert whole[..|whole| - 1] == [c] + s[..|s| - 1];
        TrimEndFront(c, s[..|s| - 1]);
      }
    }
  }

  lemma {:induction false} CollapseTrimsStart(s: string)
    ensures TrimStart(Collapse(s)) == Collapse(TrimStart(s))
    decreases |s|
  {
    if s != "" && IsSpace(s[0]) {
      TrimStartShrinks(s);
      var rest := TrimStart(s);
      assert (" " + Collapse(rest))[1..] == Collapse(rest);
      NoLeadingSpace(rest);
      TrimStartIdle(s);
    }
  }

  lemma NoLeadingSpace(s: string)
    requires s == "" || !IsSpace(s[0])
    ensures Collapse(s) == "" || !IsSpace(Collapse(s)[0])
    ensures TrimStart(Collapse(s)) == Collapse(s)
  {
  }

  lemma {:induction false} TrimStartIdle(s: string)
    ensures TrimStart(TrimStart(s)) == TrimStart(s)
  {
    TrimStartShrinks(s);
  }

  lemma {:induction false} SpacesCollapse(s: string)
    ensures TrimEnd(s) == "" ==> TrimEnd(Collapse(s)) == ""
    ensures TrimEnd(s) != "" ==> TrimEnd(Collapse(s)) != ""
    decreases |s|
  {
    if s != "" {
      assert s == [s[0]] + s[1..];
      TrimEndFront(s[0], s[1..]);
      if IsSpace(s[0]) {
        TrimStartShrinks(s);
        SpacesCollapse(TrimStart(s));
        TrimEndFront(' ', Collapse(TrimStart(s)));
        TrimEndOfTrimmed(s);
      } else {
        SpacesCollapse(s[1..]);
        TrimEndFront(s[0], Collapse(s[1..]));
      }
    }
  }

  // Cutting the front leaves a text blank exactly if it was.
  lemma {:induction false} TrimEndOfTrimmed(s: string)
    ensures TrimEnd(TrimStart(s)) == "" <==> TrimEnd(s) == ""
    ensures TrimEnd(TrimStart(s)) == TrimStart(TrimEnd(s))
  {
    if s != "" {
      assert s == [s[0]] + s[1..];
      TrimEndFront(s[0], s[1..]);
      if IsSpace(s[0]) {
        TrimEndOfTrimmed(s[1..]);
        assert TrimEnd(s) != "" ==> TrimEnd(s)[1..] == TrimEnd(s[1..]);
      }
    }
  }

  lemma {:induction false} CollapseTrimsEnd(s: string)
    ensures TrimEnd(Collapse(s)) == Collapse(TrimEnd(s))
    decreases |s|
  {
    if s != "" {
      var c, rest := s[0], s[1..];
      assert s == [c] + rest;
      TrimEndFront(c, rest);
      if !IsSpace(c) {
        CollapseTrimsEnd(rest);
        TrimEndFront(c, Collapse(rest));
        assert ([c] + TrimEnd(rest))[1..] == TrimEnd(rest);
      } else {
        TrimStartShrinks(s);
        var inner := TrimStart(s);
        CollapseTrimsEnd(inner);
        TrimEndFront(' ', Collapse(inner));
        SpacesCollapse(inner);
        TrimEndOfTrimmed(s);
        if TrimEnd(s) != "" {
          assert TrimEnd(s)[0] == c;
          assert Collapse(TrimEnd(s)) == " " + Collapse(TrimStart(TrimEnd(s)));
        }
      }
    }
  }

  // Whether a name is trimmed first or last makes no difference.
  lemma NormalisersAgree(t: Text, name: string)
    requires Sane(t)
    ensures NormalizedName(t, name) == Normalize(t, name)
  {
    var s := t.compatible(name);
    LowerTrimsStart(t, s);
    LowerTrimsEnd(t, TrimStart(s));
    assert Lower(t, Trim(s)) == TrimEnd(TrimStart(Lower(t, s)));
    CollapseTrimsEnd(TrimStart(Lower(t, s)));
    CollapseTrimsStart(Lower(t, s));
  }

  // ---------- What is compared ----------

  // The stretches without white space.
  function Words(s: string): (words: seq<string>)
    ensures s != "" && !IsSpace(s[0]) ==> words != []
  {
    if s == "" then []
    else if IsSpace(s[0]) then Words(s[1..])
    else if |s| == 1 || IsSpace(s[1]) then [[s[0]]] + Words(s[1..])
    else
      var rest := Words(s[1..]);
      [[s[0]] + rest[0]] + rest[1..]
  }

  function Join(words: seq<string>): string {
    if words == [] then "" else if |words| == 1 then words[0] else words[0] + " " + Join(words[1..])
  }

  lemma {:induction false} WordsWithoutStart(s: string)
    ensures Words(TrimStart(s)) == Words(s)
  {
    if s != "" && IsSpace(s[0]) {
      WordsWithoutStart(s[1..]);
    }
  }

  lemma {:induction false} SpaceAddsNoWord(s: string, c: char)
    requires IsSpace(c)
    ensures Words(s + [c]) == Words(s)
  {
    if s == "" {
      assert s + [c] == [c] && [c][1..] == "";
    } else {
      assert (s + [c])[1..] == s[1..] + [c] && (s + [c])[0] == s[0];
      SpaceAddsNoWord(s[1..], c);
      if |s| == 1 {
        assert s[1..] == "";
      }
    }
  }

  lemma {:induction false} WordsWithoutEnd(s: string)
    ensures Words(TrimEnd(s)) == Words(s)
  {
    if s != "" && IsSpace(s[|s| - 1]) {
      WordsWithoutEnd(s[..|s| - 1]);
      assert s == s[..|s| - 1] + [s[|s| - 1]];
      SpaceAddsNoWord(s[..|s| - 1], s[|s| - 1]);
    }
  }

  lemma {:induction false} TrimStartKeepsEnd(s: string)
    requires s != "" && !IsSpace(s[|s| - 1])
    ensures var t := TrimStart(s); t != "" && !IsSpace(t[0]) && t[|t| - 1] == s[|s| - 1]
  {
    if IsSpace(s[0]) {
      TrimStartKeepsEnd(s[1..]);
    }
  }

  lemma {:induction false} CollapseJoins(s: string)
    requires s == "" || (!IsSpace(s[0]) && !IsSpace(s[|s| - 1]))
    ensures Collapse(s) == Join(Words(s))
    decreases |s|
  {
    if |s| > 1 {
      var rest := s[1..];
      if IsSpace(s[1]) {
        TrimStartShrinks(rest);
        TrimStartKeepsEnd(rest);
        var next := TrimStart(rest);
        CollapseJoins(next);
        WordsWithoutStart(rest);
        assert Collapse(rest) == " " + Collapse(next);
        assert ([[s[0]]] + Words(rest))[1..] == Words(rest);
        assert [s[0]] + (" " + Collapse(next)) == [s[0]] + " " + Collapse(next);
      } else {
        CollapseJoins(rest);
        var words := Words(rest);
        assert Words(s)[1..] == words[1..];
        if |words| > 1 {
          assert [s[0]] + (words[0] + " " + Join(words[1..])) == ([s[0]] + words[0]) + " " + Join(words[1..]);
        }
      }
    } else if |s| == 1 {
      assert s[1..] == "" && s == [s[0]] && Collapse("") == "";
    }
  }

  lemma {:induction false} LowerIsExact(t: Text, s: string) returns (parts: seq<string>)
    ensures |parts| == |s| && (forall i :: 0 <= i < |s| ==> parts[i] == t.lower(s[i])) && Lower(t, s) == Concat(parts)
  {
    parts := [];
    if s != "" {
      var rest := LowerIsExact(t, s[1..]);
      parts := [t.lower(s[0])] + rest;
      assert parts[1..] == rest;
    }
  }

  lemma TrimEndKeepsStart(s: string)
    requires s == "" || !IsSpace(s[0])
    ensures var t := TrimEnd(s); t == "" || (!IsSpace(t[0]) && !IsSpace(t[|t| - 1]))
  {
    var j := TrimEndIsExact(s);
  }

  // Texts are compared as their words, in lower case, with one blank between two.
  lemma NormalizeIsExact(t: Text, s: string)
    ensures Normalize(t, s) == Join(Words(Lower(t, t.compatible(s))))
  {
    var low := Lower(t, t.compatible(s));
    TrimStartShrinks(low);
    TrimEndKeepsStart(TrimStart(low));
    CollapseTrimsStart(low);
    CollapseTrimsEnd(TrimStart(low));
    CollapseJoins(TrimEnd(TrimStart(low)));
    WordsWithoutStart(low);
    WordsWithoutEnd(TrimStart(low));
  }

  // ---------- Similarity ----------

  function Strip(t: Text, s: string): string {
    if s == "" then "" else (if t.punctuation(s[0]) then "" else [s[0]]) + Strip(t, s[1..])
  }

  function Compact(t: Text, s: string): string {
    Strip(t, Normalize(t, s))
  }

  // The pairs of neighbouring characters.
  function Grams(t: Text, s: string): set<string> {
    var c := Compact(t, s);
    set i | 0 <= i < |c| - 1 :: Pair(c, i)
  }

  function Pair(s: string, i: nat): string
    requires i + 1 < |s|
  {
    [s[i], s[i + 1]]
  }

  function Similarity(t: Text, a: string, b: string): real {
    var left, right := Grams(t, a), Grams(t, b);
    var common := |left * right|;
    if left == {} || right == {} || common < 3 then 0.0
    else (2 * common) as real / (|left| + |right|) as real
  }

  lemma {:induction false} StripIsExact(t: Text, s: string) returns (ps: seq<nat>)
    ensures Picked(s, Strip(t, s), ps) && forall k :: 0 <= k < |s| ==> (k in ps <==> !t.punctuation(s[k]))
  {
    if s == "" {
      ps := [];
    } else {
      var rest := StripIsExact(t, s[1..]);
      var take := !t.punctuation(s[0]);
      assert Strip(t, s) == (if take then [s[0]] else []) + Strip(t, s[1..]);
      hide Strip;
      ps := PickMore(s[0], s[1..], Strip(t, s[1..]), rest, take);
      assert [s[0]] + s[1..] == s;
      hide Picked;
      forall k | 0 <= k < |s| ensures k in ps <==> !t.punctuation(s[k]) {
        assert k > 0 ==> s[k] == s[1..][k - 1] && (k - 1) + 1 == k;
      }
    }
  }

  // Similarity is measured on the characters of a normal text that are neither punctuation nor separators.
  lemma CompactIsExact(t: Text, s: string) returns (ps: seq<nat>)
    ensures var n := Normalize(t, s);
            Picked(n, Compact(t, s), ps) && forall k :: 0 <= k < |n| ==> (k in ps <==> !t.punctuation(n[k]))
  {
    ps := StripIsExact(t, Normalize(t, s));
  }

  predicate Neighbours(c: string, i: int, g: string) {
    0 <= i < |c| - 1 && |g| == 2 && g[0] == c[i] && g[1] == c[i + 1]
  }

  lemma GramsAreExact(t: Text, s: string, g: string)
    ensures g in Grams(t, s) <==> exists i :: Neighbours(Compact(t, s), i, g)
  {
    var c := Compact(t, s);
    hide Compact;
    if i :| Neighbours(c, i, g) {
      assert g == Pair(c, i);
    }
    if g in Grams(t, s) {
      var i :| 0 <= i < |c| - 1 && Pair(c, i) == g;
      assert Neighbours(c, i, g);
    }
  }

  // Two texts that share three pairs or more are as similar as the share of their pairs that is common; others are not.
  lemma SimilarityIsDice(t: Text, a: string, b: string, left: set<string>, right: set<string>)
    requires forall g :: g in left <==> g in Grams(t, a)
    requires forall g :: g in right <==> g in Grams(t, b)
    ensures if |left * right| < 3 then Similarity(t, a, b) == 0.0
            else Similarity(t, a, b) * (|left| + |right|) as real == 2.0 * |left * right| as real
  {
    hide Grams;
    assert left == Grams(t, a) && right == Grams(t, b);
    if |left * right| >= 3 {
      assert left != {} && right != {} && |left| + |right| > 0;
    }
  }

  lemma RatioWithinOne(a: nat, b: nat)
    requires a <= b && b > 0
    ensures 0.0 <= a as real / b as real <= 1.0
  {
    assert a as real <= b as real;
  }

  // Shared pairs are counted on both sides, so the coefficient stays between 0 and 1.
  lemma SimilarityIsAtMostOne(t: Text, a: string, b: string)
    ensures 0.0 <= Similarity(t, a, b) <= 1.0
  {
    hide Grams;
    var left, right := Grams(t, a), Grams(t, b);
    SubsetSize(left * right, left);
    SubsetSize(left * right, right);
    if left != {} && right != {} {
      RatioWithinOne(2 * |left * right|, |left| + |right|);
    }
  }

  lemma SimilarityIsSymmetric(t: Text, a: string, b: string)
    ensures Similarity(t, a, b) == Similarity(t, b, a)
  {
    assert Grams(t, a) * Grams(t, b) == Grams(t, b) * Grams(t, a);
  }

  // ---------- Related memories ----------

  datatype Content = Content(name: string, description: string)
  datatype Known = Known(id: nat, active: bool, content: Content)

  datatype Reason = SameName | SameContent | SimilarContent
  datatype Match = Match(memory: Known, reason: Reason, score: real)

  const THRESHOLD := 0.55
  const MOST := 5

  predicate SharesName(t: Text, a: Content, b: Content) {
    Normalize(t, a.name) == Normalize(t, b.name)
  }

  function MatchOf(t: Text, content: Content, memory: Known): Match {
    if SharesName(t, content, memory.content) then Match(memory, SameName, 3.0)
    else if Compact(t, content.description) == Compact(t, memory.content.description)
        then Match(memory, SameContent, 2.0)
    else
      var d, n := Similarity(t, content.description, memory.content.description),
          Similarity(t, content.name, memory.content.name);
      Match(memory, SimilarContent, if d >= n then d else n)
  }

  predicate Precedes(a: Match, b: Match) {
    a.score > b.score || (a.score == b.score && a.memory.id < b.memory.id)
  }

  function InsertMatch(m: Match, sorted: seq<Match>): seq<Match> {
    if sorted == [] || !Precedes(sorted[0], m) then [m] + sorted else [sorted[0]] + InsertMatch(m, sorted[1..])
  }

  predicate Considered(memory: Known, exclude: Option<nat>) {
    memory.active && exclude != Some(memory.id)
  }

  function Ranked(t: Text, content: Content, memories: seq<Known>, exclude: Option<nat>): seq<Match> {
    if memories == [] then []
    else
      var rest := Ranked(t, content, memories[1..], exclude);
      var m := MatchOf(t, content, memories[0]);
      if Considered(memories[0], exclude) && m.score >= THRESHOLD then InsertMatch(m, rest) else rest
  }

  function Related(t: Text, content: Content, memories: seq<Known>, exclude: Option<nat>): (r: seq<Match>)
    ensures |r| <= MOST
  {
    var ranked := Ranked(t, content, memories, exclude);
    if |ranked| > MOST then ranked[..MOST] else ranked
  }

  // Best first, and by id among equals.
  predicate ByScore(matches: seq<Match>) {
    forall i, j :: 0 <= i < j < |matches| ==>
      matches[i].score > matches[j].score
      || (matches[i].score == matches[j].score && matches[i].memory.id <= matches[j].memory.id)
  }

  lemma {:induction false} InsertKeepsElements(m: Match, sorted: seq<Match>)
    ensures forall x :: x in InsertMatch(m, sorted) <==> x == m || x in sorted
  {
    if sorted != [] && Precedes(sorted[0], m) {
      InsertKeepsElements(m, sorted[1..]);
      assert forall x :: x in sorted <==> x == sorted[0] || x in sorted[1..];
    }
  }

  lemma {:induction false} InsertKeepsOrder(m: Match, sorted: seq<Match>)
    requires ByScore(sorted)
    ensures ByScore(InsertMatch(m, sorted))
  {
    if sorted != [] && Precedes(sorted[0], m) {
      InsertKeepsOrder(m, sorted[1..]);
      InsertKeepsElements(m, sorted[1..]);
      var rest := InsertMatch(m, sorted[1..]);
      forall k | 0 <= k < |rest| ensures sorted[0].score > rest[k].score
          || (sorted[0].score == rest[k].score && sorted[0].memory.id <= rest[k].memory.id) {
        assert rest[k] in rest;
      }
    }
  }

  // A memory of the same name matches best, then one of the same description, then similar ones by the more similar of
  // name and description.
  lemma MatchIsExact(t: Text, content: Content, k: Known)
    ensures var m := MatchOf(t, content, k);
            var d := Similarity(t, content.description, k.content.description);
            var n := Similarity(t, content.name, k.content.name);
            && m.memory == k
            && (m.reason.SameName? <==> Normalize(t, content.name) == Normalize(t, k.content.name))
            && (m.reason.SameName? ==> m.score == 3.0)
            && (m.reason.SameContent? ==> m.score == 2.0)
            && (!m.reason.SameName? ==>
                  (m.reason.SameContent? <==> Compact(t, content.description) == Compact(t, k.content.description)))
            && (m.reason.SimilarContent? ==> m.score >= d && m.score >= n && (m.score == d || m.score == n))
  {
    hide Similarity, Compact, Normalize;
  }

  // The ranking holds exactly the considered memories that reach the threshold, best first.
  lemma {:induction false} RankedHoldsMatches(t: Text, content: Content, memories: seq<Known>, exclude: Option<nat>)
    ensures ByScore(Ranked(t, content, memories, exclude))
    ensures forall x :: x in Ranked(t, content, memories, exclude) <==>
              exists k :: k in memories && k.active && exclude != Some(k.id) && x == MatchOf(t, content, k)
                          && x.score >= 0.55
  {
    if memories != [] {
      RankedHoldsMatches(t, content, memories[1..], exclude);
      var rest := Ranked(t, content, memories[1..], exclude);
      var m := MatchOf(t, content, memories[0]);
      InsertKeepsOrder(m, rest);
      InsertKeepsElements(m, rest);
      assert forall k :: k in memories <==> k == memories[0] || k in memories[1..];
    }
  }

  lemma OnlyTheNameScoresThree(t: Text, content: Content, k: Known)
    ensures MatchOf(t, content, k).score >= 3.0 <==> SharesName(t, content, k.content)
    ensures SharesName(t, content, k.content) <==> MatchOf(t, content, k).reason.SameName?
  {
    SimilarityIsAtMostOne(t, content.description, k.content.description);
    SimilarityIsAtMostOne(t, content.name, k.content.name);
    hide Similarity, SharesName, Compact;
  }

  // A memory of the same name always makes the list, ahead of everything that is merely similar: no similarity reaches
  // its score, so neither the threshold nor the cut after five can hide it.
  lemma SameNameComesFirst(t: Text, content: Content, memories: seq<Known>, exclude: Option<nat>, k: Known)
    requires k in memories && Considered(k, exclude) && SharesName(t, content, k.content)
    ensures var r := Related(t, content, memories, exclude); r != [] && r[0].reason.SameName?
  {
    hide SharesName, MatchOf, Ranked;
    RankedHoldsMatches(t, content, memories, exclude);
    OnlyTheNameScoresThree(t, content, k);
    var ranked := Ranked(t, content, memories, exclude);
    var m := MatchOf(t, content, k);
    assert m in ranked;
    var i :| 0 <= i < |ranked| && ranked[i] == m;
    assert ranked[0].score >= m.score;
    assert ranked[0] in ranked;
    var first :| first in memories && first.active && exclude != Some(first.id)
        && ranked[0] == MatchOf(t, content, first) && ranked[0].score >= 0.55;
    OnlyTheNameScoresThree(t, content, first);
  }

  // Nothing related means: no considered memory has the name, in either normal form.
  lemma NothingRelated(t: Text, content: Content, memories: seq<Known>)
    requires Sane(t) && Related(t, content, memories, None) == []
    ensures forall k :: k in memories && k.active ==> NormalizedName(t, k.content.name) != NormalizedName(t,
          content.name)
  {
    forall k | k in memories && k.active ensures NormalizedName(t, k.content.name) != NormalizedName(t, content.name) {
      NormalisersAgree(t, k.content.name);
      NormalisersAgree(t, content.name);
      if SharesName(t, content, k.content) {
        SameNameComesFirst(t, content, memories, None, k);
      }
    }
  }
}
