/**
 * Rewriting of question-mark placeholders (packages/database/src/index.ts, normalizeSql) against a lexical description
 * of SQL text after sections 4.1.2 and 4.1.5 of the PostgreSQL documentation.
 */
module NormalizeSql {
  import opened Common

  datatype Kind = Literal | Identifier | LineComment | BlockComment | DollarQuote | Placeholder | Other

  datatype Segment = Segment(kind: Kind, text: string)

  predicate IsLetter(c: char) {
    'a' <= c <= 'z' || 'A' <= c <= 'Z' || c == '_'
  }

  predicate IsWord(c: char) {
    IsLetter(c) || '0' <= c <= '9'
  }

  predicate StartsAt(sql: string, i: nat, part: string) {
    i + |part| <= |sql| && sql[i..i + |part|] == part
  }

  // The quote at position i belongs to an E'' literal.
  predicate Escaping(sql: string, i: nat)
    requires i < |sql|
  {
    i > 0 && (sql[i - 1] == 'e' || sql[i - 1] == 'E') && (i == 1 || !IsWord(sql[i - 2]))
  }

  // ---------- Where each kind of segment ends ----------

  function QuotedEnd(sql: string, i: nat, quote: char, escapes: bool): (end: nat)
    requires i <= |sql|
    ensures i <= end <= |sql|
    decreases |sql| - i
  {
    if i == |sql| then i
    else if escapes && sql[i] == '\\' && i + 1 < |sql| then QuotedEnd(sql, i + 2, quote, escapes)
    else if sql[i] == quote then
      if i + 1 < |sql| && sql[i + 1] == quote then QuotedEnd(sql, i + 2, quote, escapes) else i + 1
    else QuotedEnd(sql, i + 1, quote, escapes)
  }

  function LineEnd(sql: string, i: nat): (end: nat)
    requires i <= |sql|
    ensures i <= end <= |sql|
    decreases |sql| - i
  {
    if i == |sql| || sql[i] == '\n' then i else LineEnd(sql, i + 1)
  }

  function BlockEnd(sql: string, i: nat, depth: nat): (end: nat)
    requires i <= |sql|
    ensures i <= end <= |sql|
    decreases |sql| - i
  {
    if i == |sql| || depth == 0 then i
    else if StartsAt(sql, i, "/*") then BlockEnd(sql, i + 2, depth + 1)
    else if StartsAt(sql, i, "*/") then BlockEnd(sql, i + 2, depth - 1)
    else BlockEnd(sql, i + 1, depth)
  }

  function WordEnd(sql: string, i: nat): (end: nat)
    requires i <= |sql|
    ensures i <= end <= |sql|
    decreases |sql| - i
  {
    if i < |sql| && IsWord(sql[i]) then WordEnd(sql, i + 1) else i
  }

  // The end of a dollar-quote tag that starts at i, or i if there is none.
  function TagEnd(sql: string, i: nat): (end: nat)
    requires i < |sql|
    ensures end == i || i + 2 <= end <= |sql|
  {
    if sql[i] != '$' then i
    else
      var word := if i + 1 < |sql| && IsLetter(sql[i + 1]) then WordEnd(sql, i + 1) else i + 1;
      if word < |sql| && sql[word] == '$' then word + 1 else i
  }

  // The first place at or after i where the tag stands; the end of the text if there is none.
  function TagAt(sql: string, tag: string, i: nat): (at: nat)
    requires i <= |sql|
    ensures i <= at <= |sql|
    ensures at < |sql| ==> StartsAt(sql, at, tag)
    ensures forall k :: i <= k < at ==> !StartsAt(sql, k, tag)
    decreases |sql| - i
  {
    if i == |sql| || StartsAt(sql, i, tag) then i else TagAt(sql, tag, i + 1)
  }

  // The end of the dollar quote whose tag is the text from i to `body`.
  function DollarStop(sql: string, i: nat, body: nat): (end: nat)
    requires i < body <= |sql|
    ensures i < end <= |sql|
  {
    var tag := sql[i..body];
    var at := TagAt(sql, tag, body);
    if at < |sql| then at + |tag| else |sql|
  }

  function DollarEnd(sql: string, i: nat): (end: nat)
    requires i < |sql| && TagEnd(sql, i) > i
    ensures i < end <= |sql|
  {
    DollarStop(sql, i, TagEnd(sql, i))
  }

  // What starts at position i, and where it ends: always further on.
  function Next(sql: string, i: nat): (r: (Kind, nat))
    requires i < |sql|
    ensures i < r.1 <= |sql|
  {
    if sql[i] == '\'' then (Literal, QuotedEnd(sql, i + 1, '\'', Escaping(sql, i)))
    else if sql[i] == '"' then (Identifier, QuotedEnd(sql, i + 1, '"', false))
    else if StartsAt(sql, i, "--") then (LineComment, LineEndAfter(sql, i))
    else if StartsAt(sql, i, "/*") then (BlockComment, BlockEnd(sql, i + 2, 1))
    else if TagEnd(sql, i) > i then (DollarQuote, DollarEnd(sql, i))
    else if sql[i] == '?' && !(i + 1 < |sql| && (sql[i + 1] == '|' || sql[i + 1] == '&')) then (Placeholder, i + 1)
    else (Other, i + 1)
  }

  function LineEndAfter(sql: string, i: nat): (end: nat)
    requires StartsAt(sql, i, "--")
    ensures i < end <= |sql|
  {
    assert sql[i..i + 2][0] == sql[i];
    LineEnd(sql, i)
  }

  function Segments(sql: string, i: nat): seq<Segment>
    requires i <= |sql|
    decreases |sql| - i
  {
    if i == |sql| then []
    else var (kind, end) := Next(sql, i); [Segment(kind, sql[i..end])] + Segments(sql, end)
  }

  // ---------- The output ----------

  function Piece(s: Segment, count: nat): string {
    if s.kind.Placeholder? then "$" + Decimal(count + 1) else s.text
  }

  function Placeholders(segments: seq<Segment>): nat {
    if segments == [] then 0
    else Placeholders(segments[..|segments| - 1]) + if segments[|segments| - 1].kind.Placeholder? then 1 else 0
  }

  // Each segment is copied, except that the k-th placeholder becomes $k.
  function Render(segments: seq<Segment>): string {
    if segments == [] then ""
    else
      var front := segments[..|segments| - 1];
      Render(front) + Piece(segments[|segments| - 1], Placeholders(front))
  }

  function Texts(segments: seq<Segment>): seq<string> {
    if segments == [] then [] else [segments[0].text] + Texts(segments[1..])
  }

  // The segments are the text, cut up: nothing is lost, added or moved.
  lemma {:induction false} SegmentsCover(sql: string, i: nat)
    requires i <= |sql|
    ensures Concat(Texts(Segments(sql, i))) == sql[i..]
    decreases |sql| - i
  {
    if i < |sql| {
      var (kind, end) := Next(sql, i);
      SegmentsCover(sql, end);
      var segments := Segments(sql, i);
      assert segments[1..] == Segments(sql, end);
      assert Texts(segments)[1..] == Texts(segments[1..]);
      assert sql[i..] == sql[i..end] + sql[end..];
    }
  }

  // No segment is empty, and every placeholder is a lone question mark.
  lemma {:induction false} PlaceholdersAreQuestionMarks(sql: string, i: nat)
    requires i <= |sql|
    ensures forall s :: s in Segments(sql, i) ==> s.text != "" && (s.kind.Placeholder? ==> s.text == "?")
    decreases |sql| - i
  {
    if i < |sql| {
      PlaceholdersAreQuestionMarks(sql, Next(sql, i).1);
    }
  }

  // Without placeholders the text is unchanged.
  lemma {:induction false} RenderCopies(segments: seq<Segment>)
    requires forall s :: s in segments ==> !s.kind.Placeholder?
    ensures Render(segments) == Concat(Texts(segments))
  {
    if segments != [] {
      var front, last := segments[..|segments| - 1], segments[|segments| - 1];
      RenderCopies(front);
      TextsLast(front, last);
      assert segments == front + [last];
      ConcatAppend(Texts(front), [last.text]);
      assert [last.text][1..] == [] && Concat([]) == "";
      assert Concat([last.text]) == last.text;
    }
  }

  // The placeholders before a segment.
  function Earlier(segments: seq<Segment>, i: nat): set<nat>
    requires i <= |segments|
  {
    set j: nat | 0 <= j < i && segments[j].kind.Placeholder?
  }

  lemma {:induction false} PlaceholdersAreCounted(segments: seq<Segment>)
    ensures Placeholders(segments) == |Earlier(segments, |segments|)|
  {
    if segments != [] {
      var n := |segments| - 1;
      PlaceholdersAreCounted(segments[..n]);
      assert Earlier(segments[..n], n) == Earlier(segments, n);
      assert Earlier(segments, n + 1) == Earlier(segments, n) + if segments[n].kind.Placeholder? then {n} else {};
    }
  }

  ghost predicate Numbered(segments: seq<Segment>, parts: seq<string>) {
    && |parts| == |segments|
    && forall i :: 0 <= i < |segments| ==>
         parts[i] == if segments[i].kind.Placeholder? then "$" + Decimal(|Earlier(segments, i)| + 1)
                     else segments[i].text
  }

  // The output is made of one part for each segment: a placeholder is replaced by a dollar sign and its number among
  // the placeholders, from one, and everything else is copied.
  lemma {:induction false} PlaceholdersAreNumbered(segments: seq<Segment>) returns (parts: seq<string>)
    ensures Render(segments) == Concat(parts) && Numbered(segments, parts)
  {
    if segments == [] {
      parts := [];
    } else {
      var n := |segments| - 1;
      var front, last := segments[..n], segments[n];
      var rest := PlaceholdersAreNumbered(front);
      var piece := Piece(last, Placeholders(front));
      parts := rest + [piece];
      PlaceholdersAreCounted(front);
      NumberedOneMore(segments, rest, piece);
      hide Numbered;
      ConcatAppend(rest, [piece]);
      assert [piece][1..] == [] && Concat([]) == "" && piece + "" == piece;
    }
  }

  lemma NumberedOneMore(segments: seq<Segment>, rest: seq<string>, piece: string)
    requires segments != [] && Numbered(segments[..|segments| - 1], rest)
    requires var n := |segments| - 1;
             piece == if segments[n].kind.Placeholder? then "$" + Decimal(|Earlier(segments[..n], n)| + 1)
                      else segments[n].text
    ensures Numbered(segments, rest + [piece])
  {
    hide Decimal;
    var n := |segments| - 1;
    forall i | 0 <= i <= n ensures Earlier(segments[..n], i) == Earlier(segments, i) {
    }
  }

  lemma {:induction false} TextsLast(front: seq<Segment>, last: Segment)
    ensures Texts(front + [last]) == Texts(front) + [last.text]
  {
    if front == [] {
      assert ([] + [last])[1..] == [];
    } else {
      assert (front + [last])[1..] == front[1..] + [last];
      TextsLast(front[1..], last);
    }
  }

  // ---------- The segments are the ones that the grammar describes ----------

  // Between i and j stand whole items of a quoted text: doubled quotes, escaped characters, other characters.
  predicate QuotedItems(sql: string, i: nat, j: nat, quote: char, escapes: bool)
    requires i <= j <= |sql|
    decreases j - i
  {
    || i == j
    || (escapes && sql[i] == '\\' && i + 2 <= j && QuotedItems(sql, i + 2, j, quote, escapes))
    || (sql[i] == quote && !(escapes && quote == '\\') && i + 2 <= j && sql[i + 1] == quote
        && QuotedItems(sql, i + 2, j, quote, escapes))
    || (sql[i] != quote && !(escapes && sql[i] == '\\') && QuotedItems(sql, i + 1, j, quote, escapes))
  }

  // The rest of a quoted text from i on: items up to a single quote, or up to the end of the statement.
  predicate ClosesQuoted(sql: string, i: nat, end: nat, quote: char, escapes: bool)
    requires i <= end <= |sql|
  {
    || (i < end && sql[end - 1] == quote && !(end < |sql| && sql[end] == quote)
        && QuotedItems(sql, i, end - 1, quote, escapes))
    || (end == |sql| && QuotedItems(sql, i, end, quote, escapes))
    || (end == |sql| && i < end && escapes && sql[end - 1] == '\\' && QuotedItems(sql, i, end - 1, quote, escapes))
  }

  // A quoted text ends in exactly one place, and the lexer finds it.
  lemma {:induction false} QuotedEndIsExact(sql: string, i: nat, end: nat, quote: char, escapes: bool)
    requires i <= end <= |sql| && quote != '\\'
    ensures ClosesQuoted(sql, i, end, quote, escapes) <==> end == QuotedEnd(sql, i, quote, escapes)
    decreases |sql| - i
  {
    if i < |sql| {
      var next :=
        if escapes && sql[i] == '\\' && i + 1 < |sql| then i + 2
        else if sql[i] == quote && i + 1 < |sql| && sql[i + 1] == quote then i + 2
        else i + 1;
      if sql[i] == quote && next == i + 1 {
      } else if next <= end {
        QuotedEndIsExact(sql, next, end, quote, escapes);
      }
    }
  }

  lemma {:induction false} LineEndIsExact(sql: string, i: nat, end: nat)
    requires i <= end <= |sql|
    ensures end == LineEnd(sql, i) <==>
            (forall k :: i <= k < end ==> sql[k] != '\n') && (end == |sql| || sql[end] == '\n')
    decreases |sql| - i
  {
    if i < |sql| && sql[i] != '\n' && i < end {
      LineEndIsExact(sql, i + 1, end);
    }
  }

  // A dollar-quoted text ends with the first return of its tag.
  lemma DollarEndIsExact(sql: string, i: nat, end: nat)
    requires i < |sql| && TagEnd(sql, i) > i
    ensures var body := TagEnd(sql, i);
            var tag := sql[i..body];
            end == DollarEnd(sql, i) <==>
              || (body + |tag| <= end <= |sql| && StartsAt(sql, end - |tag|, tag)
                  && forall k :: body <= k < end - |tag| ==> !StartsAt(sql, k, tag))
              || (end == |sql| && forall k :: body <= k < |sql| ==> !StartsAt(sql, k, tag))
  {
    var body := TagEnd(sql, i);
    var tag := sql[i..body];
    var at := TagAt(sql, tag, body);
    assert |tag| >= 2;
    if body + |tag| <= end <= |sql| && StartsAt(sql, end - |tag|, tag)
      && forall k :: body <= k < end - |tag| ==> !StartsAt(sql, k, tag) {
      assert at <= end - |tag|;
      assert StartsAt(sql, at, tag);
    }
  }

  // Block comments nest: a comment holds characters and whole comments.
  ghost predicate BlockItems(sql: string, i: nat, j: nat)
    requires i <= j <= |sql|
    decreases j - i, 1
  {
    || i == j
    || (!StartsAt(sql, i, "/*") && !StartsAt(sql, i, "*/") && BlockItems(sql, i + 1, j))
    || exists k :: i < k <= j && Block(sql, i, k) && BlockItems(sql, k, j)
  }

  ghost predicate Block(sql: string, i: nat, j: nat)
    requires i <= j <= |sql|
    decreases j - i, 0
  {
    i + 4 <= j && StartsAt(sql, i, "/*") && StartsAt(sql, j - 2, "*/") && BlockItems(sql, i + 2, j - 2)
  }

  lemma {:induction false} ItemsKeepDepth(sql: string, i: nat, j: nat, depth: nat)
    requires i <= j <= |sql| && BlockItems(sql, i, j) && depth > 0
    ensures BlockEnd(sql, i, depth) == BlockEnd(sql, j, depth)
    decreases j - i, 1
  {
    if i < j {
      if !StartsAt(sql, i, "/*") && !StartsAt(sql, i, "*/") && BlockItems(sql, i + 1, j) {
        ItemsKeepDepth(sql, i + 1, j, depth);
      } else {
        var k :| i < k <= j && Block(sql, i, k) && BlockItems(sql, k, j);
        BlockKeepsDepth(sql, i, k, depth);
        ItemsKeepDepth(sql, k, j, depth);
      }
    }
  }

  lemma {:induction false} BlockKeepsDepth(sql: string, i: nat, j: nat, depth: nat)
    requires i <= j <= |sql| && Block(sql, i, j)
    ensures BlockEnd(sql, i + 2, depth + 1) == BlockEnd(sql, j, depth)
    decreases j - i, 0
  {
    ItemsKeepDepth(sql, i + 2, j - 2, depth + 1);
    OpenIsNotClose(sql, j - 2);
  }

  lemma OpenIsNotClose(sql: string, i: nat)
    ensures !(StartsAt(sql, i, "/*") && StartsAt(sql, i, "*/"))
  {
  }

  // So every well nested comment is one segment, whatever it contains.
  lemma BlockIsOneSegment(sql: string, i: nat, j: nat)
    requires i <= j <= |sql| && Block(sql, i, j)
    ensures BlockEnd(sql, i + 2, 1) == j
  {
    BlockKeepsDepth(sql, i, j, 0);
  }

  // How many comments are still open where the scan stops.
  function OpenAtEnd(sql: string, i: nat, depth: nat): nat
    requires i <= |sql|
    decreases |sql| - i
  {
    if i == |sql| || depth == 0 then depth
    else if StartsAt(sql, i, "/*") then OpenAtEnd(sql, i + 2, depth + 1)
    else if StartsAt(sql, i, "*/") then OpenAtEnd(sql, i + 2, depth - 1)
    else OpenAtEnd(sql, i + 1, depth)
  }

  // Items and a closing mark, `depth` times over.
  ghost predicate Closes(sql: string, i: nat, j: nat, depth: nat)
    requires i <= j <= |sql|
    decreases depth
  {
    if depth == 0 then i == j
    else exists k :: i <= k && k + 2 <= j && BlockItems(sql, i, k) && StartsAt(sql, k, "*/")
           && Closes(sql, k + 2, j, depth - 1)
  }

  lemma {:induction false} ScanCloses(sql: string, i: nat, depth: nat)
    requires i <= |sql| && OpenAtEnd(sql, i, depth) == 0
    ensures Closes(sql, i, BlockEnd(sql, i, depth), depth)
    decreases |sql| - i
  {
    if i < |sql| && depth > 0 {
      var end := BlockEnd(sql, i, depth);
      if StartsAt(sql, i, "/*") {
        ScanCloses(sql, i + 2, depth + 1);
        var k :| i + 2 <= k && k + 2 <= end && BlockItems(sql, i + 2, k) && StartsAt(sql, k, "*/")
            && Closes(sql, k + 2, end, depth);
        assert Block(sql, i, k + 2);
        var l :| k + 2 <= l && l + 2 <= end && BlockItems(sql, k + 2, l) && StartsAt(sql, l, "*/")
            && Closes(sql, l + 2, end, depth - 1);
        assert BlockItems(sql, i, l);
      } else if StartsAt(sql, i, "*/") {
        ScanCloses(sql, i + 2, depth - 1);
        assert BlockItems(sql, i, i);
      } else {
        ScanCloses(sql, i + 1, depth);
        var k :| i + 1 <= k && k + 2 <= end && BlockItems(sql, i + 1, k) && StartsAt(sql, k, "*/")
            && Closes(sql, k + 2, end, depth - 1);
        assert BlockItems(sql, i, k);
      }
    }
  }

  lemma {:induction false} OpenMeansEnd(sql: string, i: nat, depth: nat)
    requires i <= |sql| && OpenAtEnd(sql, i, depth) > 0
    ensures BlockEnd(sql, i, depth) == |sql|
    decreases |sql| - i
  {
    if i < |sql| && depth > 0 {
      if StartsAt(sql, i, "/*") {
        OpenMeansEnd(sql, i + 2, depth + 1);
      } else if StartsAt(sql, i, "*/") {
        OpenMeansEnd(sql, i + 2, depth - 1);
      } else {
        OpenMeansEnd(sql, i + 1, depth);
      }
    }
  }

  // And a comment segment is a well nested comment, or an unfinished one that runs to the end.
  lemma CommentSegmentNests(sql: string, i: nat)
    requires i + 2 <= |sql| && StartsAt(sql, i, "/*")
    ensures Block(sql, i, BlockEnd(sql, i + 2, 1)) || BlockEnd(sql, i + 2, 1) == |sql|
  {
    if OpenAtEnd(sql, i + 2, 1) == 0 {
      ScanCloses(sql, i + 2, 1);
    } else {
      OpenMeansEnd(sql, i + 2, 1);
    }
  }

  // ---------- The same text as PostgreSQL cuts it ----------

  // A lexer that follows the PostgreSQL documentation, not the code: it knows where identifiers begin and end (section
  // 4.1.1), so that an E makes an escape string only as a token of its own and a dollar sign may belong to an
  // identifier; it lets an escape string go on after a line break (4.1.2.1, 4.1.2.2); its dollar tags are identifiers
  // (4.1.2.4); and its line comments end at either kind of line break (4.1.5). Placeholders are no part of PostgreSQL:
  // a question mark outside all quotes and comments is one unless it begins the operator ?| or ?&.

  // What stands right before a position: a lone E or another identifier, a number, or an escape string followed by
  // nothing but white space and line comments, with or without a line break.
  datatype Before = Gap | LoneE | Word | Number | AfterEscapes(broken: bool)

  predicate StartsIdentifier(c: char) {
    IsLetter(c) || c >= '\U{0080}'
  }

  predicate IsDigit(c: char) {
    '0' <= c <= '9'
  }

  predicate IsBreak(c: char) {
    c == '\n' || c == '\r'
  }

  predicate IsBlank(c: char) {
    IsBreak(c) || c in " \t\U{000B}\U{000C}"
  }

  predicate InIdentifier(before: Before) {
    before.Word? || before.LoneE?
  }

  // A single quote here opens an escape string, or goes on with one.
  predicate Escapes(before: Before) {
    before.LoneE? || before == AfterEscapes(true)
  }

  function TagWordEnd(sql: string, i: nat): (end: nat)
    requires i <= |sql|
    ensures i <= end <= |sql|
    decreases |sql| - i
  {
    if i < |sql| && (StartsIdentifier(sql[i]) || IsDigit(sql[i])) then TagWordEnd(sql, i + 1) else i
  }

  function PgTagEnd(sql: string, i: nat): (end: nat)
    requires i < |sql|
    ensures end == i || i + 2 <= end <= |sql|
  {
    if sql[i] != '$' then i
    else
      var word := if i + 1 < |sql| && StartsIdentifier(sql[i + 1]) then TagWordEnd(sql, i + 1) else i + 1;
      if word < |sql| && sql[word] == '$' then word + 1 else i
  }

  function PgLineEnd(sql: string, i: nat): (end: nat)
    requires i <= |sql|
    ensures i <= end <= |sql|
    decreases |sql| - i
  {
    if i == |sql| || IsBreak(sql[i]) then i else PgLineEnd(sql, i + 1)
  }

  function NextToken(sql: string, i: nat, before: Before): (r: (Kind, nat))
    requires i < |sql|
    ensures i < r.1 <= |sql|
  {
    if sql[i] == '\'' then (Literal, QuotedEnd(sql, i + 1, '\'', Escapes(before)))
    else if sql[i] == '"' then (Identifier, QuotedEnd(sql, i + 1, '"', false))
    else if StartsAt(sql, i, "--") then (LineComment, PgLineEnd(sql, i + 2))
    else if StartsAt(sql, i, "/*") then (BlockComment, BlockEnd(sql, i + 2, 1))
    else if !InIdentifier(before) && PgTagEnd(sql, i) > i then (DollarQuote, DollarStop(sql, i, PgTagEnd(sql, i)))
    else if sql[i] == '?' && !(i + 1 < |sql| && (sql[i + 1] == '|' || sql[i + 1] == '&')) then (Placeholder, i + 1)
    else (Other, i + 1)
  }

  // One more character that is neither quoted nor a comment.
  function AfterChar(c: char, before: Before): Before {
    if StartsIdentifier(c) then if InIdentifier(before) || before.Number? || (c != 'e' && c != 'E') then Word else LoneE
    else if InIdentifier(before) && (IsDigit(c) || c == '$') then Word
    else if IsDigit(c) then Number
    else if before.AfterEscapes? && IsBlank(c) then AfterEscapes(before.broken || IsBreak(c))
    else Gap
  }

  function AfterToken(sql: string, i: nat, before: Before): Before
    requires i < |sql|
  {
    match NextToken(sql, i, before).0
    case Literal => if Escapes(before) then AfterEscapes(false) else Gap
    case LineComment => if before.AfterEscapes? then before else Gap
    case Other => AfterChar(sql[i], before)
    case _ => Gap
  }

  function Tokens(sql: string, i: nat, before: Before): seq<Segment>
    requires i <= |sql|
    decreases |sql| - i
  {
    if i == |sql| then []
    else
      var (kind, end) := NextToken(sql, i, before);
      [Segment(kind, sql[i..end])] + Tokens(sql, end, AfterToken(sql, i, before))
  }

  // ---------- Where the two differ ----------

  // A single quote that only one side takes for the start of an escape string, where that moves the end.
  predicate QuoteMisread(sql: string, i: nat, before: Before)
    requires i < |sql|
  {
    sql[i] == '\'' && Escapes(before) != Escaping(sql, i)
        && QuotedEnd(sql, i + 1, '\'', true) != QuotedEnd(sql, i + 1, '\'', false)
  }

  // A line comment with a carriage return in it.
  predicate ReturnInComment(sql: string, i: nat)
    requires i < |sql|
  {
    StartsAt(sql, i, "--") && '\r' in sql[i + 2..LineEnd(sql, i + 2)]
  }

  // A dollar sign inside an identifier that looks like the start of a quote, or a tag with letters beyond ASCII.
  predicate TagMisread(sql: string, i: nat, before: Before)
    requires i < |sql|
  {
    if InIdentifier(before) then TagEnd(sql, i) > i else PgTagEnd(sql, i) > i && TagEnd(sql, i) == i
  }

  predicate Miscut(sql: string, i: nat, before: Before)
    requires i <= |sql|
    decreases |sql| - i
  {
    && i < |sql|
    && (|| QuoteMisread(sql, i, before) || ReturnInComment(sql, i) || TagMisread(sql, i, before)
        || Miscut(sql, NextToken(sql, i, before).1, AfterToken(sql, i, before)))
  }

  lemma {:induction false} LineEndsAgree(sql: string, i: nat)
    requires i <= |sql|
    ensures PgLineEnd(sql, i) == LineEnd(sql, i) <==> '\r' !in sql[i..LineEnd(sql, i)]
    decreases |sql| - i
  {
    if i < |sql| && sql[i] != '\n' {
      var line := sql[i..LineEnd(sql, i)];
      assert line == [sql[i]] + sql[i + 1..LineEnd(sql, i + 1)];
      LineEndsAgree(sql, i + 1);
    }
  }

  lemma {:induction false} WordEndsAgree(sql: string, i: nat)
    requires i <= |sql| && WordEnd(sql, i) < |sql| && sql[WordEnd(sql, i)] == '$'
    ensures TagWordEnd(sql, i) == WordEnd(sql, i)
    decreases |sql| - i
  {
    if IsWord(sql[i]) {
      WordEndsAgree(sql, i + 1);
    }
  }

  // Every tag of the code is one of PostgreSQL's.
  lemma TagsAgree(sql: string, i: nat)
    requires i < |sql| && TagEnd(sql, i) > i
    ensures PgTagEnd(sql, i) == TagEnd(sql, i) && sql[i] == '$'
  {
    if IsLetter(sql[i + 1]) {
      WordEndsAgree(sql, i + 1);
    }
  }

  lemma CommentsAgree(sql: string, i: nat, before: Before)
    requires i < |sql| && StartsAt(sql, i, "--")
    ensures NextToken(sql, i, before) == Next(sql, i) <==> !ReturnInComment(sql, i)
    ensures !QuoteMisread(sql, i, before) && !TagMisread(sql, i, before)
  {
    assert sql[i..i + 2][0] == sql[i] && sql[i..i + 2][1] == sql[i + 1];
    assert LineEnd(sql, i) == LineEnd(sql, i + 1) == LineEnd(sql, i + 2);
    LineEndsAgree(sql, i + 2);
  }

  // One token: the two lexers cut it alike exactly if none of the three things stands there.
  lemma TokenAgrees(sql: string, i: nat, before: Before)
    requires i < |sql|
    ensures NextToken(sql, i, before) == Next(sql, i)
            <==> !QuoteMisread(sql, i, before) && !ReturnInComment(sql, i) && !TagMisread(sql, i, before)
  {
    if StartsAt(sql, i, "--") {
      CommentsAgree(sql, i, before);
    } else if sql[i] == '$' {
      assert !StartsAt(sql, i, "/*");
      if TagEnd(sql, i) > i {
        TagsAgree(sql, i);
      }
    } else {
      assert TagEnd(sql, i) == i && PgTagEnd(sql, i) == i;
    }
  }

  // The code cuts a text as PostgreSQL does exactly if nowhere, as PostgreSQL reads it, one of the three things stands.
  lemma {:induction false} CutsLikePostgres(sql: string, i: nat, before: Before)
    requires i <= |sql|
    ensures Segments(sql, i) == Tokens(sql, i, before) <==> !Miscut(sql, i, before)
    decreases |sql| - i
  {
    hide Next, NextToken, QuoteMisread, ReturnInComment, TagMisread, AfterToken;
    if i < |sql| {
      TokenAgrees(sql, i, before);
      var a, b := Segments(sql, i), Tokens(sql, i, before);
      var end := NextToken(sql, i, before).1;
      if NextToken(sql, i, before) == Next(sql, i) {
        CutsLikePostgres(sql, end, AfterToken(sql, i, before));
        assert a[1..] == Segments(sql, end) && b[1..] == Tokens(sql, end, AfterToken(sql, i, before));
        assert a[0] == b[0];
      } else {
        assert |a[0].text| == Next(sql, i).1 - i && |b[0].text| == end - i;
        assert a[0] != b[0];
      }
    }
  }

  // ---------- Texts that are cut differently ----------

  const MARK := Segment(Placeholder, "?")

  predicate IsPlain(c: char) {
    c != '\'' && c != '"' && c != '-' && c != '/' && c != '$' && c != '?'
  }

  lemma StartsWith(sql: string, i: nat, part: string)
    requires i < |sql| && part != "" && sql[i] != part[0]
    ensures !StartsAt(sql, i, part)
  {
  }

  // A plain character is a token of its own, and so is a dollar sign in an identifier.
  lemma PlainToken(sql: string, i: nat, before: Before)
    requires i < |sql| && (IsPlain(sql[i]) || (sql[i] == '$' && InIdentifier(before)))
    ensures NextToken(sql, i, before) == (Other, i + 1)
  {
    StartsWith(sql, i, "--");
    StartsWith(sql, i, "/*");
  }

  lemma SeenAfter(sql: string, i: nat, before: Before, after: Before)
    requires i < |sql| && (IsPlain(sql[i]) || (sql[i] == '$' && InIdentifier(before)))
          && AfterChar(sql[i], before) == after
    requires MARK in Tokens(sql, i + 1, after)
    ensures MARK in Tokens(sql, i, before)
  {
    PlainToken(sql, i, before);
    hide NextToken, AfterChar;
  }

  lemma SeenHere(sql: string, i: nat, before: Before)
    requires i + 1 == |sql| && sql[i] == '?'
    ensures MARK in Tokens(sql, i, before)
  {
    assert NextToken(sql, i, before) == (Placeholder, i + 1) && sql[i..i + 1] == "?";
    hide NextToken;
    assert Tokens(sql, i, before)[0] == MARK;
  }

  // For the code, so is a plain character and a dollar sign that starts no tag.
  lemma PlainSegment(sql: string, i: nat)
    requires i < |sql| && (IsPlain(sql[i]) || (sql[i] == '$' && TagEnd(sql, i) == i))
    ensures Next(sql, i) == (Other, i + 1)
  {
    StartsWith(sql, i, "--");
    StartsWith(sql, i, "/*");
  }

  lemma CopiedFirst(sql: string, i: nat)
    requires i < |sql| && (IsPlain(sql[i]) || (sql[i] == '$' && TagEnd(sql, i) == i))
    ensures MARK in Segments(sql, i) <==> MARK in Segments(sql, i + 1)
  {
    PlainSegment(sql, i);
    hide Next, TagEnd;
  }

  lemma LastSegment(sql: string, i: nat)
    requires i < |sql| && Next(sql, i).1 == |sql| && !Next(sql, i).0.Placeholder?
    ensures MARK !in Segments(sql, i)
  {
    hide Next;
    assert Segments(sql, |sql|) == [];
  }

  // A dollar sign in an identifier: the code sees a dollar quote, and misses the placeholder.
  lemma DollarHidesPlaceholder()
    ensures var sql := "a$b$?"; MARK !in Segments(sql, 0) && MARK in Tokens(sql, 0, Gap)
  {
    hide Segments, Tokens;
    HiddenByDollar("a$b$?");
  }

  lemma HiddenByDollar(sql: string)
    requires |sql| == 5 && sql[0] == 'a' && sql[1] == '$' && sql[2] == 'b' && sql[3] == '$' && sql[4] == '?'
    ensures MARK !in Segments(sql, 0) && MARK in Tokens(sql, 0, Gap)
  {
    hide Segments, Tokens, Next, NextToken;
    SeenHere(sql, 4, Word);
    SeenAfter(sql, 3, Word, Word);
    SeenAfter(sql, 2, Word, Word);
    SeenAfter(sql, 1, Word, Word);
    SeenAfter(sql, 0, Gap, Word);
    QuotedByCode(sql);
  }

  lemma QuotedByCode(sql: string)
    requires |sql| == 5 && sql[0] == 'a' && sql[1] == '$' && sql[2] == 'b' && sql[3] == '$' && sql[4] == '?'
    ensures MARK !in Segments(sql, 0)
  {
    assert WordEnd(sql, 2) == 3 && TagEnd(sql, 1) == 4;
    assert sql[1..4] == "$b$";
    assert !StartsAt(sql, 4, "$b$");
    TagIsQuote(sql, 1);
    LastSegment(sql, 1);
    CopiedFirst(sql, 0);
  }

  lemma TagIsQuote(sql: string, i: nat)
    requires i < |sql| && TagEnd(sql, i) > i
    ensures Next(sql, i) == (DollarQuote, DollarEnd(sql, i))
  {
    assert sql[i] == '$';
  }

  // An identifier that ends in $e: the code sees an escape string, which does not end at the second quote.
  lemma EscapeHidesPlaceholder()
    ensures var sql := "a$e'\\' ?"; MARK !in Segments(sql, 0) && MARK in Tokens(sql, 0, Gap)
  {
    hide Segments, Tokens;
    HiddenByEscape("a$e'\\' ?");
  }

  lemma HiddenByEscape(sql: string)
    requires |sql| == 8 && sql[0] == 'a' && sql[1] == '$' && sql[2] == 'e' && sql[3] == '\'' && sql[4] == '\\'
          && sql[5] == '\'' && sql[6] == ' ' && sql[7] == '?'
    ensures MARK !in Segments(sql, 0) && MARK in Tokens(sql, 0, Gap)
  {
    hide Segments, Tokens;
    EscapedByCode(sql);
    SeenHere(sql, 7, Gap);
    SeenAfter(sql, 6, Gap, Gap);
    SeenAfterQuote(sql, 3, 6);
    SeenAfter(sql, 2, Word, Word);
    SeenAfter(sql, 1, Word, Word);
    SeenAfter(sql, 0, Gap, Word);
  }

  lemma SeenAfterQuote(sql: string, i: nat, end: nat)
    requires i + 3 == end < |sql| && sql[i] == sql[i + 2] == '\'' && sql[i + 1] == '\\' && sql[end] != '\''
    requires MARK in Tokens(sql, end, Gap)
    ensures MARK in Tokens(sql, i, Word)
  {
    EndsAtQuote(sql, i, end);
    hide NextToken;
  }

  lemma EndsAtQuote(sql: string, i: nat, end: nat)
    requires i + 3 == end < |sql| && sql[i] == sql[i + 2] == '\'' && sql[i + 1] == '\\' && sql[end] != '\''
    ensures NextToken(sql, i, Word) == (Literal, end)
  {
    assert QuotedEnd(sql, i + 1, '\'', false) == QuotedEnd(sql, i + 2, '\'', false) == end;
  }

  lemma EscapedByCode(sql: string)
    requires |sql| == 8 && sql[0] == 'a' && sql[1] == '$' && sql[2] == 'e' && sql[3] == '\'' && sql[4] == '\\'
          && sql[5] == '\'' && sql[6] == ' ' && sql[7] == '?'
    ensures MARK !in Segments(sql, 0)
  {
    EscapedToTheEnd(sql, 3);
    LastSegment(sql, 3);
    CopiedFirst(sql, 2);
    assert WordEnd(sql, 2) == WordEnd(sql, 3) == 3;
    CopiedFirst(sql, 1);
    CopiedFirst(sql, 0);
  }

  lemma EscapedToTheEnd(sql: string, i: nat)
    requires i + 5 == |sql| && Escaping(sql, i)
    requires sql[i] == '\'' && sql[i + 1] == '\\' && sql[i + 3] == ' ' && sql[i + 4] == '?'
    ensures Next(sql, i) == (Literal, |sql|)
  {
    var j := i + 3;
    assert QuotedEnd(sql, i + 1, '\'', true) == QuotedEnd(sql, j, '\'', true);
    assert QuotedEnd(sql, j, '\'', true) == QuotedEnd(sql, j + 1, '\'', true) == QuotedEnd(sql, j + 2, '\'', true)
        == |sql|;
  }

  // A carriage return ends a line comment, but not for the code.
  lemma ReturnHidesPlaceholder()
    ensures var sql := "--\r?"; MARK !in Segments(sql, 0) && MARK in Tokens(sql, 0, Gap)
  {
    hide Segments, Tokens;
    HiddenByComment("--\r?");
  }

  lemma HiddenByComment(sql: string)
    requires |sql| == 4 && sql[0] == '-' && sql[1] == '-' && sql[2] == '\r' && sql[3] == '?'
    ensures MARK !in Segments(sql, 0) && MARK in Tokens(sql, 0, Gap)
  {
    assert StartsAt(sql, 0, "--");
    assert LineEnd(sql, 0) == LineEnd(sql, 1) == LineEnd(sql, 2) == LineEnd(sql, 3) == 4;
    LastSegment(sql, 0);
    SeenHere(sql, 3, Gap);
    SeenAfter(sql, 2, Gap, Gap);
    assert NextToken(sql, 0, Gap) == (LineComment, 2);
  }

  // A tag beyond ASCII: the code sees no dollar quote, and numbers a question mark in it.
  lemma QuestionMarkInQuote()
    ensures var sql := "$\U{00E9}$?$\U{00E9}$"; MARK in Segments(sql, 0) && MARK !in Tokens(sql, 0, Gap)
  {
    hide Segments, Tokens;
    NumberedInQuote("$\U{00E9}$?$\U{00E9}$");
  }

  lemma NumberedInQuote(sql: string)
    requires |sql| == 7 && sql[0] == '$' && sql[1] == '\U{00E9}' && sql[2] == '$' && sql[3] == '?' && sql[4] == '$'
          && sql[5] == '\U{00E9}' && sql[6] == '$'
    ensures MARK in Segments(sql, 0) && MARK !in Tokens(sql, 0, Gap)
  {
    hide Segments, Tokens;
    WholeIsQuoted(sql);
    assert TagEnd(sql, 0) == 0 && TagEnd(sql, 2) == 2;
    MarkedFirst(sql, 3);
    CopiedFirst(sql, 2);
    CopiedFirst(sql, 1);
    CopiedFirst(sql, 0);
  }

  lemma MarkedFirst(sql: string, i: nat)
    requires i + 1 < |sql| && sql[i] == '?' && sql[i + 1] == '$'
    ensures MARK in Segments(sql, i)
  {
    assert Next(sql, i) == (Placeholder, i + 1) && sql[i..i + 1] == "?";
    hide Next;
    assert Segments(sql, i)[0] == MARK;
  }

  lemma WholeIsQuoted(sql: string)
    requires |sql| == 7 && sql[0] == '$' && sql[1] == '\U{00E9}' && sql[2] == '$' && sql[3] == '?' && sql[4] == '$'
          && sql[5] == '\U{00E9}' && sql[6] == '$'
    ensures MARK !in Tokens(sql, 0, Gap)
  {
    assert TagWordEnd(sql, 1) == TagWordEnd(sql, 2) == 2 && PgTagEnd(sql, 0) == 3;
    assert sql[0..3] == sql[4..7] == "$\U{00E9}$";
    assert !StartsAt(sql, 3, "$\U{00E9}$") && StartsAt(sql, 4, "$\U{00E9}$");
    assert NextToken(sql, 0, Gap) == (DollarQuote, 7);
    hide NextToken;
    assert Tokens(sql, 0, Gap) == [Segment(DollarQuote, sql[0..7])] + Tokens(sql, 7, Gap);
  }

  // ---------- The loop ----------

  method CopyQuoted(sql: string, start: nat) returns (index: nat)
    requires start < |sql| && (sql[start] == '\'' || sql[start] == '"')
    ensures index == Next(sql, start).1
  {
    var quote := sql[start];
    var escaped := quote == '\'' && Escaping(sql, start);
    index := start + 1;
    while index < |sql|
      invariant start < index <= |sql|
      invariant QuotedEnd(sql, start + 1, quote, escaped) == QuotedEnd(sql, index, quote, escaped)
    {
      var next := sql[index];
      index := index + 1;
      if escaped && next == '\\' && index < |sql| {
        index := index + 1;
      } else if next == quote {
        if index < |sql| && sql[index] == quote {
          index := index + 1;
        } else {
          break;
        }
      }
    }
  }

  method CopyBlock(sql: string, start: nat) returns (index: nat)
    requires StartsAt(sql, start, "/*")
    ensures index == BlockEnd(sql, start + 2, 1)
  {
    var depth := 1;
    index := start + 2;
    while index < |sql| && depth > 0
      invariant start < index <= |sql|
      invariant BlockEnd(sql, start + 2, 1) == BlockEnd(sql, index, depth)
    {
      if StartsAt(sql, index, "/*") {
        depth := depth + 1;
        index := index + 2;
      } else if StartsAt(sql, index, "*/") {
        depth := depth - 1;
        index := index + 2;
      } else {
        index := index + 1;
      }
    }
  }

  lemma SegmentsStep(sql: string, index: nat, done: seq<Segment>)
    requires index < |sql|
    ensures var (kind, end) := Next(sql, index);
            done + Segments(sql, index) == done + [Segment(kind, sql[index..end])] + Segments(sql, end)
  {
  }

  // One turn of the outer loop: what is appended to the output, and where the scan goes on.
  method CopySegment(sql: string, index: nat, parameter: nat) returns (piece: string, end: nat, count: nat)
    requires index < |sql|
    ensures end == Next(sql, index).1
    ensures piece == Piece(Segment(Next(sql, index).0, sql[index..end]), parameter)
    ensures count == parameter + if Next(sql, index).0.Placeholder? then 1 else 0
  {
    count := parameter;
    if sql[index] == '\'' || sql[index] == '"' {
      end := CopyQuoted(sql, index);
    } else if StartsAt(sql, index, "--") {
      end := LineEndAfter(sql, index);
    } else if StartsAt(sql, index, "/*") {
      end := CopyBlock(sql, index);
    } else if TagEnd(sql, index) > index {
      end := DollarEnd(sql, index);
    } else if sql[index] == '?' && !(index + 1 < |sql| && (sql[index + 1] == '|' || sql[index + 1] == '&')) {
      count := count + 1;
      return "$" + Decimal(count), index + 1, count;
    } else {
      end := index + 1;
    }
    piece := sql[index..end];
  }

  // Text goes in, text comes out; `$k` stands where the k-th placeholder stood, and the rest is untouched.
  method Normalize(sql: string) returns (output: string, parameter: nat)
    ensures output == Render(Segments(sql, 0))
    ensures parameter == Placeholders(Segments(sql, 0))
  {
    hide Next, Segments, Render, Placeholders, Piece;
    output, parameter := "", 0;
    var index := 0;
    ghost var done: seq<Segment> := [];
    NothingRendered();
    assert done + Segments(sql, 0) == Segments(sql, 0);
    while index < |sql|
      invariant index <= |sql|
      invariant Segments(sql, 0) == done + Segments(sql, index)
      invariant output == Render(done) && parameter == Placeholders(done)
      decreases |sql| - index
    {
      SegmentsStep(sql, index, done);
      ghost var s := Segment(Next(sql, index).0, sql[index..Next(sql, index).1]);
      Rendered(done, s);
      var piece: string;
      piece, index, parameter := CopySegment(sql, index, parameter);
      output := output + piece;
      done := done + [s];
    }
    NothingLeft(sql);
    assert done + [] == done;
  }

  lemma NothingRendered()
    ensures Render([]) == "" && Placeholders([]) == 0
  {
  }

  lemma NothingLeft(sql: string)
    ensures Segments(sql, |sql|) == []
  {
  }

  lemma Rendered(done: seq<Segment>, s: Segment)
    ensures Render(done + [s]) == Render(done) + Piece(s, Placeholders(done))
    ensures Placeholders(done + [s]) == Placeholders(done) + if s.kind.Placeholder? then 1 else 0
  {
    assert (done + [s])[..|done|] == done;
  }
}
