/**
 * Coalescing of text fragments (apps/worker/src/chat/text-event-buffer.ts), and why no reader of the events notices it.
 */
module TextEvents {
  import opened Common
  import opened Events
  import opened Blocks

  // ---------- A canonical form: adjacent text fragments joined ----------

  function Join(merged: seq<Event>, e: Event): seq<Event> {
    var n := |merged|;
    if n > 0 && merged[n - 1].kind.TextChunk? && e.kind.TextChunk?
    then merged[n - 1 := merged[n - 1].(content := merged[n - 1].content + e.content)]
    else merged + [e]
  }

  function Merge(events: seq<Event>): seq<Event> {
    if events == [] then [] else Join(Merge(events[..|events| - 1]), events[|events| - 1])
  }

  function FoldEvents(blocks: seq<Block>, events: seq<Event>): seq<Block> {
    if events == [] then blocks else ApplyBlock(FoldEvents(blocks, events[..|events| - 1]), events[|events| - 1])
  }

  lemma MergeLast(events: seq<Event>, e: Event)
    ensures Merge(events + [e]) == Join(Merge(events), e)
  {
    assert (events + [e])[..|events|] == events;
  }

  lemma FoldLast(blocks: seq<Block>, events: seq<Event>, e: Event)
    ensures FoldEvents(blocks, events + [e]) == ApplyBlock(FoldEvents(blocks, events), e)
  {
    assert (events + [e])[..|events|] == events;
  }

  lemma AppendTwice(blocks: seq<Block>, x: string, y: string)
    ensures AppendText(AppendText(blocks, x), y) == AppendText(blocks, x + y)
  {
    var n := |blocks|;
    if n > 0 && blocks[n - 1].kind.Text? && !blocks[n - 1].analysis {
      assert blocks[n - 1].content + x + y == blocks[n - 1].content + (x + y);
    }
  }

  lemma JoinFolds(blocks: seq<Block>, merged: seq<Event>, e: Event)
    ensures FoldEvents(blocks, Join(merged, e)) == ApplyBlock(FoldEvents(blocks, merged), e)
  {
    var n := |merged|;
    if n > 0 && merged[n - 1].kind.TextChunk? && e.kind.TextChunk? {
      var last := merged[n - 1];
      var joined := Join(merged, e);
      assert joined[..n - 1] == merged[..n - 1];
      AppendTwice(FoldEvents(blocks, merged[..n - 1]), last.content, e.content);
    } else {
      FoldLast(blocks, merged, e);
    }
  }

  // Joining fragments changes nothing that a browser shows.
  lemma {:induction false} MergeFolds(blocks: seq<Block>, events: seq<Event>)
    ensures FoldEvents(blocks, Merge(events)) == FoldEvents(blocks, events)
  {
    if events != [] {
      MergeFolds(blocks, events[..|events| - 1]);
      JoinFolds(blocks, Merge(events[..|events| - 1]), events[|events| - 1]);
    }
  }

  // Nor does it move text across any other event: what is not text keeps its order and its place in the text.
  function Others(events: seq<Event>): seq<Event> {
    if events == [] then []
    else Others(events[..|events| - 1]) + if events[|events| - 1].kind.TextChunk? then [] else [events[|events| - 1]]
  }

  function TextBefore(events: seq<Event>, n: nat): string
    requires n <= |Others(events)|
    decreases |events|
  {
    if events == [] then ""
    else
      var front, e := events[..|events| - 1], events[|events| - 1];
      if n < |Others(front)| then TextBefore(front, n)
      else if n == |Others(front)| then TextBefore(front, n) + (if e.kind.TextChunk? then e.content else "")
      else TextBefore(front, |Others(front)|)
  }

  lemma OthersLast(events: seq<Event>, e: Event)
    ensures Others(events + [e]) == Others(events) + if e.kind.TextChunk? then [] else [e]
  {
    assert (events + [e])[..|events|] == events;
  }

  lemma TextLast(events: seq<Event>, e: Event, n: nat)
    requires n <= |Others(events + [e])|
    ensures |Others(events)| <= |Others(events + [e])|
    ensures TextBefore(events + [e], n) ==
            if n < |Others(events)| then TextBefore(events, n)
            else if n == |Others(events)| then TextBefore(events, n) + (if e.kind.TextChunk? then e.content else "")
            else TextBefore(events, |Others(events)|)
  {
    assert (events + [e])[..|events|] == events;
  }

  ghost predicate SamePlaces(a: seq<Event>, b: seq<Event>) {
    Others(a) == Others(b) && forall n :: 0 <= n <= |Others(a)| ==> TextBefore(a, n) == TextBefore(b, n)
  }

  lemma JoinKeepsPlaces(merged: seq<Event>, e: Event)
    ensures SamePlaces(Join(merged, e), merged + [e])
  {
    var k := |merged|;
    if k > 0 && merged[k - 1].kind.TextChunk? && e.kind.TextChunk? {
      var front, last := merged[..k - 1], merged[k - 1];
      var both := last.(content := last.content + e.content);
      assert Join(merged, e) == front + [both] && merged == front + [last];
      OthersLast(front, both);
      OthersLast(front, last);
      OthersLast(merged, e);
      forall n | 0 <= n <= |Others(merged + [e])| ensures TextBefore(Join(merged, e), n)
          == TextBefore(merged + [e], n) {
        TextLast(front, both, n);
        TextLast(merged, e, n);
        TextLast(front, last, n);
      }
    }
  }

  lemma SamePlacesExtend(a: seq<Event>, b: seq<Event>, e: Event)
    requires SamePlaces(a, b)
    ensures SamePlaces(a + [e], b + [e])
  {
    OthersLast(a, e);
    OthersLast(b, e);
    forall n | 0 <= n <= |Others(a + [e])| ensures TextBefore(a + [e], n) == TextBefore(b + [e], n) {
      TextLast(a, e, n);
      TextLast(b, e, n);
    }
  }

  lemma SamePlacesTransitive(a: seq<Event>, b: seq<Event>, c: seq<Event>)
    requires SamePlaces(a, b) && SamePlaces(b, c)
    ensures SamePlaces(a, c) && SamePlaces(c, a)
  {
    hide TextBefore, Others;
  }

  lemma {:induction false} MergeKeepsPlaces(events: seq<Event>)
    ensures SamePlaces(Merge(events), events)
  {
    if events != [] {
      var front, e := events[..|events| - 1], events[|events| - 1];
      hide SamePlaces, Join;
      MergeKeepsPlaces(front);
      JoinKeepsPlaces(Merge(front), e);
      SamePlacesExtend(Merge(front), front, e);
      assert front + [e] == events;
      SamePlacesTransitive(Merge(events), Merge(front) + [e], events);
    }
  }

  // Two streams that join to the same events cannot be told apart by what they show or where their text stands.
  lemma SameMergeSameMeaning(a: seq<Event>, b: seq<Event>, blocks: seq<Block>)
    requires Merge(a) == Merge(b)
    ensures FoldEvents(blocks, a) == FoldEvents(blocks, b)
    ensures SamePlaces(a, b)
  {
    hide Merge, SamePlaces, FoldEvents;
    MergeFolds(blocks, a);
    MergeFolds(blocks, b);
    MergeKeepsPlaces(a);
    MergeKeepsPlaces(b);
    SamePlacesReflexive(a);
    SamePlacesTransitive(Merge(a), a, a);
    SamePlacesTransitive(a, Merge(a), b);
  }

  lemma SamePlacesReflexive(a: seq<Event>)
    ensures SamePlaces(a, a)
  {
  }

  // ---------- The buffer ----------

  // Text waits until something else comes or the timer runs out: what waits, what is passed on when e arrives, and what
  // is held after that.
  function Waiting(pending: Option<WorkerEvent>): seq<WorkerEvent> {
    if pending.Some? then [pending.value] else []
  }

  function PassedOn(pending: Option<WorkerEvent>, e: WorkerEvent): seq<WorkerEvent> {
    if e.kind.TextChunk? then [] else Waiting(pending) + [e]
  }

  function HeldAfter(pending: Option<WorkerEvent>, e: WorkerEvent): Option<WorkerEvent> {
    if !e.kind.TextChunk? then None
    else if pending.Some? then Some(pending.value.(content := pending.value.content + e.content))
    else Some(e)
  }

  predicate OnlyText(pending: Option<WorkerEvent>) {
    pending.Some? ==> pending.value.kind.TextChunk?
  }

  // What has been passed on and what waits join to what was sent: one more event keeps that.
  lemma SendJoins(published: seq<Event>, pending: Option<WorkerEvent>, sent: seq<Event>, e: WorkerEvent)
    requires OnlyText(pending) && Merge(published + Waiting(pending)) == Merge(sent)
    ensures OnlyText(HeldAfter(pending, e))
    ensures Merge(published + PassedOn(pending, e) + Waiting(HeldAfter(pending, e))) == Merge(sent + [e])
  {
    hide Merge, Join;
    MergeLast(sent, e);
    MergeLast(published + Waiting(pending), e);
    if !e.kind.TextChunk? {
      assert published + (Waiting(pending) + [e]) + [] == published + Waiting(pending) + [e];
    } else if pending.Some? {
      JoinTwice(published, pending.value, e);
      assert published + [] == published;
    } else {
      assert published + [] + [e] == published + [e];
    }
  }

  class TextEventBuffer {
    var pending: Option<WorkerEvent>
    var timer: bool
    var published: seq<WorkerEvent> // what the publish callback has been given, in order
    ghost var sent: seq<WorkerEvent>

    ghost predicate Valid()
      reads this
    {
      OnlyText(pending) && (timer <==> pending.Some?) && Merge(published + Waiting(pending)) == Merge(sent)
    }

    constructor ()
      ensures Valid() && published == [] && sent == []
    {
      pending, timer, published, sent := None, false, [], [];
    }

    // The timer's callback, and the first thing that any other event does.
    method Flush()
      requires Valid()
      modifies this
      ensures Valid() && pending.None? && sent == old(sent)
      ensures published == old(published + Waiting(pending))
      ensures Merge(published) == Merge(sent)
    {
      timer := false;
      var event := pending;
      pending := None;
      if event.Some? {
        published := published + [event.value];
      }
      assert published + [] == published;
    }

    method Send(event: WorkerEvent)
      requires Valid()
      modifies this
      ensures Valid() && sent == old(sent) + [event]
      ensures published == old(published + PassedOn(pending, event)) && pending == HeldAfter(old(pending), event)
    {
      hide Merge;
      SendJoins(published, pending, sent, event);
      ghost var all := published + PassedOn(pending, event);
      if !event.kind.TextChunk? {
        Flush();
        published := published + [event];
        assert published == all && published + [] == published;
      } else {
        assert published + [] == published;
        pending := if pending.Some? then Some(pending.value.(content := pending.value.content + event.content))
        else Some(event);
        timer := true;
      }
      sent := sent + [event];
    }
  }

  lemma JoinTwice(events: seq<Event>, a: Event, b: Event)
    requires a.kind.TextChunk? && b.kind.TextChunk?
    ensures Merge(events + [a.(content := a.content + b.content)]) == Join(Merge(events + [a]), b)
  {
    MergeLast(events, a);
    MergeLast(events, a.(content := a.content + b.content));
    var m := Merge(events);
    if |m| > 0 && m[|m| - 1].kind.TextChunk? {
      assert m[|m| - 1].content + a.content + b.content == m[|m| - 1].content + (a.content + b.content);
    }
  }
}
