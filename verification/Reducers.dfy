/**
 * The worker keeps its own copy of a response's blocks (apps/worker/src/analysis/analysis-runtime-adapter.ts) and
 * stores it as the message's checkpoint. It folds events by other rules than the browser: these show where the two
 * agree.
 */
module Reducers {
  import opened Events
  import opened Blocks
  import opened TextEvents

  // A stored event, as a message block.
  function Shown(stored: seq<Event>): (blocks: seq<Block>)
    ensures |blocks| == |stored| && forall i :: 0 <= i < |stored| ==> blocks[i] == Copied(stored[i])
  {
    if stored == [] then [] else Shown(stored[..|stored| - 1]) + [Copied(stored[|stored| - 1])]
  }

  function TextEvent(content: string): Event {
    BLANK.(kind := Text, content := content)
  }

  function Put(stored: seq<Event>, i: nat, e: Event): seq<Event> {
    if i < |stored| then stored[i := e] else stored + [e]
  }

  function Emit(stored: seq<Event>, e: Event): seq<Event> {
    match e.kind
    case Table => if e.display then stored + [e] else stored
    case TextChunk =>
      var n := |stored|;
      if n > 0 && stored[n - 1].kind.Text? && !stored[n - 1].analysis
      then stored[n - 1 := stored[n - 1].(content := stored[n - 1].content + e.content)]
      else stored + [TextEvent(e.content)]
    case Activity => if e.activity.Some? then Put(stored, First(Shown(stored), IsActivity, e.activity.value.id), e)
        else stored + [e]
    case ActivityRemove =>
      var i := First(Shown(stored), IsActivity, e.activityId);
      if i < |stored| then stored[..i] + stored[i + 1..] else stored
    case LogRemove =>
      var i := First(Shown(stored), IsPendingLog, e.title);
      if i < |stored| then stored[..i] + stored[i + 1..] else stored
    case LogUpdate =>
      var i := First(Shown(stored), IsPendingLog, e.title);
      if i < |stored| then stored[i := e.(kind := Log)] else stored
    case _ => stored + [e]
  }

  // A table that is not meant for display is neither stored nor sent.
  predicate IsSent(e: Event) {
    e.kind.Table? ==> e.display
  }

  // ---------- What workers emit ----------

  function BareLog(kind: Kind, e: Event): Event {
    BLANK.(kind := kind, title := e.title, content := e.content, rowCount := e.rowCount, durationMs := e.durationMs)
  }

  // Activities carry their data and nothing else, logs their text and figures, charts their data and artifacts.
  predicate Plain(e: Event) {
    match e.kind
    case Activity => e.activity.Some? && e == BLANK.(kind := Activity, activity := e.activity)
    case Log => e == BareLog(Log, e)
    case LogUpdate => e == BareLog(LogUpdate, e)
    case Chart => e.chartData.Some? && e == BLANK.(kind := Chart, chartData := e.chartData, artifact := e.artifact)
    case Done => false
    case ReasoningChunk => false
    case ChartLoading => false
    case _ => true
  }

  predicate OpensLog(e: Event) {
    e.kind.Log? && PENDING <= e.content
  }

  predicate NonePending(stored: seq<Event>, title: string) {
    forall i :: 0 <= i < |stored| ==> !IsPendingLog(Copied(stored[i]), title)
  }

  // A worker opens a log under a title only when no log under that title is open.
  predicate Emittable(stored: seq<Event>, e: Event) {
    Plain(e) && (OpensLog(e) ==> NonePending(stored, e.title))
  }

  // ---------- One event ----------

  ghost predicate StoredInv(stored: seq<Event>) {
    && (forall i :: 0 <= i < |stored| && (stored[i].kind.Log? || stored[i].kind.Chart?) ==> Plain(stored[i]))
    && (forall i, j, title :: 0 <= i < j < |stored| && IsPendingLog(Copied(stored[i]), title) ==>
          !IsPendingLog(Copied(stored[j]), title))
  }

  lemma FirstIsLast(stored: seq<Event>, title: string)
    requires StoredInv(stored)
    ensures First(Shown(stored), IsPendingLog, title) == Last(Shown(stored), IsPendingLog, title)
  {
  }

  lemma ShownExtends(stored: seq<Event>, e: Event)
    ensures Shown(stored + [e]) == Shown(stored) + [Copied(e)]
  {
    assert (stored + [e])[..|stored|] == stored;
  }

  lemma ShownUpdates(stored: seq<Event>, i: nat, e: Event)
    requires i < |stored|
    ensures Shown(stored[i := e]) == Shown(stored)[i := Copied(e)]
  {
  }

  lemma ShownRemoves(stored: seq<Event>, i: nat)
    requires i < |stored|
    ensures Shown(stored[..i] + stored[i + 1..]) == Shown(stored)[..i] + Shown(stored)[i + 1..]
  {
    hide Shown;
    var n := stored[..i] + stored[i + 1..];
    forall k | 0 <= k < |n| ensures Shown(n)[k] == (Shown(stored)[..i] + Shown(stored)[i + 1..])[k] {
      assert n[k] == stored[if k < i then k else k + 1];
    }
  }

  lemma NoLoadingChart(stored: seq<Event>)
    requires StoredInv(stored)
    ensures Last(Shown(stored), IsLoadingChart, "") == |stored|
  {
  }

  lemma LogAgrees(stored: seq<Event>, e: Event)
    requires StoredInv(stored) && (e.kind.LogRemove? || e.kind.LogUpdate?) && Plain(e)
    ensures Shown(Emit(stored, e)) == ApplyBlock(Shown(stored), e)
  {
    hide First, Last, Shown;
    FirstIsLast(stored, e.title);
    var i := First(Shown(stored), IsPendingLog, e.title);
    if i < |stored| {
      assert Plain(stored[i]);
      hide StoredInv;
      if e.kind.LogRemove? {
        ShownRemoves(stored, i);
      } else {
        ShownUpdates(stored, i, e.(kind := Log));
      }
    }
  }

  lemma ActivityAgrees(stored: seq<Event>, e: Event)
    requires (e.kind.ActivityRemove? || e.kind.Activity?) && Plain(e)
    ensures Shown(Emit(stored, e)) == ApplyBlock(Shown(stored), e)
  {
    hide First, Shown;
    var i := First(Shown(stored), IsActivity, if e.kind.Activity? then e.activity.value.id else e.activityId);
    if i < |stored| {
      if e.kind.ActivityRemove? {
        ShownRemoves(stored, i);
      } else {
        ShownUpdates(stored, i, e);
      }
    } else {
      ShownExtends(stored, e);
    }
  }

  lemma TextAgrees(stored: seq<Event>, e: Event)
    requires e.kind.TextChunk?
    ensures Shown(Emit(stored, e)) == ApplyBlock(Shown(stored), e)
  {
    hide Shown;
    var n := |stored|;
    if n > 0 && stored[n - 1].kind.Text? && !stored[n - 1].analysis {
      ShownUpdates(stored, n - 1, stored[n - 1].(content := stored[n - 1].content + e.content));
    } else {
      ShownExtends(stored, TextEvent(e.content));
    }
  }

  // For what workers emit, both sides do the same with every event that is sent.
  lemma EmitAgrees(stored: seq<Event>, e: Event)
    requires StoredInv(stored) && Emittable(stored, e)
    ensures Shown(Emit(stored, e)) == if IsSent(e) then ApplyBlock(Shown(stored), e) else Shown(stored)
  {
    hide StoredInv, First, Last, Shown, NonePending;
    match e.kind
    case TextChunk => TextAgrees(stored, e);
    case Activity => ActivityAgrees(stored, e);
    case ActivityRemove => ActivityAgrees(stored, e);
    case LogRemove => LogAgrees(stored, e);
    case LogUpdate => LogAgrees(stored, e);
    case Chart =>
      NoLoadingChart(stored);
      ShownExtends(stored, e);
    case _ => ShownExtends(stored, e);
  }

  lemma AddKeepsInv(stored: seq<Event>, e: Event)
    requires StoredInv(stored) && (e.kind.Log? || e.kind.Chart? ==> Plain(e))
          && (OpensLog(e) ==> NonePending(stored, e.title))
    ensures StoredInv(stored + [e])
  {
  }

  lemma RemoveKeepsInv(stored: seq<Event>, i: nat)
    requires StoredInv(stored) && i < |stored|
    ensures StoredInv(stored[..i] + stored[i + 1..])
  {
    var n := stored[..i] + stored[i + 1..];
    assert forall k :: 0 <= k < |n| ==> n[k] == stored[if k < i then k else k + 1];
  }

  // Replacing a block keeps it in order unless it opens a log that was not open there.
  lemma ReplaceKeepsInv(stored: seq<Event>, i: nat, e: Event)
    requires StoredInv(stored) && i < |stored| && (e.kind.Log? || e.kind.Chart? ==> Plain(e))
    requires OpensLog(e) ==> IsPendingLog(Copied(stored[i]), e.title)
    ensures StoredInv(stored[i := e])
  {
    var n := stored[i := e];
    forall k, j, title | 0 <= k < j < |n| && IsPendingLog(Copied(n[k]), title)
        ensures !IsPendingLog(Copied(n[j]), title) {
      assert IsPendingLog(Copied(stored[k]), title);
    }
  }

  lemma EmitKeepsInv(stored: seq<Event>, e: Event)
    requires StoredInv(stored) && Emittable(stored, e)
    ensures StoredInv(Emit(stored, e))
  {
    hide StoredInv;
    var n := |stored|;
    match e.kind
    case TextChunk =>
      if n > 0 && stored[n - 1].kind.Text? && !stored[n - 1].analysis {
        ReplaceKeepsInv(stored, n - 1, stored[n - 1].(content := stored[n - 1].content + e.content));
      } else {
        AddKeepsInv(stored, TextEvent(e.content));
      }
    case Activity =>
      var i := First(Shown(stored), IsActivity, e.activity.value.id);
      if i < n { ReplaceKeepsInv(stored, i, e); } else { AddKeepsInv(stored, e); }
    case ActivityRemove =>
      var i := First(Shown(stored), IsActivity, e.activityId);
      if i < n { RemoveKeepsInv(stored, i); }
    case LogRemove =>
      var i := First(Shown(stored), IsPendingLog, e.title);
      if i < n { RemoveKeepsInv(stored, i); }
    case LogUpdate =>
      var i := First(Shown(stored), IsPendingLog, e.title);
      if i < n { ReplaceKeepsInv(stored, i, e.(kind := Log)); }
    case _ => AddKeepsInv(stored, e);
  }

  // ---------- A whole response ----------

  function EmitAll(stored: seq<Event>, events: seq<Event>): seq<Event> {
    if events == [] then stored else Emit(EmitAll(stored, events[..|events| - 1]), events[|events| - 1])
  }

  function SentOf(events: seq<Event>): seq<Event> {
    if events == [] then []
    else SentOf(events[..|events| - 1]) + if IsSent(events[|events| - 1]) then [events[|events| - 1]] else []
  }

  ghost predicate AllEmittable(events: seq<Event>) {
    forall i :: 0 <= i < |events| ==> Emittable(EmitAll([], events[..i]), events[i])
  }

  lemma FrontEmittable(events: seq<Event>)
    requires AllEmittable(events) && events != []
    ensures AllEmittable(events[..|events| - 1])
    ensures Emittable(EmitAll([], events[..|events| - 1]), events[|events| - 1])
  {
    hide Emittable, EmitAll;
    var front := events[..|events| - 1];
    forall i | 0 <= i < |front| ensures Emittable(EmitAll([], front[..i]), front[i]) {
      assert front[..i] == events[..i];
    }
  }

  lemma NothingStored()
    ensures StoredInv([]) && Shown([]) == []
  {
  }

  lemma {:induction false} EmitAllAgrees(events: seq<Event>)
    requires AllEmittable(events)
    ensures StoredInv(EmitAll([], events))
    ensures Shown(EmitAll([], events)) == FoldEvents([], SentOf(events))
  {
    hide StoredInv, Emit, ApplyBlock, Emittable, AllEmittable, IsSent, Shown;
    if events == [] {
      NothingStored();
    } else {
      var front, e := events[..|events| - 1], events[|events| - 1];
      FrontEmittable(events);
      EmitAllAgrees(front);
      EmitAgrees(EmitAll([], front), e);
      EmitKeepsInv(EmitAll([], front), e);
      FoldLast([], SentOf(front), e);
      assert SentOf(events) == if IsSent(e) then SentOf(front) + [e] else SentOf(front);
    }
  }

  function EventsIn(log: seq<Payload>): seq<Event> {
    if log == [] then [] else EventsIn(log[..|log| - 1]) + [log[|log| - 1].event]
  }

  lemma {:induction false} FoldOfLog(blocks: seq<Block>, log: seq<Payload>)
    ensures Fold(blocks, log) == FoldEvents(blocks, EventsIn(log))
  {
    if log != [] {
      FoldOfLog(blocks, log[..|log| - 1]);
      FoldLast(blocks, EventsIn(log[..|log| - 1]), log[|log| - 1].event);
    }
  }

  // When the worker has drained its buffer, a browser that has folded the log shows the worker's own blocks, however
  // the flushes fell.
  lemma BrowserShowsTheWorkersBlocks(events: seq<Event>, published: seq<Event>, log: seq<Payload>)
    requires AllEmittable(events)
    requires Merge(published) == Merge(SentOf(events))
    requires FoldEvents([], EventsIn(log)) == FoldEvents([], published)
    ensures Fold([], log) == Shown(EmitAll([], events))
  {
    EmitAllAgrees(events);
    FoldOfLog([], log);
    SameMergeSameMeaning(published, SentOf(events), []);
  }

  // With two logs open under one title the worker closes the first, the browser the last.
  lemma TwoOpenLogsDiverge(title: string, content: string)
    requires !(PENDING <= content)
    ensures var open := BLANK.(kind := Log, title := title, content := PENDING);
            var update := BLANK.(kind := LogUpdate, title := title, content := content);
            var closed := open.(content := content);
            && Plain(open) && Plain(update)
            && Emit([open, open], update) == [closed, open]
            && ApplyBlock(Shown([open, open]), update) == Shown([open, closed])
            && Shown(Emit([open, open], update)) != ApplyBlock(Shown([open, open]), update)
  {
    var open := BLANK.(kind := Log, title := title, content := PENDING);
    var blocks := Shown([open, open]);
    assert IsPendingLog(blocks[0], title) && IsPendingLog(blocks[1], title);
  }

  predicate LogsPlain(stored: seq<Event>) {
    forall i :: 0 <= i < |stored| && stored[i].kind.Log? ==> Plain(stored[i])
  }

  // Closing a log works alike on both sides exactly if there are no two open logs of the title that it could tell
  // apart: an update finds the first and the last one alike already, a removal finds copies of one block from the first
  // to the last.
  lemma ClosingAgreesExactly(stored: seq<Event>, e: Event)
    requires LogsPlain(stored) && Plain(e) && (e.kind.LogUpdate? || e.kind.LogRemove?)
    ensures var blocks := Shown(stored);
            var i, j := First(blocks, IsPendingLog, e.title), Last(blocks, IsPendingLog, e.title);
            Shown(Emit(stored, e)) == ApplyBlock(blocks, e)
            <==> i == j || (if e.kind.LogRemove? then blocks[i..j] == blocks[i + 1..j + 1]
                else blocks[i] == blocks[j] == Copied(BareLog(Log, e)))
  {
    var blocks := Shown(stored);
    var i, j := First(blocks, IsPendingLog, e.title), Last(blocks, IsPendingLog, e.title);
    hide First, Last, Shown;
    if j < |stored| {
      assert IsPendingLog(blocks[j], e.title) && i <= j && Plain(stored[j]);
      if e.kind.LogRemove? {
        ShownRemoves(stored, i);
        RemovalsAgree(blocks, i, j);
      } else {
        ShownUpdates(stored, i, e.(kind := Log));
        assert blocks[j].(content := e.content, rowCount := e.rowCount, durationMs := e.durationMs)
            == Copied(BareLog(Log, e));
        UpdatesAgree(blocks, i, j, Copied(BareLog(Log, e)));
      }
    }
  }

  lemma UpdatesAgree(blocks: seq<Block>, i: nat, j: nat, b: Block)
    requires i <= j < |blocks|
    ensures blocks[i := b] == blocks[j := b] <==> i == j || blocks[i] == blocks[j] == b
  {
    if blocks[i := b] == blocks[j := b] && i != j {
      assert blocks[i := b][i] == blocks[j := b][i] && blocks[i := b][j] == blocks[j := b][j];
    }
  }

  lemma RemovalsAgree(blocks: seq<Block>, i: nat, j: nat)
    requires i <= j < |blocks|
    ensures Without(blocks, i) == Without(blocks, j) <==> i == j || blocks[i..j] == blocks[i + 1..j + 1]
  {
    var a, b := Without(blocks, i), Without(blocks, j);
    if a == b {
      forall k | i <= k < j ensures blocks[k] == blocks[k + 1] {
        assert a[k] == blocks[k + 1] && b[k] == blocks[k];
      }
    } else if blocks[i..j] == blocks[i + 1..j + 1] {
      forall k | 0 <= k < |a| ensures a[k] == b[k] {
        if i <= k < j {
          assert blocks[i..j][k - i] == blocks[i + 1..j + 1][k - i];
        }
      }
    }
  }

  // ---------- The worker's side, as it runs ----------

  lemma HiddenTable(stored: seq<Event>, e: Event)
    requires !IsSent(e)
    ensures Emit(stored, e) == stored
  {
  }

  class ResponseEmitter {
    const buffer: TextEventBuffer
    var blocks: seq<Event>
    ghost var emitted: seq<Event>

    ghost predicate Valid()
      reads this, buffer
    {
      buffer.Valid() && blocks == EmitAll([], emitted) && buffer.sent == SentOf(emitted)
    }

    constructor ()
      ensures Valid() && emitted == [] && fresh(buffer)
    {
      buffer := new TextEventBuffer();
      blocks, emitted := [], [];
    }

    static method Store(stored: seq<Event>, event: Event) returns (r: seq<Event>)
      requires IsSent(event)
      ensures r == Emit(stored, event)
    {
      hide First, Shown;
      r := stored;
      var last := |r| - 1;
      if event.kind.TextChunk? {
        if last >= 0 && r[last].kind.Text? && !r[last].analysis {
          r := r[last := r[last].(content := r[last].content + event.content)];
        } else {
          r := r + [TextEvent(event.content)];
        }
      } else if event.kind.Activity? && event.activity.Some? {
        var index := FindFirst(Shown(r), IsActivity, event.activity.value.id);
        if index < |r| {
          r := r[index := event];
        } else {
          r := r + [event];
        }
      } else if event.kind.ActivityRemove? {
        var index := FindFirst(Shown(r), IsActivity, event.activityId);
        if index < |r| {
          r := r[..index] + r[index + 1..];
        }
      } else if event.kind.LogRemove? || event.kind.LogUpdate? {
        var index := FindFirst(Shown(r), IsPendingLog, event.title);
        if index < |r| {
          if event.kind.LogRemove? {
            r := r[..index] + r[index + 1..];
          } else {
            r := r[index := event.(kind := Log)];
          }
        }
      } else {
        r := r + [event];
      }
    }

    // Nothing is sent or stored once the run is aborted; a hidden table is dropped before that is even looked at.
    method EmitEvent(event: WorkerEvent, aborted: bool) returns (ok: bool)
      requires Valid()
      modifies this, buffer
      ensures Valid()
      ensures ok <==> !aborted || !IsSent(event)
      ensures emitted == old(emitted) + if ok then [event] else []
    {
      hide Emit;
      ok := !IsSent(event) || !aborted;
      if !ok {
        return;
      }
      assert (emitted + [event])[..|emitted|] == emitted;
      if IsSent(event) {
        buffer.Send(event);
        blocks := Store(blocks, event);
      } else {
        HiddenTable(blocks, event);
      }
      emitted := emitted + [event];
    }

    // drain: what has been published by now shows exactly the stored blocks.
    method Drain()
      requires Valid()
      modifies buffer
      ensures Valid() && blocks == old(blocks) && emitted == old(emitted)
      ensures Merge(buffer.published) == Merge(SentOf(emitted))
      ensures AllEmittable(emitted) ==> FoldEvents([], buffer.published) == Shown(blocks)
    {
      buffer.Flush();
      SameMergeSameMeaning(buffer.published, SentOf(emitted), []);
      if AllEmittable(emitted) {
        EmitAllAgrees(emitted);
      }
    }
  }
}
