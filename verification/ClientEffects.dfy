/**
 * What each event does to a message and to a browser's views, place by place (apps/web/src/stores/chat.ts), and that
 * text is shown once and in order, whatever else is streamed between.
 */
module ClientEffects {
  import opened Common
  import opened Events
  import opened Blocks
  import opened Client
  import opened Lifecycle
  import EndToEnd

  // ---------- Blocks ----------

  ghost predicate Added(blocks: seq<Block>, now: seq<Block>, b: Block) {
    && |now| == |blocks| + 1 && now[|blocks|] == b
    && forall k :: 0 <= k < |blocks| ==> now[k] == blocks[k]
  }

  ghost predicate Replaced(blocks: seq<Block>, now: seq<Block>, i: int, b: Block) {
    && 0 <= i < |blocks| == |now| && now[i] == b
    && forall k :: 0 <= k < |blocks| && k != i ==> now[k] == blocks[k]
  }

  ghost predicate Removed(blocks: seq<Block>, now: seq<Block>, i: int) {
    && 0 <= i < |blocks| == |now| + 1
    && (forall k :: 0 <= k < i ==> now[k] == blocks[k])
    && (forall k :: i <= k < |now| ==> now[k] == blocks[k + 1])
  }

  // The block that shows an activity.
  predicate Shows(b: Block, id: string) {
    b.kind.Activity? && b.activity.Some? && b.activity.value.id == id
  }

  // A log that has begun and not ended.
  predicate OpenLog(b: Block, title: string) {
    b.kind.Log? && b.title == title && |b.content| >= 2 && b.content[0] == '正' && b.content[1] == '在'
  }

  predicate EmptyChart(b: Block) {
    b.kind.Chart? && b.chartData.None?
  }

  ghost predicate NoneShows(blocks: seq<Block>, id: string) {
    forall k :: 0 <= k < |blocks| ==> !Shows(blocks[k], id)
  }

  ghost predicate FirstShows(blocks: seq<Block>, id: string, i: int) {
    0 <= i < |blocks| && Shows(blocks[i], id) && forall k :: 0 <= k < i ==> !Shows(blocks[k], id)
  }

  ghost predicate NoneOpen(blocks: seq<Block>, title: string) {
    forall k :: 0 <= k < |blocks| ==> !OpenLog(blocks[k], title)
  }

  ghost predicate LastOpen(blocks: seq<Block>, title: string, i: int) {
    0 <= i < |blocks| && OpenLog(blocks[i], title) && forall k :: i < k < |blocks| ==> !OpenLog(blocks[k], title)
  }

  ghost predicate NoneEmpty(blocks: seq<Block>) {
    forall k :: 0 <= k < |blocks| ==> !EmptyChart(blocks[k])
  }

  ghost predicate LastEmpty(blocks: seq<Block>, i: int) {
    0 <= i < |blocks| && EmptyChart(blocks[i]) && forall k :: i < k < |blocks| ==> !EmptyChart(blocks[k])
  }

  predicate IsText(b: Block) {
    b.kind.Text? && !b.analysis
  }

  // An activity is shown once; logs and charts are filled in where the last of them was left open.
  ghost predicate Shown(blocks: seq<Block>, now: seq<Block>, e: Event) {
    var n := |blocks|;
    match e.kind
    case Activity =>
      if e.activity.None? then Added(blocks, now, Copied(e))
      else
        var b := EMPTY_BLOCK.(kind := Activity, activity := e.activity);
        var id := e.activity.value.id;
        if NoneShows(blocks, id) then Added(blocks, now, b)
        else exists i :: FirstShows(blocks, id, i) && Replaced(blocks, now, i, b)
    case ActivityRemove =>
      if NoneShows(blocks, e.activityId) then now == blocks
      else exists i :: FirstShows(blocks, e.activityId, i) && Removed(blocks, now, i)
    case TextChunk =>
      if n > 0 && IsText(blocks[n - 1]) then
        Replaced(blocks, now, n - 1, blocks[n - 1].(content := blocks[n - 1].content + e.content))
      else Added(blocks, now, EMPTY_BLOCK.(kind := Text, content := e.content))
    case LogUpdate =>
      if NoneOpen(blocks, e.title) then now == blocks
      else exists i ::
        && LastOpen(blocks, e.title, i)
        && Replaced(blocks, now, i,
                    blocks[i].(content := e.content, rowCount := e.rowCount, durationMs := e.durationMs))
    case LogRemove =>
      if NoneOpen(blocks, e.title) then now == blocks
      else exists i :: LastOpen(blocks, e.title, i) && Removed(blocks, now, i)
    case Chart =>
      if NoneEmpty(blocks) then
        Added(blocks, now, EMPTY_BLOCK.(kind := Chart, chartData := e.chartData, artifact := e.artifact))
      else exists i ::
        && LastEmpty(blocks, i)
        && Replaced(blocks, now, i, blocks[i].(chartData := e.chartData, artifact := e.artifact))
    case ChartLoading => Added(blocks, now, EMPTY_BLOCK.(kind := Chart))
    case Done => now == blocks
    case ReasoningChunk => now == blocks
    case _ =>
      Added(blocks, now, Block(e.kind, e.title, e.content, e.analysis, e.activity, e.chartData, e.artifact,
                               e.rowCount, e.durationMs, e.display, e.rest))
  }

  lemma PendingIsOpen(blocks: seq<Block>, title: string)
    ensures forall k :: 0 <= k < |blocks| ==> (IsPendingLog(blocks[k], title) <==> OpenLog(blocks[k], title))
  {
  }

  lemma BlockEffect(blocks: seq<Block>, e: Event)
    ensures Shown(blocks, ApplyBlock(blocks, e), e)
  {
    match e.kind
    case Activity => ActivityEffect(blocks, e);
    case ActivityRemove => ActivityEffect(blocks, e);
    case LogUpdate => LogEffect(blocks, e);
    case LogRemove => LogEffect(blocks, e);
    case Chart => ChartEffect(blocks, e);
    case _ =>
      hide First, Last;
  }

  lemma ActivityEffect(blocks: seq<Block>, e: Event)
    requires e.kind.Activity? || e.kind.ActivityRemove?
    ensures Shown(blocks, ApplyBlock(blocks, e), e)
  {
    hide First;
    if e.kind.ActivityRemove? || e.activity.Some? {
      var id := if e.kind.ActivityRemove? then e.activityId else e.activity.value.id;
      var i := First(blocks, IsActivity, id);
      assert forall k :: 0 <= k < |blocks| ==> (IsActivity(blocks[k], id) <==> Shows(blocks[k], id));
      if i < |blocks| {
        assert FirstShows(blocks, id, i);
      } else {
        assert NoneShows(blocks, id);
      }
    }
  }

  lemma LogEffect(blocks: seq<Block>, e: Event)
    requires e.kind.LogUpdate? || e.kind.LogRemove?
    ensures Shown(blocks, ApplyBlock(blocks, e), e)
  {
    PendingIsOpen(blocks, e.title);
    hide Last, OpenLog, IsPendingLog;
    var i := Last(blocks, IsPendingLog, e.title);
    if i < |blocks| {
      assert LastOpen(blocks, e.title, i);
    } else {
      assert NoneOpen(blocks, e.title);
    }
  }

  lemma ChartEffect(blocks: seq<Block>, e: Event)
    requires e.kind.Chart?
    ensures Shown(blocks, ApplyBlock(blocks, e), e)
  {
    hide Last;
    var i := Last(blocks, IsLoadingChart, "");
    assert forall k :: 0 <= k < |blocks| ==> (IsLoadingChart(blocks[k], "") <==> EmptyChart(blocks[k]));
    if i < |blocks| {
      assert LastEmpty(blocks, i);
    } else {
      assert NoneEmpty(blocks);
    }
  }

  // ---------- The text of a message ----------

  // The text that a message shows.
  function TextOf(blocks: seq<Block>): string {
    if blocks == [] then ""
    else
      var b := blocks[|blocks| - 1];
      TextOf(blocks[..|blocks| - 1]) + if IsText(b) then b.content else ""
  }

  // The text that an event brings, whole or as one more piece.
  function TextIn(e: Event): string {
    if e.kind.TextChunk? || (e.kind.Text? && !e.analysis) then e.content else ""
  }

  function TextStreamed(log: seq<Payload>): string {
    if log == [] then "" else TextStreamed(log[..|log| - 1]) + TextIn(log[|log| - 1].event)
  }

  lemma TextAdded(blocks: seq<Block>, now: seq<Block>, b: Block)
    requires Added(blocks, now, b)
    ensures TextOf(now) == TextOf(blocks) + if IsText(b) then b.content else ""
  {
    assert now[..|blocks|] == blocks;
  }

  lemma {:induction false} TextReplaced(blocks: seq<Block>, now: seq<Block>, i: int, b: Block)
    requires Replaced(blocks, now, i, b) && !IsText(b) && !IsText(blocks[i])
    ensures TextOf(now) == TextOf(blocks)
  {
    var n := |blocks| - 1;
    if i < n {
      TextReplaced(blocks[..n], now[..n], i, b);
    } else {
      assert now[..n] == blocks[..n];
    }
  }

  lemma {:induction false} TextRemoved(blocks: seq<Block>, now: seq<Block>, i: int)
    requires Removed(blocks, now, i) && !IsText(blocks[i])
    ensures TextOf(now) == TextOf(blocks)
  {
    var n := |blocks| - 1;
    if i < n {
      TextRemoved(blocks[..n], now[..n - 1], i);
    } else {
      assert now == blocks[..n];
      assert TextOf(blocks[..n]) + "" == TextOf(blocks[..n]);
    }
  }

  lemma TextGrows(blocks: seq<Block>, e: Event)
    ensures TextOf(ApplyBlock(blocks, e)) == TextOf(blocks) + TextIn(e)
  {
    var now := ApplyBlock(blocks, e);
    BlockEffect(blocks, e);
    assert TextOf(blocks) + "" == TextOf(blocks);
    hide ApplyBlock, TextOf;
    match e.kind
    case TextChunk =>
      ChunkGrows(blocks, now, e);
    case Activity =>
      if e.activity.Some? {
        var b := EMPTY_BLOCK.(kind := Activity, activity := e.activity);
        if NoneShows(blocks, e.activity.value.id) {
          TextAdded(blocks, now, b);
        } else {
          var i :| FirstShows(blocks, e.activity.value.id, i) && Replaced(blocks, now, i, b);
          TextReplaced(blocks, now, i, b);
        }
      } else {
        TextAdded(blocks, now, Copied(e));
      }
    case ActivityRemove =>
      if !NoneShows(blocks, e.activityId) {
        var i :| FirstShows(blocks, e.activityId, i) && Removed(blocks, now, i);
        TextRemoved(blocks, now, i);
      }
    case LogUpdate =>
      if !NoneOpen(blocks, e.title) {
        var i :| LastOpen(blocks, e.title, i)
            && Replaced(blocks, now, i,
                        blocks[i].(content := e.content, rowCount := e.rowCount, durationMs := e.durationMs));
        TextReplaced(blocks, now, i, now[i]);
      }
    case LogRemove =>
      if !NoneOpen(blocks, e.title) {
        var i :| LastOpen(blocks, e.title, i) && Removed(blocks, now, i);
        TextRemoved(blocks, now, i);
      }
    case Chart =>
      if NoneEmpty(blocks) {
        TextAdded(blocks, now, now[|blocks|]);
      } else {
        var i :| LastEmpty(blocks, i)
            && Replaced(blocks, now, i, blocks[i].(chartData := e.chartData, artifact := e.artifact));
        TextReplaced(blocks, now, i, now[i]);
      }
    case Done =>
    case ReasoningChunk =>
    case _ =>
      TextAdded(blocks, now, now[|blocks|]);
  }

  lemma ChunkGrows(blocks: seq<Block>, now: seq<Block>, e: Event)
    requires e.kind.TextChunk? && Shown(blocks, now, e)
    ensures TextOf(now) == TextOf(blocks) + e.content
  {
    var n := |blocks|;
    if n > 0 && IsText(blocks[n - 1]) {
      assert now[..n - 1] == blocks[..n - 1];
      assert (TextOf(blocks[..n - 1]) + blocks[n - 1].content) + e.content
          == TextOf(blocks[..n - 1]) + (blocks[n - 1].content + e.content);
    } else {
      TextAdded(blocks, now, EMPTY_BLOCK.(kind := Text, content := e.content));
    }
  }

  // Every piece of text in a log is shown once, in the order of the log, and no other text is.
  lemma {:induction false} TextIsShownOnce(log: seq<Payload>)
    ensures TextOf(Fold([], log)) == TextStreamed(log)
  {
    if log != [] {
      TextIsShownOnce(log[..|log| - 1]);
      TextGrows(Fold([], log[..|log| - 1]), log[|log| - 1].event);
    }
  }

  // So in every run a browser has shown, of each registered message, all text up to the last event it has applied.
  lemma BrowserShowsTheText(userLimit: nat, user: UserId, loaded: set<ConversationId>, moves: seq<EndToEnd.Move>,
      g: GenerationId)
    ensures var w := EndToEnd.Reach(EndToEnd.StartWorld(userLimit, user, loaded), moves);
            var b, log := w.session.browser, LogOf(w.delivery.db, g);
            g in b.views && b.views[g].conversation in b.messages ==>
              && b.views[g].sequence <= |log|
              && TextOf(BlocksOf(b, b.views[g].conversation, b.views[g].message))
                  == TextStreamed(log[..b.views[g].sequence])
  {
    hide EndToEnd.Reach, EndToEnd.StartWorld;
    EndToEnd.BrowserShowsALogPrefix(userLimit, user, loaded, moves, g);
    var w := EndToEnd.Reach(EndToEnd.StartWorld(userLimit, user, loaded), moves);
    var b, log := w.session.browser, LogOf(w.delivery.db, g);
    if g in b.views && b.views[g].conversation in b.messages {
      TextIsShownOnce(log[..b.views[g].sequence]);
    }
  }

  // ---------- Events ----------

  // The end names a status, an error says whether it is a cancellation, and any other event shows that the generation
  // runs, unless its end was asked for.
  ghost predicate StatusMoves(was: Status, now: Status, e: Event) {
    && (e.kind.Done? && e.status.Some? ==> now == e.status.value)
    && (e.kind.Done? && e.status.None? ==> now == Completed)
    && (e.kind.Error? && e.content == "已取消" ==> now == Cancelled)
    && (e.kind.Error? && e.content != "已取消" ==> now == Failed)
    && (!e.kind.Done? && !e.kind.Error? && was.CancelRequested? ==> now.CancelRequested?)
    && (!e.kind.Done? && !e.kind.Error? && !was.CancelRequested? ==> now.Running?)
  }

  // Only this view and this message change.
  ghost predicate OthersStay(b: Browser, n: Browser, p: Payload) {
    && n.user == b.user && n.messages.Keys == b.messages.Keys
    && n.views.Keys == b.views.Keys + {p.generation}
    && (forall g :: g in b.views && g != p.generation ==> n.views[g] == b.views[g])
    && (forall c :: c in b.messages && c != p.conversation ==> n.messages[c] == b.messages[c])
    && (p.conversation in b.messages ==>
          && n.messages[p.conversation].Keys == b.messages[p.conversation].Keys + {p.message}
          && forall m :: m in b.messages[p.conversation] && m != p.message ==>
               n.messages[p.conversation][m] == b.messages[p.conversation][m])
  }

  // An event is applied exactly if it is the next one of its generation: then the view counts it, the status moves, and
  // the message shows it if its conversation is loaded. Any other event changes nothing.
  lemma EventEffect(b: Browser, p: Payload)
    ensures var (n, r) := ApplyEvent(b, p);
            var known := p.generation in b.views;
            var at := if known then b.views[p.generation].sequence else 0;
            var was := if known then b.views[p.generation].status else Running;
            && (r.Duplicate? <==> known && p.sequence <= at) && (r.Gap? <==> p.sequence > at + 1)
            && (!r.Applied? ==> n == b)
            && (r.Applied? ==>
                  && OthersStay(b, n, p) && n.views[p.generation].sequence == p.sequence
                  && StatusMoves(was, n.views[p.generation].status, p.event)
                  && n.views[p.generation].conversation ==
                       (if known then b.views[p.generation].conversation else p.conversation)
                  && n.views[p.generation].message == (if known then b.views[p.generation].message else p.message)
                  && (p.conversation in b.messages ==>
                        n.messages[p.conversation][p.message] ==
                          ApplyBlock(BlocksOf(b, p.conversation, p.message), p.event)))
  {
    hide ApplyBlock;
  }

  // Without a gap in the events themselves, the snapshot stands for them: its blocks, its status and its place.
  lemma HistoryEffect(b: Browser, g: GenerationId, h: History)
    requires g in b.views && h.SnapshotMode?
    ensures var n, v := ApplyHistory(b, g, h), b.views[g];
            && n.user == b.user && n.views == b.views[g := View(v.conversation, v.message, h.status, h.sequence)]
            && (v.conversation in b.messages && v.message in b.messages[v.conversation] ==>
                  BlocksOf(n, v.conversation, v.message) == h.blocks)
            && (forall c: nat, m: nat :: (c, m) != (v.conversation, v.message) ==> BlocksOf(n, c, m) == BlocksOf(b, c, m))
            && (v.conversation !in b.messages || v.message !in b.messages[v.conversation] ==>
                  n.messages == b.messages)
  {
  }
}
