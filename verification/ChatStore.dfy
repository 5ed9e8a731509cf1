/**
 * The browser's store as mutable state, branch by branch: applyBlock with its searches, applyEvent, resync and the body
 * of the event loop, each proved to leave the state that Client specifies.
 */
module ChatStores {
  import opened Events
  import opened Blocks
  import opened Client

  class ChatStore {
    const user: UserId
    var views: map<GenerationId, View>
    var messages: map<ConversationId, map<MessageId, seq<Block>>>

    function State(): Browser
      reads this
    {
      Browser(user, views, messages)
    }

    constructor (user: UserId)
      ensures State() == Browser(user, map[], map[])
    {
      this.user, views, messages := user, map[], map[];
    }

    static method ApplyBlock(blocks: seq<Block>, e: Event) returns (r: seq<Block>)
      ensures r == Blocks.ApplyBlock(blocks, e)
    {
      r := blocks;
      if e.kind.Done? {
        return;
      }
      if e.kind.Activity? && e.activity.Some? {
        var index := FindFirst(r, IsActivity, e.activity.value.id);
        var block := EMPTY_BLOCK.(kind := Activity, activity := e.activity);
        if index < |r| {
          r := r[index := block];
        } else {
          r := r + [block];
        }
        return;
      }
      if e.kind.ActivityRemove? {
        var index := FindFirst(r, IsActivity, e.activityId);
        if index < |r| {
          r := r[..index] + r[index + 1..];
        }
        return;
      }
      if e.kind.TextChunk? {
        var last := |r| - 1;
        if last >= 0 && r[last].kind.Text? && !r[last].analysis {
          r := r[last := r[last].(content := r[last].content + e.content)];
        } else {
          r := r + [TextBlock(e.content)];
        }
        return;
      }
      if e.kind.ReasoningChunk? {
        return;
      }
      if e.kind.ChartLoading? {
        r := r + [EMPTY_BLOCK.(kind := Chart)];
        return;
      }
      if e.kind.LogUpdate? {
        var item := FindLast(r, IsPendingLog, e.title);
        if item < |r| {
          r := r[item := r[item].(content := e.content, rowCount := e.rowCount, durationMs := e.durationMs)];
        }
        return;
      }
      if e.kind.LogRemove? {
        var index := FindLast(r, IsPendingLog, e.title);
        if index < |r| {
          r := r[..index] + r[index + 1..];
        }
        return;
      }
      if e.kind.Chart? {
        var item := FindLast(r, IsLoadingChart, "");
        if item < |r| {
          r := r[item := r[item].(chartData := e.chartData, artifact := e.artifact)];
        } else {
          r := r + [ChartBlock(e)];
        }
        return;
      }
      r := r + [Copied(e)];
    }

    method ApplyEvent(p: Payload) returns (r: Reply)
      modifies this
      ensures (State(), r) == Client.ApplyEvent(old(State()), p)
    {
      var g := p.generation;
      if g in views && p.sequence <= views[g].sequence {
        return Duplicate;
      }
      var v := if g in views then views[g] else View(p.conversation, p.message, Running, 0);
      if p.sequence > v.sequence + 1 {
        return Gap;
      }
      v := v.(sequence := p.sequence);
      if p.event.kind.Done? {
        v := v.(status := p.event.status.GetOr(Completed));
      } else if p.event.kind.Error? {
        v := v.(status := if p.event.content == CANCELLED_TEXT then Cancelled else Failed);
      } else if !v.status.CancelRequested? {
        v := v.(status := Running);
      }
      views := views[g := v];
      if p.conversation !in messages {
        return Applied;
      }
      var loaded: map<MessageId, seq<Block>> := messages[p.conversation];
      if p.message !in loaded {
        loaded := loaded[p.message := []];
      }
      var blocks := ApplyBlock(loaded[p.message], p.event);
      assert loaded[p.message := blocks] == messages[p.conversation][p.message := blocks];
      messages := messages[p.conversation := loaded[p.message := blocks]];
      return Applied;
    }

    // The events of a history reply, applied in order.
    method ApplyEvents(events: seq<Payload>)
      modifies this
      ensures State() == Client.ApplyEvents(old(State()), events)
    {
      for i := 0 to |events|
        invariant State() == Client.ApplyEvents(old(State()), events[..i])
      {
        assert events[..i + 1][..i] == events[..i];
        var _ := ApplyEvent(events[i]);
      }
      assert events[..|events|] == events;
    }

    // The rest of resync, once the history endpoint has answered.
    method ApplyHistory(g: GenerationId, h: History)
      requires g in views
      modifies this
      ensures State() == Client.ApplyHistory(old(State()), g, h)
    {
      if h.EventsMode? {
        ApplyEvents(h.events);
      } else if h.SnapshotMode? {
        var v := views[g].(sequence := h.sequence, status := h.status);
        views := views[g := v];
        if v.conversation in messages && v.message in messages[v.conversation] {
          var loaded: map<MessageId, seq<Block>> := messages[v.conversation];
          messages := messages[v.conversation := loaded[v.message := h.blocks]];
        }
      }
    }

    // The body of the event loop; `h` is what the history endpoint answers if it is asked.
    method HandleEvent(p: Payload, h: History)
      modifies this
      ensures var (b, r) := Client.ApplyEvent(old(State()), p);
              State() ==
                if r.Gap? && p.generation in b.views then Client.ApplyEvent(Client.ApplyHistory(b, p.generation, h),
                    p).0
                else b
    {
      var r := ApplyEvent(p);
      if r.Gap? {
        if p.generation in views {
          ApplyHistory(p.generation, h);
        }
        r := ApplyEvent(p);
      }
    }

    method Register(g: GenerationId, c: ConversationId, m: MessageId)
      modifies this
      ensures State() == Client.Register(old(State()), g, c, m)
    {
      if c in messages {
        var loaded: map<MessageId, seq<Block>> := messages[c];
        if m !in loaded {
          messages := messages[c := loaded[m := []]];
        } else {
          assert loaded == loaded[m := loaded[m]];
          assert messages == messages[c := loaded];
        }
      }
      views := views[g := View(c, m, Pending, 0)];
    }
  }
}
