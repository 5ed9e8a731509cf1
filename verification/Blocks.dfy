/**
 * How a browser folds the events of a generation into the blocks of its message (apps/web/src/stores/chat.ts).
 */
module Blocks {
  import opened Common
  import opened Events

  datatype Block = Block(
    kind: Kind,
    title: string,
    content: string,
    analysis: bool,
    activity: Option<ActivityData>,
    chartData: Option<nat>,
    artifact: Option<nat>,
    rowCount: Option<int>,
    durationMs: Option<int>,
    display: bool,
    rest: nat)

  const EMPTY_BLOCK := Block(Other(""), "", "", false, None, None, None, None, None, false, 0)

  function TextBlock(content: string): Block {
    EMPTY_BLOCK.(kind := Text, content := content)
  }

  function ChartBlock(e: Event): Block {
    EMPTY_BLOCK.(kind := Chart, chartData := e.chartData, artifact := e.artifact)
  }

  // The block that copies an event's fields.
  function Copied(e: Event): Block {
    Block(e.kind, e.title, e.content, e.analysis, e.activity, e.chartData, e.artifact, e.rowCount, e.durationMs,
        e.display, e.rest)
  }

  const PENDING := "正在"

  predicate IsActivity(b: Block, id: string) {
    b.kind.Activity? && b.activity.Some? && b.activity.value.id == id
  }

  predicate IsPendingLog(b: Block, title: string) {
    b.kind.Log? && b.title == title && PENDING <= b.content
  }

  predicate IsLoadingChart(b: Block, unused: string) {
    b.kind.Chart? && b.chartData.None?
  }

  // ---------- The first and the last block that a test accepts ----------

  type Test = (Block, string) -> bool

  function First(blocks: seq<Block>, test: Test, key: string): (i: nat)
    ensures i <= |blocks|
    ensures i < |blocks| ==> test(blocks[i], key)
    ensures forall k :: 0 <= k < i ==> !test(blocks[k], key)
  {
    if blocks == [] || test(blocks[0], key) then 0 else 1 + First(blocks[1..], test, key)
  }

  // The length of `blocks` stands for: there is none.
  function Last(blocks: seq<Block>, test: Test, key: string): (i: nat)
    ensures i <= |blocks|
    ensures i < |blocks| ==> test(blocks[i], key)
    ensures forall k :: 0 <= k < |blocks| && (i == |blocks| || i < k) ==> !test(blocks[k], key)
  {
    if blocks == [] then 0
    else
      var n := |blocks| - 1;
      if test(blocks[n], key) then n
      else
        var i := Last(blocks[..n], test, key);
        if i == n then n + 1 else i
  }

  method FindFirst(blocks: seq<Block>, test: Test, key: string) returns (i: nat)
    ensures i == First(blocks, test, key)
  {
    i := 0;
    while i < |blocks| && !test(blocks[i], key)
      invariant i <= |blocks|
      invariant forall k :: 0 <= k < i ==> !test(blocks[k], key)
    {
      i := i + 1;
    }
  }

  method FindLast(blocks: seq<Block>, test: Test, key: string) returns (i: nat)
    ensures i == Last(blocks, test, key)
  {
    var n := |blocks|;
    while n > 0
      invariant 0 <= n <= |blocks|
      invariant forall k :: n <= k < |blocks| ==> !test(blocks[k], key)
    {
      if test(blocks[n - 1], key) {
        return n - 1;
      }
      n := n - 1;
    }
    return |blocks|;
  }

  // ---------- applyBlock ----------

  function Without(blocks: seq<Block>, i: nat): seq<Block> {
    if i < |blocks| then blocks[..i] + blocks[i + 1..] else blocks
  }

  function AppendText(blocks: seq<Block>, text: string): seq<Block> {
    var n := |blocks|;
    if n > 0 && blocks[n - 1].kind.Text? && !blocks[n - 1].analysis
    then blocks[n - 1 := blocks[n - 1].(content := blocks[n - 1].content + text)]
    else blocks + [TextBlock(text)]
  }

  function PutActivity(blocks: seq<Block>, a: ActivityData): seq<Block> {
    var i := First(blocks, IsActivity, a.id);
    var block := EMPTY_BLOCK.(kind := Activity, activity := Some(a));
    if i < |blocks| then blocks[i := block] else blocks + [block]
  }

  function UpdateLog(blocks: seq<Block>, e: Event): seq<Block> {
    var i := Last(blocks, IsPendingLog, e.title);
    if i < |blocks| then blocks[i := blocks[i].(content := e.content, rowCount := e.rowCount,
        durationMs := e.durationMs)] else blocks
  }

  function PutChart(blocks: seq<Block>, e: Event): seq<Block> {
    var i := Last(blocks, IsLoadingChart, "");
    if i < |blocks| then blocks[i := blocks[i].(chartData := e.chartData, artifact := e.artifact)]
        else blocks + [ChartBlock(e)]
  }

  function ApplyBlock(blocks: seq<Block>, e: Event): seq<Block> {
    match e.kind
    case Done => blocks
    case Activity => if e.activity.Some? then PutActivity(blocks, e.activity.value) else blocks + [Copied(e)]
    case ActivityRemove => Without(blocks, First(blocks, IsActivity, e.activityId))
    case TextChunk => AppendText(blocks, e.content)
    case ReasoningChunk => blocks
    case ChartLoading => blocks + [EMPTY_BLOCK.(kind := Chart)]
    case LogUpdate => UpdateLog(blocks, e)
    case LogRemove => Without(blocks, Last(blocks, IsPendingLog, e.title))
    case Chart => PutChart(blocks, e)
    case _ => blocks + [Copied(e)]
  }

  function Fold(blocks: seq<Block>, log: seq<Payload>): seq<Block> {
    if log == [] then blocks else ApplyBlock(Fold(blocks, log[..|log| - 1]), log[|log| - 1].event)
  }
}
