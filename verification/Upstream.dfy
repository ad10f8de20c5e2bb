/** What comes from the provider: chunks that may carry reasoning, content and pieces of tool calls. */
module Upstream {
  import opened Strings
  import opened ToolCalls

  /** One upstream chunk. A chunk without choices, or whose delta is missing, is Empty. */
  datatype Chunk =
    | Empty
    | Delta(finish: string, reasoning: string, extra: seq<string>, content: string, tools: seq<ToolDelta>)

  function Contents(chunks: seq<Chunk>): string {
    if chunks == [] then ""
    else
      var last := chunks[|chunks| - 1];
      Contents(chunks[..|chunks| - 1]) + (if last.Delta? then last.content else "")
  }

  function AllTools(chunks: seq<Chunk>): seq<ToolDelta> {
    if chunks == [] then []
    else
      var last := chunks[|chunks| - 1];
      AllTools(chunks[..|chunks| - 1]) + (if last.Delta? then last.tools else [])
  }

  function LastFinish(chunks: seq<Chunk>): string {
    if chunks == [] then ""
    else
      var last := chunks[|chunks| - 1];
      if last.Delta? && last.finish != "" then last.finish else LastFinish(chunks[..|chunks| - 1])
  }

  lemma ChunksAppend(chunks: seq<Chunk>, n: nat)
    requires n < |chunks|
    ensures Contents(chunks[..n + 1]) == Contents(chunks[..n]) + (if chunks[n].Delta? then chunks[n].content else "")
    ensures AllTools(chunks[..n + 1]) == AllTools(chunks[..n]) + (if chunks[n].Delta? then chunks[n].tools else [])
    ensures LastFinish(chunks[..n + 1]) ==
            if chunks[n].Delta? && chunks[n].finish != "" then chunks[n].finish else LastFinish(chunks[..n])
  {
    assert chunks[..n + 1][..n] == chunks[..n];
  }

  lemma {:induction false} AllToolsPrefix(chunks: seq<Chunk>, n: nat)
    requires n <= |chunks|
    ensures AllTools(chunks[..n]) <= AllTools(chunks)
    decreases |chunks| - n
  {
    if n < |chunks| {
      ChunksAppend(chunks, n);
      AllToolsPrefix(chunks, n + 1);
    } else {
      assert chunks[..n] == chunks;
    }
  }

  /** Later chunks add to earlier ones; the finish reason is the last one given. */
  lemma {:induction false} ChunksConcat(a: seq<Chunk>, b: seq<Chunk>)
    ensures Contents(a + b) == Contents(a) + Contents(b) && AllTools(a + b) == AllTools(a) + AllTools(b)
    ensures LastFinish(a + b) == if LastFinish(b) != "" then LastFinish(b) else LastFinish(a)
  {
    hide Contents, AllTools, LastFinish;
    if b == [] {
      NoChunks();
      assert a + b == a;
    } else {
      var init := b[..|b| - 1];
      ChunksConcat(a, init);
      ChunksAppend(a + b, |a + init|);
      ChunksAppend(b, |init|);
      assert (a + b)[..|a + init|] == a + init && (a + b)[|a + init|] == b[|init|];
      assert (a + b)[..|a + init| + 1] == a + b && b[..|init| + 1] == b;
    }
  }

  lemma NoChunks()
    ensures Contents([]) == "" && AllTools([]) == [] && LastFinish([]) == ""
  {
  }

  /** Each tool delta of a chunk has its place behind all those of the chunks before. */
  lemma DeltaInPlace(chunks: seq<Chunk>, n: nat, i: nat)
    requires n < |chunks| && chunks[n].Delta? && i < |chunks[n].tools|
    ensures var at := |AllTools(chunks[..n])| + i; at < |AllTools(chunks)| && AllTools(chunks)[at] == chunks[n].tools[i]
  {
    ChunksAppend(chunks, n);
    AllToolsPrefix(chunks, n + 1);
  }

  /** The finish reason that counts is given by some chunk, and by none after it. */
  lemma {:induction false} LastFinishIs(chunks: seq<Chunk>, n: nat)
    requires n < |chunks| && chunks[n].Delta? && chunks[n].finish != ""
    requires forall j :: n < j < |chunks| ==> chunks[j].Empty? || chunks[j].finish == ""
    ensures LastFinish(chunks) == chunks[n].finish
  {
    if n < |chunks| - 1 {
      LastFinishIs(chunks[..|chunks| - 1], n);
    }
  }

  /** What the reasoning channels say: `reasoning_content`, then the provider's own events. */
  function Reasoning(chunk: Chunk): string {
    if chunk.Delta? then chunk.reasoning + Join(chunk.extra) else ""
  }

  predicate NoReasoning(chunks: seq<Chunk>) {
    forall c :: c in chunks ==> Reasoning(c) == ""
  }
}
