/**
 * The streaming accumulator of `ModelProvider.chat`: it turns the chunks of
 * one streamed completion into the cumulative snapshots the generator yields.
 */
module Streaming {
  import opened Wrappers
  import opened PyStr

  /** The `delta` of a chunk's first choice; an absent attribute reads as `None`. */
  datatype Delta = Delta(reasoningContent: Option<string>, content: Option<string>)

  /** One streamed chunk; its first choice may carry no `delta` at all. */
  datatype Chunk = Chunk(delta: Option<Delta>)

  /** A yielded dictionary: `{"content": c}` on the plain path, or
      `{"reasoning_content": r, "content": c}` on the reasoning path. */
  datatype Snapshot = Plain(content: string) | Reasoned(reasoningContent: Option<string>, content: string)

  /** The two accumulators `reasoning` and `response`. */
  datatype Acc = Acc(reasoning: string, response: string)

  datatype Progress = Progress(acc: Acc, emitted: seq<Snapshot>)

  /** The reasoning a snapshot shows; a missing or `None` entry shows nothing. */
  function ReasoningText(s: Snapshot): string {
    if s.Reasoned? && s.reasoningContent.Some? then s.reasoningContent.value else ""
  }

  /** `reasoning if reasoning else None` */
  function NoneIfEmpty(reasoning: string): Option<string> {
    if reasoning != "" then Some(reasoning) else None
  }

  /** True of a chunk whose delta exists and carries non-`None` content. */
  predicate HasContent(c: Chunk) {
    c.delta.Some? && c.delta.value.content.Some?
  }

  /** True of a chunk whose delta exists and carries non-`None` reasoning. */
  predicate HasReasoning(c: Chunk) {
    c.delta.Some? && c.delta.value.reasoningContent.Some?
  }

  /** The content pieces of `chunks`, in stream order. */
  function ContentPieces(chunks: seq<Chunk>): seq<string>
  {
    if chunks == [] then []
    else
      var last := chunks[|chunks| - 1];
      ContentPieces(chunks[..|chunks| - 1]) + (if HasContent(last) then [last.delta.value.content.value] else [])
  }

  /** The reasoning pieces of `chunks`, in stream order. */
  function ReasoningPieces(chunks: seq<Chunk>): seq<string>
  {
    if chunks == [] then []
    else
      var last := chunks[|chunks| - 1];
      ReasoningPieces(chunks[..|chunks| - 1]) + (if HasReasoning(last) then [last.delta.value.reasoningContent.value] else [])
  }

  /** `"".join(pieces)` */
  function Concat(pieces: seq<string>): string
  {
    Join("", pieces)
  }

  /** The number of snapshots one chunk makes the generator yield. */
  function Yields(c: Chunk, reasoningModel: bool): nat {
    if reasoningModel then (if HasReasoning(c) then 1 else 0) + (if HasContent(c) then 1 else 0)
    else if HasContent(c) then 1 else 0
  }

  /** One iteration of the `for chunk in stream` loop. The reasoning
      accumulator only moves on the reasoning path. */
  function Step(acc: Acc, c: Chunk, reasoningModel: bool): (r: Progress)
    requires !reasoningModel ==> acc.reasoning == ""
    ensures r.acc.response == acc.response + (if HasContent(c) then c.delta.value.content.value else "")
    ensures r.acc.reasoning == acc.reasoning + (if reasoningModel && HasReasoning(c) then c.delta.value.reasoningContent.value else "")
    ensures |r.emitted| == Yields(c, reasoningModel)
  {
    match c.delta
    case None => Progress(acc, [])
    case Some(d) =>
      if reasoningModel then
        var afterReasoning :=
          if d.reasoningContent.Some? then Acc(acc.reasoning + d.reasoningContent.value, acc.response) else acc;
        var first :=
          if d.reasoningContent.Some? then [Reasoned(Some(afterReasoning.reasoning), afterReasoning.response)] else [];
        var afterContent :=
          if d.content.Some? then Acc(afterReasoning.reasoning, afterReasoning.response + d.content.value) else afterReasoning;
        var second :=
          if d.content.Some? then [Reasoned(NoneIfEmpty(afterContent.reasoning), afterContent.response)] else [];
        Progress(afterContent, first + second)
      else if d.content.Some? then
        var next := Acc(acc.reasoning, acc.response + d.content.value);
        Progress(next, [Plain(next.response)])
      else
        Progress(acc, [])
  }

  /** What one iteration yields: plain snapshots carry the new content; on the
      reasoning path the content snapshot carries `None` while no reasoning
      has arrived; a step that yields nothing changes nothing; otherwise every
      snapshot extends the one before and the last shows both accumulators. */
  lemma StepShape(acc: Acc, c: Chunk, reasoningModel: bool)
    requires !reasoningModel ==> acc.reasoning == ""
    ensures var r := Step(acc, c, reasoningModel);
      (!reasoningModel ==> r.emitted == if HasContent(c) then [Plain(r.acc.response)] else [])
      && (reasoningModel && HasContent(c) ==>
           r.emitted[|r.emitted| - 1] == Reasoned(NoneIfEmpty(r.acc.reasoning), r.acc.response))
      && (r.emitted == [] ==> r.acc == acc)
      && (r.emitted != [] ==> Ends(r.emitted, r.acc))
      && GrowsFrom(acc, r.emitted)
  {
  }

  /** The loop over a whole chunk sequence, from empty accumulators. */
  function Run(chunks: seq<Chunk>, reasoningModel: bool): (r: Progress)
    ensures !reasoningModel ==> r.acc.reasoning == ""
  {
    if chunks == [] then Progress(Acc("", ""), [])
    else
      var prior := Run(chunks[..|chunks| - 1], reasoningModel);
      var step := Step(prior.acc, chunks[|chunks| - 1], reasoningModel);
      Progress(step.acc, prior.emitted + step.emitted)
  }

  /** After the loop, `response` is all content pieces joined and
      `reasoning` is all reasoning pieces joined (or stays empty on the plain
      path). */
  lemma {:induction false} RunAccumulates(chunks: seq<Chunk>, reasoningModel: bool)
    ensures Run(chunks, reasoningModel).acc.response == Concat(ContentPieces(chunks))
    ensures Run(chunks, reasoningModel).acc.reasoning == if reasoningModel then Concat(ReasoningPieces(chunks)) else ""
    decreases |chunks|
  {
    if chunks != [] {
      var init := chunks[..|chunks| - 1];
      RunAccumulates(init, reasoningModel);
      ConcatSnoc(ContentPieces(init), chunks[|chunks| - 1]);
      ReasoningConcatSnoc(ReasoningPieces(init), chunks[|chunks| - 1]);
    }
  }

  lemma ConcatSnoc(pieces: seq<string>, c: Chunk)
    ensures Concat(pieces + (if HasContent(c) then [c.delta.value.content.value] else []))
      == Concat(pieces) + (if HasContent(c) then c.delta.value.content.value else "")
  {
    if HasContent(c) {
      JoinSnoc("", pieces, c.delta.value.content.value);
    } else {
      assert pieces + [] == pieces;
    }
  }

  lemma ReasoningConcatSnoc(pieces: seq<string>, c: Chunk)
    ensures Concat(pieces + (if HasReasoning(c) then [c.delta.value.reasoningContent.value] else []))
      == Concat(pieces) + (if HasReasoning(c) then c.delta.value.reasoningContent.value else "")
  {
    if HasReasoning(c) {
      JoinSnoc("", pieces, c.delta.value.reasoningContent.value);
    } else {
      assert pieces + [] == pieces;
    }
  }

  /** The last snapshot carries both accumulators. */
  predicate Ends(snaps: seq<Snapshot>, acc: Acc)
    requires snaps != []
  {
    snaps[|snaps| - 1].content == acc.response && ReasoningText(snaps[|snaps| - 1]) == acc.reasoning
  }

  /** Each snapshot of `snaps` extends the one before it (the first one
      extends `acc`), both in content and in reasoning. */
  predicate GrowsFrom(acc: Acc, snaps: seq<Snapshot>) {
    (snaps != [] ==> acc.response <= snaps[0].content && acc.reasoning <= ReasoningText(snaps[0]))
    && forall i :: 0 < i < |snaps| ==>
      snaps[i - 1].content <= snaps[i].content && ReasoningText(snaps[i - 1]) <= ReasoningText(snaps[i])
  }

  /** Within one attempt both accumulators only grow: every snapshot extends
      the previous one, and the last snapshot shows the final accumulators. */
  lemma {:induction false} RunGrows(chunks: seq<Chunk>, reasoningModel: bool)
    ensures var r := Run(chunks, reasoningModel);
      GrowsFrom(Acc("", ""), r.emitted) && (r.emitted != [] ==> Ends(r.emitted, r.acc))
      && (r.emitted == [] ==> r.acc == Acc("", ""))
  {
    if chunks != [] {
      var init := chunks[..|chunks| - 1];
      RunGrows(init, reasoningModel);
      var prior := Run(init, reasoningModel);
      var step := Step(prior.acc, chunks[|chunks| - 1], reasoningModel);
      StepShape(prior.acc, chunks[|chunks| - 1], reasoningModel);
      GrowsConcat(Acc("", ""), prior.emitted, prior.acc, step.emitted);
      var all := prior.emitted + step.emitted;
      assert Run(chunks, reasoningModel) == Progress(step.acc, all);
      if all != [] && step.emitted == [] {
        assert all[|all| - 1] == prior.emitted[|prior.emitted| - 1];
      }
    }
  }

  /** Two growing runs glue into one when the second starts from where the
      first ended. */
  lemma GrowsConcat(start: Acc, a: seq<Snapshot>, mid: Acc, b: seq<Snapshot>)
    requires GrowsFrom(start, a) && GrowsFrom(mid, b)
    requires a == [] ==> mid == start
    requires a != [] ==> Ends(a, mid)
    ensures GrowsFrom(start, a + b)
  {
    var all := a + b;
    var n := |a|;
    forall i | 0 < i < |all|
      ensures all[i - 1].content <= all[i].content
      ensures ReasoningText(all[i - 1]) <= ReasoningText(all[i])
    {
      if i < n {
        assert all[i - 1] == a[i - 1] && all[i] == a[i];
      } else if i == n {
        assert all[i - 1] == a[n - 1] && all[i] == b[0];
      } else {
        assert all[i - 1] == b[i - 1 - n] && all[i] == b[i - n];
      }
    }
    if all != [] {
      assert all[0] == if n == 0 then b[0] else a[0];
    }
  }

  /** The accumulating loop of `chat`, run over one attempt's chunks. */
  method Accumulate(chunks: seq<Chunk>, reasoningModel: bool) returns (snapshots: seq<Snapshot>)
    ensures snapshots == Run(chunks, reasoningModel).emitted
  {
    var response := "";
    var reasoning := "";
    snapshots := [];
    for i := 0 to |chunks|
      invariant Run(chunks[..i], reasoningModel) == Progress(Acc(reasoning, response), snapshots)
    {
      assert chunks[..i + 1][..i] == chunks[..i];
      ghost var step := Step(Acc(reasoning, response), chunks[i], reasoningModel);
      ghost var before := snapshots;
      var delta := chunks[i].delta;
      if reasoningModel && delta.Some? {
        if delta.value.reasoningContent.Some? {
          reasoning := reasoning + delta.value.reasoningContent.value;
          snapshots := snapshots + [Reasoned(Some(reasoning), response)];
        }
        if delta.value.content.Some? {
          response := response + delta.value.content.value;
          snapshots := snapshots + [Reasoned(NoneIfEmpty(reasoning), response)];
        }
      } else {
        if delta.Some? && delta.value.content.Some? {
          response := response + delta.value.content.value;
          snapshots := snapshots + [Plain(response)];
        }
      }
      assert Progress(Acc(reasoning, response), snapshots) == Progress(step.acc, before + step.emitted);
    }
    assert chunks[..|chunks|] == chunks;
  }

  /** One plain snapshot per piece, each showing the pieces so far joined. */
  function PlainsOf(pieces: seq<string>): seq<Snapshot>
  {
    if pieces == [] then [] else PlainsOf(pieces[..|pieces| - 1]) + [Plain(Concat(pieces))]
  }

  lemma {:induction false} PlainsOfAt(pieces: seq<string>, k: nat)
    requires k < |pieces|
    ensures |PlainsOf(pieces)| == |pieces|
    ensures PlainsOf(pieces)[k] == Plain(Concat(pieces[..k + 1]))
    decreases |pieces|
  {
    var init := pieces[..|pieces| - 1];
    if k < |init| {
      PlainsOfAt(init, k);
      assert init[..k + 1] == pieces[..k + 1];
    } else {
      if init != [] {
        PlainsOfAt(init, 0);
      }
      assert pieces[..k + 1] == pieces;
    }
  }

  lemma {:induction false} PlainRun(chunks: seq<Chunk>)
    ensures Run(chunks, false).emitted == PlainsOf(ContentPieces(chunks))
    decreases |chunks|
  {
    if chunks != [] {
      var init := chunks[..|chunks| - 1];
      var last := chunks[|chunks| - 1];
      PlainRun(init);
      RunAccumulates(chunks, false);
      var before := Run(init, false);
      StepShape(before.acc, last, false);
      var pieces := ContentPieces(chunks);
      if HasContent(last) {
        assert pieces[..|pieces| - 1] == ContentPieces(init);
      } else {
        assert pieces == ContentPieces(init);
      }
    }
  }

  /** On the plain path exactly one `{"content": r}` is yielded per content
      chunk, and the k-th carries the first k+1 content pieces joined. */
  lemma PlainSnapshots(chunks: seq<Chunk>)
    ensures var snaps := Run(chunks, false).emitted;
      |snaps| == |ContentPieces(chunks)|
      && forall k :: 0 <= k < |snaps| ==> snaps[k] == Plain(Concat(ContentPieces(chunks)[..k + 1]))
  {
    var pieces := ContentPieces(chunks);
    PlainRun(chunks);
    if pieces != [] {
      PlainsOfAt(pieces, 0);
    } else {
      assert PlainsOf(pieces) == [];
    }
    forall k | 0 <= k < |pieces|
      ensures PlainsOf(pieces)[k] == Plain(Concat(pieces[..k + 1]))
    {
      PlainsOfAt(pieces, k);
    }
  }

  /** On the reasoning path a chunk with no delta yields nothing and changes
      nothing, and otherwise yields once for reasoning, then once for content. */
  lemma ReasoningStepYields(acc: Acc, c: Chunk)
    ensures c.delta.None? ==> Step(acc, c, true) == Progress(acc, [])
    ensures HasReasoning(c) ==>
      Step(acc, c, true).emitted[0] == Reasoned(Some(acc.reasoning + c.delta.value.reasoningContent.value), acc.response)
    ensures HasContent(c) && acc.reasoning == "" && !HasReasoning(c) ==>
      Step(acc, c, true).emitted == [Reasoned(None, acc.response + c.delta.value.content.value)]
  {
  }

  /** Two content chunks "Hel" and "lo" yield the snapshots "Hel" and
      "Hello", in that order, on either path. */
  lemma HelloSnapshots(reasoningModel: bool)
    ensures var chunks := [Chunk(Some(Delta(None, Some("Hel")))), Chunk(Some(Delta(None, Some("lo"))))];
      Run(chunks, reasoningModel).emitted
        == if reasoningModel then [Reasoned(None, "Hel"), Reasoned(None, "Hello")] else [Plain("Hel"), Plain("Hello")]
  {
    var chunks := [Chunk(Some(Delta(None, Some("Hel")))), Chunk(Some(Delta(None, Some("lo"))))];
    assert chunks[..1][..0] == [];
    assert chunks[..2][..1] == chunks[..1];
    assert chunks[..2] == chunks;
    assert "" + "Hel" == "Hel";
    assert NoneIfEmpty("") == None;
    assert Step(Acc("", ""), chunks[0], reasoningModel).emitted
      == if reasoningModel then [Reasoned(None, "Hel")] else [Plain("Hel")];
    var first := Run(chunks[..1], reasoningModel);
    var step := Step(Acc("", ""), chunks[0], reasoningModel);
    assert Run(chunks[..1][..0], reasoningModel) == Progress(Acc("", ""), []);
    assert chunks[..1][0] == chunks[0];
    assert first == Progress(step.acc, [] + step.emitted);
    assert first.acc == Acc("", "Hel");
    assert first.emitted == if reasoningModel then [Reasoned(None, "Hel")] else [Plain("Hel")];
    assert "Hel" + "lo" == "Hello";
  }
}
