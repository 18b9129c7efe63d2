/** One chat turn: the message list sent to the model, and the two ways the reply comes
    back. A streamed reply is a given schedule of events, interleaved with the spinner's
    frame ticks; a buffered reply is a given content value. */
module ChatTurn {
  import opened Wrappers
  import opened Text
  import opened Json
  import opened SessionStore
  import opened Extensions
  import opened Console
  import opened Spinner

  /** Python's truthiness of an optional system prompt. */
  predicate HasPrompt(systemPrompt: Option<string>)
  {
    systemPrompt.Some? && systemPrompt.value != ""
  }

  /** `_build_messages`: the system prompt first when one is set, then the history unchanged. */
  function BuildMessages(systemPrompt: Option<string>, history: seq<Message>): (r: seq<Message>)
    ensures HasPrompt(systemPrompt) ==>
      |r| == |history| + 1 && r[0] == Message(System, systemPrompt.value) && r[1..] == history
    ensures !HasPrompt(systemPrompt) ==> r == history
  {
    if HasPrompt(systemPrompt) then [Message(System, systemPrompt.value)] + history else history
  }

  // ---------------------------------------------------------------- streamed reply

  /** What happens next during a streamed reply: the spinner thread draws a frame, an
      event without choices arrives, or an event whose first choice carries a delta. */
  datatype StreamStep = SpinnerTick | NoChoices | Delta(content: Option<string>)

  predicate IsReplyText(s: StreamStep)
  {
    s.Delta? && s.content.Some? && s.content.value != ""
  }

  /** The non-empty delta contents of a schedule, in order. */
  function Deltas(steps: seq<StreamStep>): (r: seq<string>)
    ensures forall i :: 0 <= i < |r| ==> r[i] != ""
    ensures |r| <= |steps|
  {
    if steps == [] then []
    else
      var last := steps[|steps| - 1];
      Deltas(steps[..|steps| - 1]) + (if IsReplyText(last) then [last.content.value] else [])
  }

  /** How many frame ticks come before the first reply text. */
  function TicksBeforeReply(steps: seq<StreamStep>): nat
  {
    if steps == [] then 0
    else
      var init := steps[..|steps| - 1];
      if Deltas(init) != [] then TicksBeforeReply(init)
      else TicksBeforeReply(init) + (if steps[|steps| - 1].SpinnerTick? then 1 else 0)
  }

  /** Each delta after the stream-delta hooks. */
  function Transformed(exts: seq<Extension>, ctx: ChatContext, ds: seq<string>): (r: seq<string>)
    ensures |r| == |ds|
  {
    seq(|ds|, i requires 0 <= i < |ds| => Chain(StreamDeltaHooks(exts), ds[i], ctx))
  }

  function FrameWrites(prefix: string, k: nat): (r: seq<Write>)
    ensures |r| == k
  {
    seq(k, i requires 0 <= i < k => Write(Frame, FrameText(prefix, i)))
  }

  /** How the label ends up on screen: not at all when it is empty; rewritten by the
      spinner's clearing write when frames were drawn; printed on its own otherwise,
      unless it was `lost`: marked printed by a stop that wrote nothing. */
  function LabelWrites(prefix: string, k: nat, lost: bool): seq<Write>
  {
    if prefix == "" then []
    else if k > 0 then [Write(Erase, EraseText(prefix, 2))]
    else if lost then []
    else [Write(Label, prefix)]
  }

  function PieceWrites(pieces: seq<string>): (r: seq<Write>)
    ensures |r| == |pieces|
  {
    seq(|pieces|, i requires 0 <= i < |pieces| => Write(Piece, pieces[i]))
  }

  /** Everything a streamed turn writes: `k` spinner frames, the label, the reply
      pieces in order, and the final line end. */
  function StreamOutput(prefix: string, k: nat, lost: bool, pieces: seq<string>): (r: seq<Write>)
    ensures |r| == k + |LabelWrites(prefix, k, lost)| + |pieces| + 1
    ensures r[..k] == FrameWrites(prefix, k)
    ensures r[k + |LabelWrites(prefix, k, lost)|..|r| - 1] == PieceWrites(pieces)
    ensures r[|r| - 1] == Write(Newline, "\n")
  {
    var f, l := FrameWrites(prefix, k), LabelWrites(prefix, k, lost);
    var ws := f + l + PieceWrites(pieces) + [Write(Newline, "\n")];
    assert ws[..k] == f;
    assert ws[k + |l|..|ws| - 1] == PieceWrites(pieces);
    ws
  }

  /** Whether the spinner is started: only for a label on an interactive terminal. */
  predicate Started(prefix: string, tty: bool)
  {
    prefix != "" && tty
  }

  /** Before the first reply text: only frames written, the spinner running if started. */
  ghost predicate Waiting(sp: Spinner, out: Console, w0: seq<Write>, prefix: string, started: bool, k: nat)
    reads sp, out
  {
    sp.prefix == prefix && sp.out == out && (!started ==> k == 0) && (started ==> prefix != "")
    && out.writes == w0 + FrameWrites(prefix, k)
    && sp.running == started && !sp.stopSet && !sp.prefixPrinted
    && sp.lastLen == (if k > 0 then 2 else 0) && sp.idx == k
  }

  /** After it: the spinner stopped, the label shown at most once, the pieces so far written. */
  ghost predicate Replying(sp: Spinner, out: Console, w0: seq<Write>, prefix: string, k: nat, lost: bool, parts: seq<string>)
    reads sp, out
  {
    sp.prefix == prefix && sp.out == out
    && out.writes == w0 + FrameWrites(prefix, k) + LabelWrites(prefix, k, lost) + PieceWrites(parts)
    && !sp.running && sp.prefixPrinted == (prefix != "")
  }

  /** The stop the turn uses: `stop_and_clear` as the source has it, or, with `fixedStop`,
      the corrected `StopAndRestore`. */
  method Stop(sp: Spinner, fixedStop: bool)
    modifies sp, sp.out
    ensures !old(sp.running) ==> sp.out.writes == old(sp.out.writes) && sp.prefixPrinted == old(sp.prefixPrinted)
    ensures old(sp.running) ==>
      sp.out.writes == old(sp.out.writes) + (if old(sp.lastLen) > 0 && sp.prefix != "" then [Write(Erase, EraseText(sp.prefix, old(sp.lastLen)))] else [])
      && sp.prefixPrinted == (if fixedStop then old(sp.prefixPrinted) || (old(sp.lastLen) > 0 && sp.prefix != "") else true)
    ensures !sp.running
  {
    if fixedStop {
      sp.StopAndRestore();
    } else {
      sp.StopAndClear();
    }
  }

  /** The two lines run before each piece and once at the end: stop the spinner, then
      print the label unless it is marked printed. As written, a spinner stopped before
      its first frame loses the label. */
  method StopAndLabel(sp: Spinner, fixedStop: bool, ghost w0: seq<Write>, ghost started: bool, ghost k: nat, ghost parts: seq<string>)
    modifies sp, sp.out
    ensures old((parts == [] && Waiting(sp, sp.out, w0, sp.prefix, started, k))
                || Replying(sp, sp.out, w0, sp.prefix, k, !fixedStop && started, parts)) ==>
      Replying(sp, sp.out, w0, sp.prefix, k, !fixedStop && started, parts)
  {
    Stop(sp, fixedStop);
    if sp.prefix != "" && !sp.prefixPrinted {
      sp.PrintPrefix();
    }
    assert PieceWrites([]) == [];
  }

  /** `_stream_chat`: the reply is the after-response chain over the concatenated transformed
      deltas. The writes are the frames, the label, the pieces and a line end; with the stop as
      written (`fixedStop` false) the label is lost when the first text beats the first frame,
      with the corrected stop (see `Spinner.StopAndRestore`) it never is. */
  method StreamChat(steps: seq<StreamStep>, exts: seq<Extension>, ctx: ChatContext, prefix: string, tty: bool,
                    fixedStop: bool, out: Console)
    returns (text: string)
    modifies out
    ensures text == Chain(AfterResponseHooks(exts), Concat(Transformed(exts, ctx, Deltas(steps))), ctx)
    ensures out.writes == old(out.writes)
      + StreamOutput(prefix, Ticks(steps, Started(prefix, tty)), !fixedStop && Started(prefix, tty), Transformed(exts, ctx, Deltas(steps)))
  {
    var spinner := new Spinner(prefix, out);
    var started := prefix != "" && tty;
    if started {
      spinner.Start();
    }
    ghost var w0 := out.writes;
    var parts := EventLoop(steps, exts, ctx, spinner, fixedStop, w0, started);
    ghost var k := Ticks(steps, started);
    if Deltas(steps) == [] {
      assert parts == [];
    }
    Finish(spinner, fixedStop, w0, started, k, parts);
    text := RunAfterResponseExtensions(exts, Concat(parts), ctx);
  }

  /** After the loop: stop the spinner, show the label if still due, and end the line. */
  method Finish(sp: Spinner, fixedStop: bool, ghost w0: seq<Write>, ghost started: bool, ghost k: nat, ghost parts: seq<string>)
    modifies sp, sp.out
    requires (parts == [] && Waiting(sp, sp.out, w0, sp.prefix, started, k)) || Replying(sp, sp.out, w0, sp.prefix, k, !fixedStop && started, parts)
    ensures sp.out.writes == w0 + StreamOutput(sp.prefix, k, !fixedStop && started, parts)
  {
    ghost var lost, prefix := !fixedStop && started, sp.prefix;
    StopAndLabel(sp, fixedStop, w0, started, k, parts);
    ghost var shown := FrameWrites(prefix, k) + LabelWrites(prefix, k, lost) + PieceWrites(parts);
    assert sp.out.writes == w0 + shown;
    sp.out.Emit(Write(Newline, "\n"));
    StreamOutputParts(prefix, k, lost, parts);
  }

  lemma StreamOutputParts(prefix: string, k: nat, lost: bool, pieces: seq<string>)
    ensures StreamOutput(prefix, k, lost, pieces)
      == FrameWrites(prefix, k) + LabelWrites(prefix, k, lost) + PieceWrites(pieces) + [Write(Newline, "\n")]
  {
  }

  lemma StreamOutputNested(prefix: string, k: nat, lost: bool, pieces: seq<string>)
    ensures StreamOutput(prefix, k, lost, pieces)
      == FrameWrites(prefix, k) + (LabelWrites(prefix, k, lost) + (PieceWrites(pieces) + [Write(Newline, "\n")]))
  {
    var f, l, p := FrameWrites(prefix, k), LabelWrites(prefix, k, lost), PieceWrites(pieces);
    assert f + l + p + [Write(Newline, "\n")] == f + (l + (p + [Write(Newline, "\n")]));
  }

  /** The `for event in stream` loop. */
  method EventLoop(steps: seq<StreamStep>, exts: seq<Extension>, ctx: ChatContext, sp: Spinner, fixedStop: bool,
                   ghost w0: seq<Write>, ghost started: bool)
    returns (parts: seq<string>)
    modifies sp, sp.out
    requires Waiting(sp, sp.out, w0, sp.prefix, started, 0)
    ensures parts == Transformed(exts, ctx, Deltas(steps))
    ensures Deltas(steps) == [] ==> Waiting(sp, sp.out, w0, sp.prefix, started, Ticks(steps, started))
    ensures Deltas(steps) != [] ==> Replying(sp, sp.out, w0, sp.prefix, Ticks(steps, started), !fixedStop && started, parts)
  {
    parts := [];
    for i := 0 to |steps|
      invariant parts == Transformed(exts, ctx, Deltas(steps[..i]))
      invariant Deltas(steps[..i]) == [] ==> Waiting(sp, sp.out, w0, sp.prefix, started, Ticks(steps[..i], started))
      invariant Deltas(steps[..i]) != [] ==> Replying(sp, sp.out, w0, sp.prefix, Ticks(steps[..i], started), !fixedStop && started, parts)
    {
      assert steps[..i + 1] == steps[..i] + [steps[i]];
      parts := HandleStep(steps[i], exts, ctx, sp, fixedStop, w0, started, steps[..i], parts);
    }
    assert steps[..|steps|] == steps;
  }

  /** One step of the event loop: a frame tick, an event to skip, or a piece of reply text. */
  method HandleStep(step: StreamStep, exts: seq<Extension>, ctx: ChatContext, sp: Spinner, fixedStop: bool,
                    ghost w0: seq<Write>, ghost started: bool, ghost before: seq<StreamStep>, parts: seq<string>)
    returns (parts': seq<string>)
    modifies sp, sp.out
    requires parts == Transformed(exts, ctx, Deltas(before))
    requires Deltas(before) == [] ==> Waiting(sp, sp.out, w0, sp.prefix, started, Ticks(before, started))
    requires Deltas(before) != [] ==> Replying(sp, sp.out, w0, sp.prefix, Ticks(before, started), !fixedStop && started, parts)
    ensures parts' == Transformed(exts, ctx, Deltas(before + [step]))
    ensures Deltas(before + [step]) == [] ==> Waiting(sp, sp.out, w0, sp.prefix, started, Ticks(before + [step], started))
    ensures Deltas(before + [step]) != [] ==>
      Replying(sp, sp.out, w0, sp.prefix, Ticks(before + [step], started), !fixedStop && started, parts')
  {
    var after := before + [step];
    assert after[..|before|] == before;
    ghost var k := Ticks(before, started);
    parts' := parts;
    match step
    case SpinnerTick =>
      sp.Tick();
      if Deltas(before) == [] && started {
        assert FrameWrites(sp.prefix, k + 1) == FrameWrites(sp.prefix, k) + [Write(Frame, FrameText(sp.prefix, k))];
      }
    case NoChoices =>
    case Delta(content) =>
      if content.Some? && content.value != "" {
        StopAndLabel(sp, fixedStop, w0, started, k, parts);
        var piece := RunStreamDeltaExtensions(exts, content.value, ctx);
        parts' := parts + [piece];
        sp.out.Emit(Write(Piece, piece));
        assert PieceWrites(parts') == PieceWrites(parts) + [Write(Piece, piece)];
      }
  }

  /** The frames a started spinner draws before the reply text; none when not started. */
  function Ticks(steps: seq<StreamStep>, started: bool): nat
  {
    if started then TicksBeforeReply(steps) else 0
  }

  /** A streamed turn shows its label at most once: never without a label, and never when
      the label was lost and no frame was drawn; exactly once otherwise. */
  lemma StreamLabelOnce(prefix: string, k: nat, lost: bool, pieces: seq<string>)
    ensures var ws := StreamOutput(prefix, k, lost, pieces);
      && CountKind(ws, Label) + CountKind(ws, Erase) <= 1
      && CountKind(ws, Label) + CountKind(ws, Erase) == (if prefix == "" || (lost && k == 0) then 0 else 1)
  {
    StreamKindCount(prefix, k, lost, pieces, Label);
    StreamKindCount(prefix, k, lost, pieces, Erase);
    LabelWritesCount(prefix, k, lost);
  }

  /** As written, a turn whose first text arrives before the spinner draws a frame shows
      no label; with the corrected stop the same turn shows it once. */
  lemma TurnLabelLost(prefix: string, steps: seq<StreamStep>, tty: bool, pieces: seq<string>)
    requires Started(prefix, tty) && TicksBeforeReply(steps) == 0
    ensures var ws := StreamOutput(prefix, Ticks(steps, true), true, pieces);
      CountKind(ws, Label) + CountKind(ws, Erase) == 0
    ensures var ws := StreamOutput(prefix, Ticks(steps, true), false, pieces);
      CountKind(ws, Label) + CountKind(ws, Erase) == 1
  {
    StreamLabelOnce(prefix, 0, true, pieces);
    StreamLabelOnce(prefix, 0, false, pieces);
  }

  /** One concrete turn on an interactive terminal: the reply "Hi" arrives before the
      spinner draws its first frame. As written only the reply and the line end reach the
      terminal; with the corrected stop the label comes first. */
  method FirstTextBeforeFrame(fixedStop: bool) returns (out: Console)
    ensures !fixedStop ==> out.writes == [Write(Piece, "Hi"), Write(Newline, "\n")]
    ensures fixedStop ==> out.writes == [Write(Label, "Assistant> "), Write(Piece, "Hi"), Write(Newline, "\n")]
  {
    out := new Console();
    var steps := [Delta(Some("Hi"))];
    var ctx := ChatContext("", "", None, None, []);
    assert steps[..0] == [];
    assert Deltas(steps) == ["Hi"];
    assert TicksBeforeReply(steps) == 0;
    assert Transformed([], ctx, ["Hi"]) == ["Hi"];
    var text := StreamChat(steps, [], ctx, "Assistant> ", true, fixedStop, out);
  }

  /** Labels and erases in a streamed turn come from the label writes alone. */
  lemma StreamKindCount(prefix: string, k: nat, lost: bool, pieces: seq<string>, kind: WriteKind)
    requires kind == Label || kind == Erase
    ensures CountKind(StreamOutput(prefix, k, lost, pieces), kind) == CountKind(LabelWrites(prefix, k, lost), kind)
  {
    var f, l, p := FrameWrites(prefix, k), LabelWrites(prefix, k, lost), PieceWrites(pieces);
    var t := p + [Write(Newline, "\n")];
    StreamOutputNested(prefix, k, lost, pieces);
    CountOfThree(f, l, t, kind);
    FramesCountNothing(prefix, k, kind);
    TailCountsNothing(pieces, kind);
  }

  lemma CountOfThree(f: seq<Write>, l: seq<Write>, t: seq<Write>, kind: WriteKind)
    ensures CountKind(f + (l + t), kind) == CountKind(f, kind) + CountKind(l, kind) + CountKind(t, kind)
  {
    CountKindAppend(f, l + t, kind);
    CountKindAppend(l, t, kind);
  }

  lemma FramesCountNothing(prefix: string, k: nat, kind: WriteKind)
    requires kind != Frame
    ensures CountKind(FrameWrites(prefix, k), kind) == 0
  {
    NoKindIn(FrameWrites(prefix, k), kind);
  }

  lemma TailCountsNothing(pieces: seq<string>, kind: WriteKind)
    requires kind != Piece && kind != Newline
    ensures CountKind(PieceWrites(pieces) + [Write(Newline, "\n")], kind) == 0
  {
    NoKindIn(PieceWrites(pieces) + [Write(Newline, "\n")], kind);
  }

  lemma LabelWritesCount(prefix: string, k: nat, lost: bool)
    ensures CountKind(LabelWrites(prefix, k, lost), Label) + CountKind(LabelWrites(prefix, k, lost), Erase)
      == (if prefix == "" || (lost && k == 0) then 0 else 1)
  {
    var l := LabelWrites(prefix, k, lost);
    if l != [] {
      assert l[..0] == [];
    }
  }

  lemma {:induction false} NoKindIn(ws: seq<Write>, k: WriteKind)
    requires forall i :: 0 <= i < |ws| ==> ws[i].kind != k
    ensures CountKind(ws, k) == 0
  {
    if ws != [] {
      NoKindIn(ws[..|ws| - 1], k);
    }
  }

  /** The reply pieces follow the label and every spinner frame, and the line end is last. */
  lemma StreamOutputOrder(prefix: string, k: nat, lost: bool, pieces: seq<string>)
    ensures var ws := StreamOutput(prefix, k, lost, pieces);
      var start := k + |LabelWrites(prefix, k, lost)|;
      |ws| == start + |pieces| + 1
      && (forall i :: 0 <= i < k ==> ws[i].kind == Frame)
      && (forall i :: 0 <= i < |pieces| ==> ws[start + i] == Write(Piece, pieces[i]))
      && (forall i :: start <= i < |ws| ==> ws[i].kind != Frame)
      && ws[|ws| - 1] == Write(Newline, "\n")
  {
  }

  // ---------------------------------------------------------------- buffered reply

  /** An item of a list-shaped content (a dict or an object): its `type` and `text`, if present. */
  datatype Part = Part(partType: Option<Json>, partText: Option<Json>)

  /** A buffered reply's `content`: absent, a string, a list of parts, or anything else. */
  datatype Content = NoContent | TextContent(text: string) | Parts(items: seq<Part>) | OtherContent

  predicate IsTextPart(p: Part)
  {
    p.partType == Some(Str("text")) && p.partText.Some? && p.partText.value.Str?
  }

  /** The texts of the text parts, in order. */
  function TextPieces(items: seq<Part>): seq<string>
  {
    if items == [] then []
    else
      var last := items[|items| - 1];
      TextPieces(items[..|items| - 1]) + (if IsTextPart(last) then [last.partText.value.s] else [])
  }

  /** What `_content_to_text` returns, with `dumped` standing for the JSON dump of the
      content (or its `str()` when it cannot be dumped). */
  function ContentText(content: Content, dumped: string): string
  {
    match content
    case NoContent => ""
    case TextContent(s) => s
    case Parts(items) => if TextPieces(items) != [] then Concat(TextPieces(items)) else dumped
    case OtherContent => dumped
  }

  method ContentToText(content: Content, dumped: string) returns (r: string)
    ensures r == ContentText(content, dumped)
  {
    match content
    case NoContent => return "";
    case TextContent(s) => return s;
    case OtherContent => return dumped;
    case Parts(items) =>
      var parts: seq<string> := [];
      for i := 0 to |items|
        invariant parts == TextPieces(items[..i])
      {
        assert items[..i + 1][..i] == items[..i];
        var item := items[i];
        if item.partType == Some(Str("text")) && item.partText.Some? && item.partText.value.Str? {
          parts := parts + [item.partText.value.s];
        }
      }
      assert items[..|items|] == items;
      if parts != [] {
        return Concat(parts);
      }
      return dumped;
  }

  function TextPart(s: string): Part
  {
    Part(Some(Str("text")), Some(Str(s)))
  }

  /** A list made only of text parts reads as the concatenation of their texts. */
  lemma {:induction false} TextPiecesOfTexts(ss: seq<string>)
    ensures TextPieces(seq(|ss|, i requires 0 <= i < |ss| => TextPart(ss[i]))) == ss
  {
    if ss != [] {
      var ps := seq(|ss|, i requires 0 <= i < |ss| => TextPart(ss[i]));
      var init := ss[..|ss| - 1];
      assert ps[..|ps| - 1] == seq(|init|, i requires 0 <= i < |init| => TextPart(init[i]));
      TextPiecesOfTexts(init);
    }
  }

  /** Items that are not text parts contribute nothing, wherever they sit. */
  lemma {:induction false} TextPiecesAppend(a: seq<Part>, b: seq<Part>)
    ensures TextPieces(a + b) == TextPieces(a) + TextPieces(b)
    decreases |b|
  {
    if b == [] {
      assert a + b == a;
    } else {
      assert (a + b)[..|a + b| - 1] == a + b[..|b| - 1];
      TextPiecesAppend(a, b[..|b| - 1]);
    }
  }

  /** A non-empty list of text parts gives their concatenated text, never the dump. */
  lemma ContentOfTextParts(ss: seq<string>, dumped: string)
    requires ss != []
    ensures ContentText(Parts(seq(|ss|, i requires 0 <= i < |ss| => TextPart(ss[i]))), dumped) == Concat(ss)
  {
    TextPiecesOfTexts(ss);
  }

  /** `_non_stream_chat`: `reply` is the first choice's content when there is a choice with
      a message. The text goes through the after-response chain, then the label and the text
      are printed. */
  method NonStreamChat(reply: Option<Content>, dumped: string, exts: seq<Extension>, ctx: ChatContext, prefix: string, out: Console)
    returns (text: string)
    modifies out
    ensures text == Chain(AfterResponseHooks(exts), if reply.Some? then ContentText(reply.value, dumped) else "", ctx)
    ensures out.writes == old(out.writes) + (if prefix != "" then [Write(Label, prefix)] else [])
      + [Write(Piece, text), Write(Newline, "\n")]
  {
    text := "";
    if reply.Some? {
      text := ContentToText(reply.value, dumped);
    }
    text := RunAfterResponseExtensions(exts, text, ctx);
    if prefix != "" {
      out.Emit(Write(Label, prefix));
    }
    out.Emit(Write(Piece, text));
    out.Emit(Write(Newline, "\n"));
  }
}
