/** The terminal spinner shown before the first reply text arrives. Its drawing thread
    is reduced to `Tick`, one iteration of the thread's loop; when ticks happen relative
    to the rest of the program is left to the caller. */
module Spinner {
  import opened Console

  const Frames: seq<string> := ["|", "/", "-", "\\"]

  /** The animation drawn at frame index `idx`: a space and one of four characters. */
  function Anim(idx: nat): (a: string)
    ensures |a| == 2 && a[0] == ' '
  {
    " " + Frames[idx % 4]
  }

  function Spaces(n: nat): (s: string)
    ensures |s| == n && forall i :: 0 <= i < n ==> s[i] == ' '
  {
    if n == 0 then "" else Spaces(n - 1) + " "
  }

  function FrameText(prefix: string, idx: nat): string
  {
    "\r" + prefix + Anim(idx)
  }

  /** Back to the line start, blank out label and animation, back again, label again. */
  function EraseText(prefix: string, n: nat): string
  {
    "\r" + prefix + Spaces(n) + "\r" + prefix
  }

  lemma FramesCycle(idx: nat)
    ensures Anim(idx + 4) == Anim(idx)
    ensures Anim(0) == " |" && Anim(1) == " /" && Anim(2) == " -" && Anim(3) == " \\"
  {
    assert (idx + 4) % 4 == idx % 4;
  }

  class Spinner {
    const prefix: string
    const out: Console
    /** A drawing thread has been started and not yet stopped (`_thread is not None`). */
    var running: bool
    /** The stop event; once set it stays set. */
    var stopSet: bool
    var lastLen: nat
    var prefixPrinted: bool
    /** The drawing thread's frame counter. */
    var idx: nat

    constructor(prefix: string, out: Console)
      ensures this.prefix == prefix && this.out == out
      ensures !running && !stopSet && lastLen == 0 && !prefixPrinted && idx == 0
    {
      this.prefix := prefix;
      this.out := out;
      running := false;
      stopSet := false;
      lastLen := 0;
      prefixPrinted := false;
      idx := 0;
    }

    /** `start`: nothing for an empty label; otherwise a drawing thread begins at frame 0. */
    method Start()
      modifies this
      ensures prefix == "" ==> running == old(running) && idx == old(idx)
      ensures prefix != "" ==> running && idx == 0
      ensures stopSet == old(stopSet) && lastLen == old(lastLen) && prefixPrinted == old(prefixPrinted)
    {
      if prefix == "" {
        return;
      }
      running := true;
      idx := 0;
    }

    /** One iteration of the drawing loop, which only runs while the thread lives and
        the stop event is clear: draw the next frame over the line. */
    method Tick()
      modifies this, out
      ensures !(old(running) && !old(stopSet)) ==> out.writes == old(out.writes) && idx == old(idx) && lastLen == old(lastLen)
      ensures old(running) && !old(stopSet) ==>
        out.writes == old(out.writes) + [Write(Frame, FrameText(prefix, old(idx)))]
        && lastLen == 2 && idx == old(idx) + 1
      ensures running == old(running) && stopSet == old(stopSet) && prefixPrinted == old(prefixPrinted)
    {
      if !running || stopSet {
        return;
      }
      var anim := Anim(idx);
      lastLen := |anim|;
      out.Emit(Write(Frame, "\r" + prefix + anim));
      idx := idx + 1;
    }

    /** `print_prefix`: the label, unless already printed or empty. */
    method PrintPrefix()
      modifies this, out
      ensures old(prefixPrinted) || prefix == "" ==> out.writes == old(out.writes) && prefixPrinted == old(prefixPrinted)
      ensures !old(prefixPrinted) && prefix != "" ==> out.writes == old(out.writes) + [Write(Label, prefix)] && prefixPrinted
      ensures running == old(running) && stopSet == old(stopSet) && lastLen == old(lastLen) && idx == old(idx)
    {
      if prefixPrinted || prefix == "" {
        return;
      }
      out.Emit(Write(Label, prefix));
      prefixPrinted := true;
    }

    /** `stop_and_clear` as the source has it: when a thread ran, stop it, erase any frame
        and rewrite the label, and mark the label printed whether or not it was written. */
    method StopAndClear()
      modifies this, out
      ensures !old(running) ==> out.writes == old(out.writes) && prefixPrinted == old(prefixPrinted) && lastLen == old(lastLen) && stopSet == old(stopSet)
      ensures old(running) ==>
        out.writes == old(out.writes) + (if old(lastLen) > 0 && prefix != "" then [Write(Erase, EraseText(prefix, old(lastLen)))] else [])
        && stopSet && lastLen == 0 && prefixPrinted
      ensures !running && idx == old(idx)
    {
      if !running {
        return;
      }
      stopSet := true;
      running := false;
      if lastLen > 0 && prefix != "" {
        out.Emit(Write(Erase, "\r" + prefix + Spaces(lastLen) + "\r" + prefix));
      }
      lastLen := 0;
      prefixPrinted := true;
    }

    /** The stop as evidently intended: the label counts as printed only once the
        clearing write has put it back on the line. */
    method StopAndRestore()
      modifies this, out
      ensures !old(running) ==> out.writes == old(out.writes) && prefixPrinted == old(prefixPrinted) && lastLen == old(lastLen) && stopSet == old(stopSet)
      ensures old(running) ==>
        out.writes == old(out.writes) + (if old(lastLen) > 0 && prefix != "" then [Write(Erase, EraseText(prefix, old(lastLen)))] else [])
        && stopSet && lastLen == 0
        && prefixPrinted == (old(prefixPrinted) || (old(lastLen) > 0 && prefix != ""))
      ensures !running && idx == old(idx)
    {
      if !running {
        return;
      }
      stopSet := true;
      running := false;
      if lastLen > 0 && prefix != "" {
        out.Emit(Write(Erase, "\r" + prefix + Spaces(lastLen) + "\r" + prefix));
        prefixPrinted := true;
      }
      lastLen := 0;
    }
  }

  /** The as-written stop loses the label: a spinner started for a label and stopped
      before its first frame marks the label printed although nothing was written, so
      the `print_prefix` that follows writes nothing either. */
  method LabelLostAsWritten() returns (s: Spinner, out: Console)
    ensures s.prefix == "Assistant> " && s.prefixPrinted && out.writes == []
  {
    out := new Console();
    s := new Spinner("Assistant> ", out);
    s.Start();
    s.StopAndClear();
    s.PrintPrefix();
  }

  /** With the corrected stop, the same sequence writes the label exactly once. */
  method LabelKeptCorrected() returns (s: Spinner, out: Console)
    ensures s.prefix == "Assistant> " && s.prefixPrinted && out.writes == [Write(Label, "Assistant> ")]
  {
    out := new Console();
    s := new Spinner("Assistant> ", out);
    s.Start();
    s.StopAndRestore();
    s.PrintPrefix();
  }
}
