/** Standard output, as the sequence of writes made to it. Each write is tagged with
    the part of the program that made it, so that properties can speak about, say,
    the label apart from the reply text it precedes. */
module Console {

  datatype WriteKind =
    | Label     // the assistant label, written on its own
    | Frame     // one spinner animation frame
    | Erase     // the spinner's clearing write, which ends by writing the label again
    | Piece     // text of the reply
    | Newline   // the line end `print()` writes
    | Line      // any other printed line (notices, prompts, echoes)

  datatype Write = Write(kind: WriteKind, text: string)

  class Console {
    var writes: seq<Write>

    constructor()
      ensures writes == []
    {
      writes := [];
    }

    method Emit(w: Write)
      modifies this
      ensures writes == old(writes) + [w]
    {
      writes := writes + [w];
    }
  }

  /** How many writes of the given kind there are. */
  function CountKind(ws: seq<Write>, k: WriteKind): (n: nat)
    ensures n <= |ws|
  {
    if ws == [] then 0 else CountKind(ws[..|ws| - 1], k) + (if ws[|ws| - 1].kind == k then 1 else 0)
  }

  lemma {:induction false} CountKindAppend(a: seq<Write>, b: seq<Write>, k: WriteKind)
    ensures CountKind(a + b, k) == CountKind(a, k) + CountKind(b, k)
    decreases |b|
  {
    if b == [] {
      assert a + b == a;
    } else {
      assert (a + b)[..|a + b| - 1] == a + b[..|b| - 1];
      CountKindAppend(a, b[..|b| - 1], k);
    }
  }
}
