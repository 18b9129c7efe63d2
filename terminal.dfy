/** The terminal helpers: ANSI styling, line prompts (whose answers are stripped), and
    the raw-mode secret prompt that echoes one '*' per typed character. */
module Terminal {
  import opened Text

  const Reset := "\U{1B}[0m"
  const Bold := "\U{1B}[1m"
  const FgGreen := "\U{1B}[32m"
  const FgRed := "\U{1B}[31m"
  const FgYellow := "\U{1B}[33m"
  const FgCyan := "\U{1B}[36m"

  /** `_style(text, *codes)`: the codes, the text, then the reset code. */
  function Style(text: string, codes: seq<string>): (r: string)
    ensures StartsWith(r, Concat(codes)) && EndsWith(r, Reset)
    ensures |r| == |Concat(codes)| + |text| + |Reset|
    ensures r[|Concat(codes)|..|Concat(codes)| + |text|] == text
  {
    var r := Concat(codes) + text + Reset;
    assert r[..|Concat(codes)|] == Concat(codes);
    assert r[|r| - |Reset|..] == Reset;
    r
  }

  /** `prompt_text`: the line typed in answer, stripped. */
  function PromptText(line: string): (r: string)
    ensures r == [] <==> IsBlank(line)
  {
    Strip(line)
  }

  /** What `prompt_text` gives is already stripped. */
  lemma PromptTextStripped(line: string)
    ensures Strip(PromptText(line)) == PromptText(line)
  {
    StripIdempotent(line);
  }

  /** How the secret prompt ends: Enter with the typed text, Ctrl+C (KeyboardInterrupt),
      or the keys ran out before either. */
  datatype SecretOutcome = Entered(secret: string) | Interrupted | Unterminated

  predicate IsEnter(c: char)
  {
    c == '\r' || c == '\n'
  }

  const CtrlC: char := '\U{03}'

  /** Backspace or Delete. */
  predicate IsErase(c: char)
  {
    c == '\U{7F}' || c == '\U{08}'
  }

  predicate IsStop(c: char)
  {
    IsEnter(c) || c == CtrlC
  }

  const Star := "*"
  const Rubout := "\U{08} \U{08}"

  /** The buffer after one editing key: erase drops the last character, if any; any other key is appended. */
  function Key(buf: seq<char>, c: char): seq<char>
  {
    if IsErase(c) then (if buf == [] then [] else buf[..|buf| - 1]) else buf + [c]
  }

  /** What one editing key echoes: "\b \b" for an erase that removed something, nothing for
      one that did not, '*' for any other key. */
  function KeyEcho(buf: seq<char>, c: char): seq<string>
  {
    if IsErase(c) then (if buf == [] then [] else [Rubout]) else [Star]
  }

  /** The buffer after a run of editing keys. */
  function Edited(keys: seq<char>): seq<char>
  {
    if keys == [] then [] else Key(Edited(keys[..|keys| - 1]), keys[|keys| - 1])
  }

  /** The echo of a run of editing keys. */
  function Echo(keys: seq<char>): seq<string>
  {
    if keys == [] then []
    else Echo(keys[..|keys| - 1]) + KeyEcho(Edited(keys[..|keys| - 1]), keys[|keys| - 1])
  }

  /** The position of the first Enter or Ctrl+C, or the length when there is none. */
  function FirstStop(keys: seq<char>): (r: nat)
    ensures r <= |keys|
    ensures forall j :: 0 <= j < r ==> !IsStop(keys[j])
    ensures r < |keys| ==> IsStop(keys[r])
  {
    if keys == [] then 0 else if IsStop(keys[0]) then 0 else 1 + FirstStop(keys[1..])
  }

  /** `prompt_secret` in raw mode over the keys read, one character at a time: the outcome and the echo. */
  function ReadSecret(keys: seq<char>): (SecretOutcome, seq<string>)
  {
    var k := FirstStop(keys);
    var typed := keys[..k];
    if k == |keys| then (Unterminated, Echo(typed))
    else if IsEnter(keys[k]) then (Entered(Strip(Edited(typed))), Echo(typed) + ["\r\n"])
    else (Interrupted, Echo(typed))
  }

  /** The raw-mode loop of `prompt_secret`. `raw` stands for the terminal settings: set on
      entry, and restored on every way out. */
  method PromptSecret(keys: seq<char>) returns (outcome: SecretOutcome, echo: seq<string>, raw: bool)
    ensures (outcome, echo) == ReadSecret(keys)
    ensures !raw
  {
    raw := true;
    var chars: seq<char> := [];
    echo := [];
    var i := 0;
    while i < |keys|
      invariant 0 <= i <= |keys|
      invariant forall j :: 0 <= j < i ==> !IsStop(keys[j])
      invariant chars == Edited(keys[..i]) && echo == Echo(keys[..i])
    {
      var ch := keys[i];
      if IsEnter(ch) {
        FirstStopAt(keys, i);
        echo := echo + ["\r\n"];
        raw := false;
        outcome := Entered(Strip(chars));
        return;
      }
      if ch == CtrlC {
        FirstStopAt(keys, i);
        raw := false;
        outcome := Interrupted;
        return;
      }
      ghost var next := keys[..i + 1];
      assert next[..i] == keys[..i] && next[i] == ch;
      chars, echo := EditKey(chars, echo, ch);
      i := i + 1;
    }
    FirstStopAt(keys, i);
    assert keys[..i] == keys;
    raw := false;
    outcome := Unterminated;
  }

  /** One editing key in raw mode: erase rubs out the last character, if any; any other key
      is kept and echoed as a star. */
  method EditKey(chars: seq<char>, echo: seq<string>, ch: char) returns (chars': seq<char>, echo': seq<string>)
    ensures chars' == Key(chars, ch) && echo' == echo + KeyEcho(chars, ch)
  {
    chars', echo' := chars, echo;
    if IsErase(ch) {
      if chars != [] {
        chars' := chars[..|chars| - 1];
        echo' := echo + [Rubout];
      }
    } else {
      chars' := chars + [ch];
      echo' := echo + [Star];
    }
  }

  /** The first stop is at `i` when no key before `i` stops and key `i` does or is missing. */
  lemma {:induction false} FirstStopAt(keys: seq<char>, i: nat)
    requires i <= |keys| && forall j :: 0 <= j < i ==> !IsStop(keys[j])
    requires i < |keys| ==> IsStop(keys[i])
    ensures FirstStop(keys) == i
    decreases i
  {
    if i > 0 {
      FirstStopAt(keys[1..], i - 1);
    }
  }

  /** `prompt_secret`: without a POSIX terminal it falls back to `getpass`, whose line is stripped. */
  method PromptSecretOn(rawCapable: bool, line: string, keys: seq<char>) returns (outcome: SecretOutcome, echo: seq<string>)
    ensures !rawCapable ==> outcome == Entered(Strip(line)) && echo == []
    ensures rawCapable ==> (outcome, echo) == ReadSecret(keys)
  {
    if !rawCapable {
      return Entered(Strip(line)), [];
    }
    var raw;
    outcome, echo, raw := PromptSecret(keys);
  }

  /** Stars on screen: one per '*', minus one per rub-out. */
  function Shown(echo: seq<string>): int
  {
    if echo == [] then 0
    else Shown(echo[..|echo| - 1]) + (if echo[|echo| - 1] == Star then 1 else if echo[|echo| - 1] == Rubout then -1 else 0)
  }

  lemma ShownAppend(e: seq<string>, p: seq<string>)
    requires |p| <= 1
    ensures Shown(e + p) == Shown(e) + Shown(p)
  {
    if p != [] {
      assert (e + p)[..|e + p| - 1] == e;
      assert (e + p)[|e + p| - 1] == p[0];
      assert p[..|p| - 1] == [];
    } else {
      assert e + p == e;
    }
  }

  /** The visible stars always match the length of the typed buffer. */
  lemma {:induction false} EchoShowsBuffer(keys: seq<char>)
    ensures Shown(Echo(keys)) == |Edited(keys)|
  {
    if keys != [] {
      var init := keys[..|keys| - 1];
      EchoShowsBuffer(init);
      ShownAppend(Echo(init), KeyEcho(Edited(init), keys[|keys| - 1]));
    }
  }

  /** The echo never reveals a typed character: it is made of stars and rub-outs only. */
  lemma {:induction false} EchoHidesKeys(keys: seq<char>)
    ensures forall i :: 0 <= i < |Echo(keys)| ==> Echo(keys)[i] == Star || Echo(keys)[i] == Rubout
  {
    if keys != [] {
      EchoHidesKeys(keys[..|keys| - 1]);
    }
  }

  /** Erasing from an empty buffer changes nothing and echoes nothing. */
  lemma EraseOnEmpty(keys: seq<char>, c: char)
    requires IsErase(c) && Edited(keys) == []
    ensures Edited(keys + [c]) == [] && Echo(keys + [c]) == Echo(keys)
  {
    assert (keys + [c])[..|keys|] == keys;
  }

  /** Only what comes before the first Enter counts: later keys do not change the answer. */
  lemma EnterEndsInput(typed: seq<char>, c: char, rest: seq<char>)
    requires (forall j :: 0 <= j < |typed| ==> !IsStop(typed[j])) && IsEnter(c)
    ensures ReadSecret(typed + [c] + rest).0 == Entered(Strip(Edited(typed)))
  {
    var keys := typed + [c] + rest;
    assert keys[|typed|] == c;
    assert forall j :: 0 <= j < |typed| ==> keys[j] == typed[j];
    FirstStopAt(keys, |typed|);
    assert keys[..|typed|] == typed;
  }
}
