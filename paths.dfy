/** The pieces of `pathlib` the source uses on '/'-separated path strings:
    joining, the final component (`name`) and the name without its suffix (`stem`). */
module Paths {

  /** Python's `s.rfind(c)`: the index of the last `c`, or -1. */
  function RFind(s: string, c: char): (i: int)
    ensures -1 <= i < |s|
    ensures i >= 0 ==> s[i] == c && c !in s[i + 1..]
    ensures i == -1 ==> c !in s
  {
    if s == [] then -1
    else if s[|s| - 1] == c then |s| - 1
    else
      var init := s[..|s| - 1];
      var i := RFind(init, c);
      assert s == init + [s[|s| - 1]];
      assert i >= 0 ==> s[i + 1..] == init[i + 1..] + [s[|s| - 1]];
      i
  }

  /** `PurePath.name`: the text after the last '/'. */
  function Name(path: string): (r: string)
    ensures '/' !in r
  {
    path[RFind(path, '/') + 1..]
  }

  /** `PurePath.stem`: the name without its last suffix; a leading or trailing dot is no suffix. */
  function Stem(name: string): string
  {
    var i := RFind(name, '.');
    if 0 < i < |name| - 1 then name[..i] else name
  }

  /** `dir / name`. */
  function Join(dir: string, name: string): string
  {
    dir + "/" + name
  }

  /** The stem of `<s>.json` is `s`, for a non-empty `s`. */
  lemma StemOfJsonName(s: string)
    requires s != ""
    ensures Stem(s + ".json") == s
  {
    var n := s + ".json";
    assert n[|s|] == '.';
    assert n[|s| + 1..] == "json";
    assert RFind(n, '.') == |s| by {
      assert n[..|n| - 1] == s + ".jso";
      assert n[..|n| - 2] == s + ".js";
      assert n[..|n| - 3] == s + ".j";
      assert n[..|n| - 4] == s + ".";
    }
    assert n[..|s|] == s;
  }

  /** The name of `dir/<s>` is `s` when `s` holds no '/'. */
  lemma {:induction false} NameOfJoin(dir: string, s: string)
    requires '/' !in s
    ensures Name(Join(dir, s)) == s
  {
    var p := Join(dir, s);
    RFindAfter(dir + "/", s, '/');
    assert p == (dir + "/") + s;
  }

  lemma {:induction false} RFindAfter(a: string, b: string, c: char)
    requires a != [] && a[|a| - 1] == c && c !in b
    ensures RFind(a + b, c) == |a| - 1
    decreases |b|
  {
    if b == [] {
      assert a + b == a;
    } else {
      assert (a + b)[..|a + b| - 1] == a + b[..|b| - 1];
      assert (a + b)[|a + b| - 1] == b[|b| - 1];
      RFindAfter(a, b[..|b| - 1], c);
    }
  }
}
