/**
 * The few operations of Python's `str` that the model relies on:
 * `isspace`, `strip`, `lower` (as far as a comparison with an ASCII word
 * can observe it), `endswith`, and splitting text into newline-terminated lines.
 */
module PyStr {

  /** Python's `str.isspace` on one character: the Unicode whitespace characters. */
  predicate IsSpace(c: char)
  {
    c == ' ' || ('\t' <= c <= '\r') || ('\U{1C}' <= c <= '\U{1F}') ||
    c == '\U{85}' || c == '\U{A0}' || c == '\U{1680}' ||
    ('\U{2000}' <= c <= '\U{200A}') || c == '\U{2028}' || c == '\U{2029}' ||
    c == '\U{202F}' || c == '\U{205F}' || c == '\U{3000}'
  }

  /** True when every character of `s` is whitespace (so also for the empty string). */
  predicate AllSpace(s: string)
  {
    forall i | 0 <= i < |s| :: IsSpace(s[i])
  }

  /** `s.lstrip()`: drops the leading whitespace and keeps the rest. */
  function StripLeft(s: string): string
  {
    if s != [] && IsSpace(s[0]) then StripLeft(s[1..]) else s
  }

  /** What `lstrip` keeps is a suffix, what it drops is whitespace, and what it keeps starts with none. */
  lemma {:induction false} StripLeftSpec(s: string)
    ensures var r := StripLeft(s);
            && |r| <= |s| && r == s[|s| - |r|..]
            && AllSpace(s[..|s| - |r|])
            && (r != [] ==> !IsSpace(r[0]))
  {
    if s != [] && IsSpace(s[0]) {
      StripLeftSpec(s[1..]);
      var r := StripLeft(s[1..]);
      assert s[1..][..|s| - 1 - |r|] == s[1..|s| - |r|];
    }
  }

  /** `s.rstrip()`: drops the trailing whitespace and keeps the rest. */
  function StripRight(s: string): string
  {
    if s != [] && IsSpace(s[|s| - 1]) then StripRight(s[..|s| - 1]) else s
  }

  /** What `rstrip` keeps is a prefix, what it drops is whitespace, and what it keeps ends with none. */
  lemma {:induction false} StripRightSpec(s: string)
    ensures var r := StripRight(s);
            && |r| <= |s| && r == s[..|r|]
            && AllSpace(s[|r|..])
            && (r != [] ==> !IsSpace(r[|r| - 1]))
  {
    if s != [] && IsSpace(s[|s| - 1]) {
      StripRightSpec(s[..|s| - 1]);
      var r := StripRight(s[..|s| - 1]);
      assert s[..|s| - 1][|r|..] + [s[|s| - 1]] == s[|r|..];
    }
  }

  /** `s.strip()`: what is left after removing whitespace at both ends. */
  function Strip(s: string): string
  {
    StripRight(StripLeft(s))
  }

  /** `s.strip()` is empty exactly when `s` consists of whitespace only. */
  lemma StripEmptyIffAllSpace(s: string)
    ensures Strip(s) == [] <==> AllSpace(s)
  {
    var l := StripLeft(s);
    StripLeftSpec(s);
    StripRightSpec(l);
    if AllSpace(s) {
      StripLeftAllSpace(s);
    }
  }

  /** Whitespace around a word never changes what `strip` returns. */
  lemma {:induction false} StripIgnoresPadding(pre: string, w: string, post: string)
    requires AllSpace(pre) && AllSpace(post)
    ensures Strip(pre + w + post) == Strip(w)
  {
    StripLeftPadding(pre, w + post);
    assert pre + w + post == pre + (w + post);
    StripLeftAppendSpace(w, post);
    StripRightPadding(StripLeft(w), post);
  }

  lemma {:induction false} StripLeftPadding(pre: string, s: string)
    requires AllSpace(pre)
    ensures StripLeft(pre + s) == StripLeft(s)
  {
    if pre != [] {
      assert (pre + s)[0] == pre[0] && IsSpace(pre[0]);
      assert (pre + s)[1..] == pre[1..] + s;
      assert AllSpace(pre[1..]);
      StripLeftPadding(pre[1..], s);
    } else {
      assert pre + s == s;
    }
  }

  /** Stripping the front of `w + post` strips the front of `w` when `post` is whitespace. */
  lemma {:induction false} StripLeftAppendSpace(w: string, post: string)
    requires AllSpace(post)
    ensures StripRight(StripLeft(w + post)) == StripRight(StripLeft(w) + post)
  {
    if w == [] {
      assert w + post == post;
      StripAllSpaceTail(post);
    } else if IsSpace(w[0]) {
      assert (w + post)[1..] == w[1..] + post;
      StripLeftAppendSpace(w[1..], post);
    } else {
      assert StripLeft(w + post) == w + post;
    }
  }

  lemma StripAllSpaceTail(post: string)
    requires AllSpace(post)
    ensures StripRight(StripLeft(post)) == StripRight(StripLeft([]) + post)
  {
    StripLeftAllSpace(post);
    StripRightAllSpace(post);
    assert StripLeft([]) + post == post;
  }

  lemma {:induction false} StripLeftAllSpace(s: string)
    requires AllSpace(s)
    ensures StripLeft(s) == []
  {
    if s != [] {
      assert AllSpace(s[1..]);
      StripLeftAllSpace(s[1..]);
    }
  }

  lemma {:induction false} StripRightAllSpace(s: string)
    requires AllSpace(s)
    ensures StripRight(s) == []
  {
    if s != [] {
      assert AllSpace(s[..|s| - 1]);
      StripRightAllSpace(s[..|s| - 1]);
    }
  }

  lemma {:induction false} StripRightPadding(s: string, post: string)
    requires AllSpace(post)
    ensures StripRight(s + post) == StripRight(s)
  {
    if post != [] {
      assert (s + post)[..|s + post| - 1] == s + post[..|post| - 1];
      assert AllSpace(post[..|post| - 1]);
      StripRightPadding(s, post[..|post| - 1]);
    } else {
      assert s + post == s;
    }
  }

  /** Python's `lower` on one ASCII letter; every other character is kept. */
  function LowerChar(c: char): (r: char)
    ensures 'A' <= c <= 'Z' ==> r as int == c as int + 32
    ensures !('A' <= c <= 'Z') ==> r == c
  {
    if 'A' <= c <= 'Z' then (c as int + 32) as char else c
  }

  /** `s.lower()` as far as a comparison with a lower-case ASCII word can tell. */
  function Lower(s: string): (r: string)
    ensures |r| == |s|
  {
    if s == [] then [] else [LowerChar(s[0])] + Lower(s[1..])
  }

  /** `lower` works character by character. */
  lemma {:induction false} LowerAt(s: string, i: nat)
    requires i < |s|
    ensures Lower(s)[i] == LowerChar(s[i])
  {
    if i > 0 { LowerAt(s[1..], i - 1); }
  }

  /** `s.endswith(suffix)`. */
  predicate EndsWith(s: string, suffix: string)
  {
    |suffix| <= |s| && s[|s| - |suffix|..] == suffix
  }

  /** Index of the first newline of `s`. */
  function FirstNewline(s: string): (i: nat)
    requires '\n' in s
    ensures i < |s| && s[i] == '\n' && '\n' !in s[..i]
  {
    if s[0] == '\n' then 0
    else
      var i := FirstNewline(s[1..]);
      assert s[..i + 1] == [s[0]] + s[1..][..i];
      i + 1
  }

  /**
   * The lines of `s`, cut at each newline; a newline ends a line, and a last line
   * without one is kept too.
   */
  function Lines(s: string): seq<string>
    decreases |s|
  {
    if s == [] then []
    else if '\n' !in s then [s]
    else
      var i := FirstNewline(s);
      [s[..i]] + Lines(s[i + 1..])
  }

  /** The text made of the given lines, each followed by one newline. */
  function JoinLines(ls: seq<string>): string
  {
    if ls == [] then [] else ls[0] + "\n" + JoinLines(ls[1..])
  }

  /** Five lines joined: each followed by its newline, in order. */
  lemma JoinFiveLines(a: string, b: string, c: string, d: string, e: string)
    ensures JoinLines([a, b, c, d, e]) == a + "\n" + b + "\n" + c + "\n" + d + "\n" + e + "\n"
  {
    var ls := [a, b, c, d, e];
    assert ls[4..][1..] == [];
    assert ls[3..][1..] == ls[4..] && ls[2..][1..] == ls[3..] && ls[1..][1..] == ls[2..];
    assert ls[4..] == [e] && ls[4..][0] == e;
    var t4 := JoinLines(ls[4..]);
    assert t4 == e + "\n" + JoinLines([]);
    assert e + "\n" + [] == e + "\n";
    var t3 := JoinLines(ls[3..]);
    assert t3 == d + "\n" + e + "\n";
    var t2 := JoinLines(ls[2..]);
    assert t2 == c + "\n" + d + "\n" + e + "\n";
    var t1 := JoinLines(ls[1..]);
    assert t1 == b + "\n" + c + "\n" + d + "\n" + e + "\n";
  }

  /** Newline-free lines joined with newlines split back into the same lines. */
  lemma {:induction false} LinesOfJoinLines(ls: seq<string>)
    requires forall k | 0 <= k < |ls| :: '\n' !in ls[k]
    ensures Lines(JoinLines(ls)) == ls
  {
    if ls != [] {
      var s := JoinLines(ls);
      var rest := JoinLines(ls[1..]);
      assert s == ls[0] + "\n" + rest;
      assert s[|ls[0]|] == '\n';
      var i := FirstNewline(s);
      assert s[..i] == ls[0];
      assert s[i + 1..] == rest;
      LinesOfJoinLines(ls[1..]);
    }
  }
}
