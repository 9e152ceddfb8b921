/**
 * The Python string and path builtins the migration client relies on,
 * each stated with the meaning the client depends on:
 * `str.find`, slicing `s[n:]`, `str.rsplit("/")[0]`, `str.strip()`,
 * `file.readline()` and `os.path.join`.
 */
module PyStr {

  predicate StartsWith(s: string, prefix: string) {
    |prefix| <= |s| && s[..|prefix|] == prefix
  }

  predicate OccursAt(s: string, sub: string, i: int) {
    0 <= i && i + |sub| <= |s| && s[i..i + |sub|] == sub
  }

  /** `s.find(sub)`: the least index at which `sub` occurs in `s`, or -1. */
  function Find(s: string, sub: string): (r: int)
    ensures r == -1 || OccursAt(s, sub, r)
    ensures forall i :: 0 <= i && (r == -1 || i < r) ==> !OccursAt(s, sub, i)
  {
    FindFrom(s, sub, 0)
  }

  function FindFrom(s: string, sub: string, start: nat): (r: int)
    requires forall i :: 0 <= i < start ==> !OccursAt(s, sub, i)
    ensures r == -1 || (start <= r && OccursAt(s, sub, r))
    ensures forall i :: 0 <= i && (r == -1 || i < r) ==> !OccursAt(s, sub, i)
    decreases |s| - start
  {
    if start + |sub| > |s| then -1
    else if OccursAt(s, sub, start) then start
    else FindFrom(s, sub, start + 1)
  }

  /** `s.find(sub) == 0` is exactly the prefix test. */
  lemma FindZeroIsPrefix(s: string, sub: string)
    ensures Find(s, sub) == 0 <==> StartsWith(s, sub)
  {
    assert OccursAt(s, sub, 0) <==> StartsWith(s, sub);
  }

  /** `s[n:]` for a non-negative `n`: empty once `n` passes the end. */
  function Drop(s: string, n: nat): (r: string)
    ensures |r| == if n <= |s| then |s| - n else 0
    ensures n <= |s| ==> s[..n] + r == s
  {
    if n <= |s| then s[n..] else ""
  }

  /** Dropping exactly a prefix gives back what followed it. */
  lemma DropPrefix(prefix: string, rest: string)
    ensures Drop(prefix + rest, |prefix|) == rest
  {
    assert (prefix + rest)[|prefix|..] == rest;
  }

  /** `s.rsplit("/")[0]`: the text before the first '/', or all of `s`. */
  function FirstComponent(s: string): (r: string)
    ensures '/' !in r
    ensures StartsWith(s, r)
    ensures |r| < |s| ==> s[|r|] == '/'
  {
    if s == [] || s[0] == '/' then []
    else [s[0]] + FirstComponent(s[1..])
  }

  /** The characters `str.strip()` removes from 8-bit strings. */
  predicate IsSpace(c: char) {
    c == ' ' || c == '\t' || c == '\n' || c == '\r' || c as int == 11 || c as int == 12
  }

  predicate NoSpace(s: string) {
    forall k :: 0 <= k < |s| ==> !IsSpace(s[k])
  }

  /** How many white-space characters `str.strip()` removes at the front. */
  function LeadingSpace(s: string): (n: nat)
    ensures n <= |s|
    ensures forall k :: 0 <= k < n ==> IsSpace(s[k])
    ensures n < |s| ==> !IsSpace(s[n])
  {
    if s != [] && IsSpace(s[0]) then 1 + LeadingSpace(s[1..]) else 0
  }

  /** How many white-space characters `str.strip()` removes at the back. */
  function TrailingSpace(s: string): (n: nat)
    ensures n <= |s|
    ensures forall k :: |s| - n <= k < |s| ==> IsSpace(s[k])
    ensures n < |s| ==> !IsSpace(s[|s| - n - 1])
  {
    if s != [] && IsSpace(s[|s| - 1]) then 1 + TrailingSpace(s[..|s| - 1]) else 0
  }

  /**
   * `s.strip()`: the infix of `s` that neither starts nor ends with white
   * space and that only white space surrounds.
   */
  function Strip(s: string): (r: string)
    ensures LeadingSpace(s) + |r| <= |s|
    ensures r == s[LeadingSpace(s)..LeadingSpace(s) + |r|]
    ensures forall k :: 0 <= k < LeadingSpace(s) ==> IsSpace(s[k])
    ensures forall k :: LeadingSpace(s) + |r| <= k < |s| ==> IsSpace(s[k])
    ensures r == [] || (!IsSpace(r[0]) && !IsSpace(r[|r| - 1]))
  {
    var lead := LeadingSpace(s);
    var t := s[lead..];
    var r := t[..|t| - TrailingSpace(t)];
    assert forall k :: lead + |r| <= k < |s| ==> s[k] == t[k - lead];
    r
  }

  /** A word without white space followed by a newline strips back to the word. */
  lemma StripWordLine(w: string)
    requires NoSpace(w)
    ensures Strip(w + "\n") == w
  {
    var s := w + "\n";
    if w == [] {
      assert s[1..] == [];
      assert LeadingSpace(s) == 1;
    } else {
      assert !IsSpace(s[0]) by { assert s[0] == w[0]; }
      assert LeadingSpace(s) == 0;
      assert s[..|s| - 1] == w;
      assert TrailingSpace(w) == 0 by { assert !IsSpace(w[|w| - 1]); }
      assert TrailingSpace(s) == 1;
      assert s[0..] == s;
    }
  }

  /** The length of the first line `readline()` returns: up to and including the first newline. */
  function LineLength(s: string): (n: nat)
    ensures s == [] ==> n == 0
    ensures s != [] ==> 0 < n <= |s|
    ensures n < |s| ==> n > 0 && s[n - 1] == '\n'
    ensures forall k :: 0 <= k < n - 1 ==> s[k] != '\n'
  {
    if s == [] then 0
    else if s[0] == '\n' then 1
    else 1 + LineLength(s[1..])
  }

  /** The successive results of `readline()` until it returns the empty string. */
  function Lines(s: string): (ls: seq<string>)
    decreases |s|
  {
    if s == [] then []
    else [s[..LineLength(s)]] + Lines(s[LineLength(s)..])
  }

  function Concat(ss: seq<string>): string {
    if ss == [] then [] else ss[0] + Concat(ss[1..])
  }

  /** A line is non-empty and holds a newline at most as its last character. */
  predicate IsLine(l: string) {
    l != [] && forall k :: 0 <= k < |l| - 1 ==> l[k] != '\n'
  }

  /** The lines `readline()` returns concatenate back to the file's contents. */
  lemma {:induction false} LinesConcat(s: string)
    ensures Concat(Lines(s)) == s
    decreases |s|
  {
    if s != [] {
      var n := LineLength(s);
      LinesConcat(s[n..]);
      assert Lines(s) == [s[..n]] + Lines(s[n..]);
      assert s[..n] + s[n..] == s;
    }
  }

  /**
   * Every line `readline()` returns is non-empty, holds a newline at most as
   * its last character, and every line but the last ends with a newline.
   */
  lemma {:induction false} LinesShape(s: string)
    ensures forall i :: 0 <= i < |Lines(s)| ==> IsLine(Lines(s)[i])
    ensures forall i :: 0 <= i < |Lines(s)| - 1 ==>
      Lines(s)[i] != [] && Lines(s)[i][|Lines(s)[i]| - 1] == '\n'
    decreases |s|
  {
    if s != [] {
      var n := LineLength(s);
      var tail := Lines(s[n..]);
      LinesShape(s[n..]);
      var ls := Lines(s);
      assert ls == [s[..n]] + tail;
      assert IsLine(ls[0]);
      assert |ls| > 1 ==> ls[0][|ls[0]| - 1] == '\n' by {
        if |ls| > 1 { assert s[n..] != []; }
      }
      forall i | 1 <= i < |ls|
        ensures ls[i] == tail[i - 1]
      {
      }
    }
  }

  /** The text of a file that holds one word per line, each followed by a newline. */
  function Unlines(ws: seq<string>): string {
    if ws == [] then [] else ws[0] + "\n" + Unlines(ws[1..])
  }

  /** Every line of a file, stripped (the list `readline()` and `strip()` build). */
  function StripAll(ls: seq<string>): (r: seq<string>)
    ensures |r| == |ls|
  {
    seq(|ls|, i requires 0 <= i < |ls| => Strip(ls[i]))
  }

  /** One `readline()` then `strip()`: the first stripped line, then the rest. */
  lemma StripLinesStep(s: string)
    requires s != []
    ensures StripAll(Lines(s)) == [Strip(s[..LineLength(s)])] + StripAll(Lines(s[LineLength(s)..]))
  {
    var ls := Lines(s);
    assert ls == [s[..LineLength(s)]] + Lines(s[LineLength(s)..]);
    assert ls[1..] == Lines(s[LineLength(s)..]);
  }

  /**
   * Reading back a file of newline-terminated words, line by line and
   * stripped, gives exactly the words that were written.
   */
  lemma {:induction false} ReadBackWords(ws: seq<string>)
    requires forall i :: 0 <= i < |ws| ==> NoSpace(ws[i])
    ensures StripAll(Lines(Unlines(ws))) == ws
  {
    if ws != [] {
      var w := ws[0];
      var s := Unlines(ws);
      assert s == (w + "\n") + Unlines(ws[1..]);
      assert LineLength(w + "\n") == |w| + 1 by {
        assert forall k :: 0 <= k < |w| ==> (w + "\n")[k] != '\n' by {
          forall k | 0 <= k < |w| ensures (w + "\n")[k] != '\n' {
            assert !IsSpace(w[k]);
          }
        }
        WordLineLength(w + "\n", |w| + 1);
      }
      WordLineLength(s, |w| + 1);
      assert s[..|w| + 1] == w + "\n";
      assert s[|w| + 1..] == Unlines(ws[1..]);
      StripWordLine(w);
      ReadBackWords(ws[1..]);
    }
  }

  /** The first line ends at the first newline. */
  lemma {:induction false} WordLineLength(s: string, n: nat)
    requires 0 < n <= |s| && s[n - 1] == '\n'
    requires forall k :: 0 <= k < n - 1 ==> s[k] != '\n'
    ensures LineLength(s) == n
    decreases n
  {
    if n > 1 {
      WordLineLength(s[1..], n - 1);
    }
  }

  /** `os.path.join(a, b)`: an absolute `b` replaces `a`; otherwise one '/' separates them. */
  function Join(a: string, b: string): string {
    if b != [] && b[0] == '/' then b
    else if a == [] || a[|a| - 1] == '/' then a + b
    else a + "/" + b
  }

  /** `os.path.join(a, *parts)`: join the parts from left to right. */
  function JoinAll(a: string, parts: seq<string>): string
    decreases |parts|
  {
    if parts == [] then a else JoinAll(Join(a, parts[0]), parts[1..])
  }

  /** `list.extend(s)` on a string `s` adds its characters, one one-character string each. */
  function Chars(s: string): (r: seq<string>)
    ensures |r| == |s|
    ensures forall i :: 0 <= i < |s| ==> r[i] == [s[i]]
  {
    if s == [] then [] else [[s[0]]] + Chars(s[1..])
  }

  /** The characters added one by one concatenate back to the string. */
  lemma {:induction false} ConcatChars(s: string)
    ensures Concat(Chars(s)) == s
  {
    if s != [] {
      ConcatChars(s[1..]);
      assert Chars(s)[1..] == Chars(s[1..]);
    }
  }
}
