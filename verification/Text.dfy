/** String operations of the Go standard library that the casadm text layer is built on:
    `strings.Join` and `strings.Split` with a one-character separator, and `strings.ReplaceAll`. */
module Text {

  datatype Option<+T> = None | Some(value: T)

  function Join(words: seq<string>, sep: char): string {
    if |words| == 0 then ""
    else if |words| == 1 then words[0]
    else words[0] + [sep] + Join(words[1..], sep)
  }

  function Split(s: string, sep: char): (pieces: seq<string>)
    ensures |pieces| >= 1
  {
    if s == "" then [""]
    else
      var rest := Split(s[1..], sep);
      if s[0] == sep then [""] + rest else [[s[0]] + rest[0]] + rest[1..]
  }

  /** No piece contains the separator, and joining the pieces gives the text back. */
  lemma {:induction false} SplitPieces(s: string, sep: char)
    ensures forall w :: w in Split(s, sep) ==> sep !in w
    ensures Join(Split(s, sep), sep) == s
  {
    if s != "" {
      SplitPieces(s[1..], sep);
      var rest := Split(s[1..], sep);
      if s[0] == sep {
        assert ([""] + rest)[1..] == rest;
      } else {
        assert ([[s[0]] + rest[0]] + rest[1..])[1..] == rest[1..];
        assert |rest| > 1 ==> [s[0]] + (rest[0] + [sep] + Join(rest[1..], sep)) == ([s[0]] + rest[0]) + [sep] + Join(rest[1..], sep);
      }
    }
  }

  lemma {:induction false} SplitWord(w: string, sep: char)
    requires sep !in w
    ensures Split(w, sep) == [w]
  {
    if w != "" {
      SplitWord(w[1..], sep);
      assert w == [w[0]] + w[1..];
    }
  }

  lemma {:induction false} SplitCons(w: string, rest: string, sep: char)
    requires sep !in w
    ensures Split(w + [sep] + rest, sep) == [w] + Split(rest, sep)
  {
    var s := w + [sep] + rest;
    if w == "" {
      assert s[1..] == rest;
    } else {
      SplitCons(w[1..], rest, sep);
      assert s[1..] == w[1..] + [sep] + rest;
      assert [s[0]] + w[1..] == w;
    }
  }

  lemma {:induction false} SplitJoin(words: seq<string>, sep: char)
    requires |words| >= 1 && forall w :: w in words ==> sep !in w
    ensures Split(Join(words, sep), sep) == words
  {
    if |words| == 1 {
      SplitWord(words[0], sep);
    } else {
      SplitJoin(words[1..], sep);
      SplitCons(words[0], Join(words[1..], sep), sep);
    }
  }

  lemma {:induction false} JoinAppend(a: seq<string>, b: seq<string>, sep: char)
    requires |a| >= 1 && |b| >= 1
    ensures Join(a + b, sep) == Join(a, sep) + [sep] + Join(b, sep)
  {
    if |a| == 1 {
      assert (a + b)[1..] == b;
    } else {
      assert (a + b)[1..] == a[1..] + b;
      JoinAppend(a[1..], b, sep);
    }
  }

  /** `strings.ReplaceAll` for a non-empty key: leftmost, non-overlapping. */
  function ReplaceAll(s: string, key: string, repl: string): string
    requires key != ""
    decreases |s|
  {
    if s == "" then ""
    else if key <= s then repl + ReplaceAll(s[|key|..], key, repl)
    else [s[0]] + ReplaceAll(s[1..], key, repl)
  }

  ghost predicate OccursAt(key: string, s: string, i: int) {
    0 <= i && i + |key| <= |s| && s[i..i + |key|] == key
  }

  ghost predicate Occurs(key: string, s: string) {
    exists i :: OccursAt(key, s, i)
  }

  lemma OccursHas(key: string, s: string, p: nat)
    requires Occurs(key, s) && p < |key|
    ensures key[p] in s
  {
    var i :| OccursAt(key, s, i);
    assert s[i..i + |key|][p] == s[i + p];
  }

  lemma {:induction false} ReplaceAbsent(s: string, key: string, repl: string)
    requires key != "" && !Occurs(key, s)
    ensures ReplaceAll(s, key, repl) == s
    decreases |s|
  {
    if s != "" {
      assert key <= s ==> OccursAt(key, s, 0);
      forall i ensures OccursAt(key, s[1..], i) ==> OccursAt(key, s, i + 1) {
        if OccursAt(key, s[1..], i) {
          assert s[1..][i..i + |key|] == s[i + 1..i + 1 + |key|];
        }
      }
      ReplaceAbsent(s[1..], key, repl);
    }
  }

  /** A key without the separator never straddles it, so both sides are rewritten separately. */
  lemma HeadWithin(a: string, b: string, sep: char, key: string)
    requires sep !in key
    ensures key <= a + [sep] + b <==> key <= a
  {
    var s := a + [sep] + b;
    assert s[|a|] == sep;
    assert forall i :: 0 <= i < |key| ==> key[i] in key;
  }

  lemma {:induction false} ReplaceAcross(a: string, b: string, sep: char, key: string, repl: string)
    requires key != "" && sep !in key
    ensures ReplaceAll(a + [sep] + b, key, repl) == ReplaceAll(a, key, repl) + [sep] + ReplaceAll(b, key, repl)
    decreases |a|
  {
    var s := a + [sep] + b;
    HeadWithin(a, b, sep, key);
    if a == "" {
      assert s[1..] == b;
    } else if key <= a {
      assert s[|key|..] == a[|key|..] + [sep] + b;
      ReplaceAcross(a[|key|..], b, sep, key, repl);
    } else {
      assert s[1..] == a[1..] + [sep] + b;
      ReplaceAcross(a[1..], b, sep, key, repl);
    }
  }

  lemma StraddlingHead(a: string, b: string, sep: char, x: string, y: string)
    requires sep !in a && sep !in x
    requires x + [sep] + y <= a + [sep] + b
    ensures a == x && y <= b
  {
    var key, s := x + [sep] + y, a + [sep] + b;
    assert key[|x|] == sep && s[|a|] == sep;
    assert forall i :: 0 <= i < |x| ==> key[i] in x;
    assert forall i :: 0 <= i < |a| ==> s[i] in a;
    assert |a| == |x|;
    assert a == s[..|a|] == key[..|x|] == x;
    assert y == key[|x| + 1..] == s[|a| + 1..|key|];
  }

  /** `x` ends `a` and `y` starts `b`. */
  predicate Straddles(a: string, b: string, x: string, y: string) {
    |x| <= |a| && a[|a| - |x|..] == x && y <= b
  }

  lemma NotAtHead(a: string, b: string, sep: char, x: string, y: string)
    requires sep !in a && sep !in x && !Straddles(a, b, x, y)
    ensures !(x + [sep] + y <= a + [sep] + b)
  {
    if x + [sep] + y <= a + [sep] + b {
      StraddlingHead(a, b, sep, x, y);
      assert false;
    }
  }

  lemma TailStraddles(a: string, b: string, x: string, y: string)
    requires a != "" && Straddles(a[1..], b, x, y)
    ensures Straddles(a, b, x, y)
  {
    assert a[1..][|a[1..]| - |x|..] == a[|a| - |x|..];
  }

  lemma ReplaceSkips(c: char, rest: string, key: string, repl: string)
    requires key != "" && !(key <= [c] + rest)
    ensures ReplaceAll([c] + rest, key, repl) == [c] + ReplaceAll(rest, key, repl)
  {
    assert ([c] + rest)[1..] == rest;
  }

  /** A key `x + sep + y` is not found at a separator unless `x` ends before it and `y` starts after it. */
  lemma {:induction false} ReplacePast(a: string, b: string, sep: char, x: string, y: string, repl: string)
    requires sep !in a && sep !in x && !Straddles(a, b, x, y)
    ensures ReplaceAll(a + [sep] + b, x + [sep] + y, repl) == a + [sep] + ReplaceAll(b, x + [sep] + y, repl)
    decreases |a|
  {
    var key := x + [sep] + y;
    NotAtHead(a, b, sep, x, y);
    if a == "" {
      assert a + [sep] + b == [sep] + b;
      ReplaceSkips(sep, b, key, repl);
    } else {
      if Straddles(a[1..], b, x, y) {
        TailStraddles(a, b, x, y);
      }
      ReplacePast(a[1..], b, sep, x, y, repl);
      var rest := a[1..] + [sep] + b;
      assert a + [sep] + b == [a[0]] + rest;
      ReplaceSkips(a[0], rest, key, repl);
      assert a == [a[0]] + a[1..];
    }
  }

  // ---- Lower case ----

  /** Every character whose lower case is an ASCII letter: beside the ASCII ones the Kelvin sign and the dotted I. */
  function LowerChar(c: char): char {
    if 'A' <= c <= 'Z' then (c as int + 32) as char
    else if c == '\U{212A}' then 'k'
    else if c == '\U{130}' then 'i'
    else c
  }

  function Lower(s: string): (t: string)
    ensures |t| == |s| && forall i :: 0 <= i < |s| ==> t[i] == LowerChar(s[i])
  {
    if s == "" then "" else [LowerChar(s[0])] + Lower(s[1..])
  }
}
