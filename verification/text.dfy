/** The string operations the read handler relies on, written out the way
    Go's `strings` package defines them for a non-empty separator. */
module Text {

  /** Number of occurrences of `c` in `s`. */
  function Count(s: string, c: char): (n: nat)
    ensures n <= |s|
    ensures n == 0 <==> c !in s
  {
    if s == [] then 0
    else (if s[0] == c then 1 else 0) + Count(s[1..], c)
  }

  lemma {:induction false} CountConcat(a: string, b: string, c: char)
    ensures Count(a + b, c) == Count(a, c) + Count(b, c)
  {
    if a == [] {
      assert a + b == b;
    } else {
      assert (a + b)[1..] == a[1..] + b;
      CountConcat(a[1..], b, c);
    }
  }

  /** A prefix of a prefix is a prefix. */
  lemma PrefixOfJoined(a: string, b: string, c: string)
    requires a + b <= c
    ensures a <= c
  {
    assert c[..|a|] == (a + b)[..|a|];
  }

  /** `pat` occurs in `s` starting at index `i`. */
  predicate StartsAt(s: string, pat: string, i: int)
  {
    0 <= i && i + |pat| <= |s| && s[i..i + |pat|] == pat
  }

  /** `pat` occurs somewhere in `s` (Go's `strings.Contains`). */
  predicate Occurs(s: string, pat: string)
  {
    exists i :: 0 <= i <= |s| && StartsAt(s, pat, i)
  }

  lemma AbsentInTail(s: string, pat: string)
    requires s != []
    ensures !Occurs(s, pat) ==> !Occurs(s[1..], pat)
  {
    if Occurs(s[1..], pat) {
      var i :| 0 <= i <= |s[1..]| && StartsAt(s[1..], pat, i);
      assert s[i + 1..i + 1 + |pat|] == s[1..][i..i + |pat|];
      assert StartsAt(s, pat, i + 1);
    }
  }

  /** Go's `strings.Replace(s, target, repl, -1)`: every leftmost,
      non-overlapping occurrence of `target` is replaced by `repl`. */
  function ReplaceAll(s: string, target: string, repl: string): (r: string)
    requires target != []
    // replacing the token by itself changes nothing
    ensures repl == target ==> r == s
    decreases |s|
  {
    if |s| < |target| then s
    else if s[..|target|] == target then
      var rest := ReplaceAll(s[|target|..], target, repl);
      assert s[..|target|] + s[|target|..] == s;
      repl + rest
    else
      var rest := ReplaceAll(s[1..], target, repl);
      assert [s[0]] + s[1..] == s;
      [s[0]] + rest
  }

  /** Replacing a string that does not occur changes nothing. */
  lemma {:induction false} ReplaceAbsent(s: string, target: string, repl: string)
    requires target != [] && !Occurs(s, target)
    ensures ReplaceAll(s, target, repl) == s
    decreases |s|
  {
    if |s| >= |target| {
      assert !StartsAt(s, target, 0);
      AbsentInTail(s, target);
      ReplaceAbsent(s[1..], target, repl);
    }
  }

  /** An occurrence at the very start is replaced and scanning resumes after it. */
  lemma ReplaceHead(target: string, repl: string, rest: string)
    requires target != []
    ensures ReplaceAll(target + rest, target, repl) == repl + ReplaceAll(rest, target, repl)
  {
    var s := target + rest;
    assert s[..|target|] == target;
    assert s[|target|..] == rest;
  }

  /** A prefix that does not even contain the first character of `target`
      passes through unchanged. */
  lemma {:induction false} ReplaceSkip(a: string, rest: string, target: string, repl: string)
    requires target != [] && target[0] !in a
    ensures ReplaceAll(a + rest, target, repl) == a + ReplaceAll(rest, target, repl)
    decreases |a|
  {
    if a != [] {
      var s := a + rest;
      assert s[0] == a[0];
      assert s[1..] == a[1..] + rest;
      if |s| >= |target| {
        assert s[..|target|][0] != target[0];
        ReplaceSkip(a[1..], rest, target, repl);
        assert [a[0]] + a[1..] == a;
      }
    } else {
      assert a + rest == rest;
    }
  }

  /** A position where the token does not start copies one character. */
  lemma ReplaceMiss(s: string, target: string, repl: string)
    requires target != [] && |target| <= |s| && s[..|target|] != target
    ensures ReplaceAll(s, target, repl) == [s[0]] + ReplaceAll(s[1..], target, repl)
  {
  }

  /** The first occurrence is the one replaced: text before it that holds no
      occurrence (not even one running into the token) is copied unchanged,
      the token becomes `repl`, and scanning resumes after it. */
  lemma {:induction false} ReplaceFirst(a: string, target: string, repl: string, rest: string)
    requires target != [] && !Occurs(a + target[..|target| - 1], target)
    ensures ReplaceAll(a + target + rest, target, repl) == a + repl + ReplaceAll(rest, target, repl)
    decreases |a|
  {
    if a == [] {
      assert a + target + rest == target + rest;
      ReplaceHead(target, repl, rest);
    } else {
      var s := a + target + rest;
      var p := a + target[..|target| - 1];
      assert s[..|target|] != target by {
        assert p[..|target|] == s[..|target|];
        assert !StartsAt(p, target, 0);
      }
      ReplaceMiss(s, target, repl);
      assert s[1..] == a[1..] + target + rest;
      AbsentInTail(p, target);
      assert p[1..] == a[1..] + target[..|target| - 1];
      ReplaceFirst(a[1..], target, repl, rest);
      assert [a[0]] + a[1..] == a;
    }
  }

  /** Replacing never introduces a character that neither the input nor the
      replacement contains. */
  lemma {:induction false} ReplaceKeepsOut(s: string, target: string, repl: string, c: char)
    requires target != [] && c !in s && c !in repl
    ensures c !in ReplaceAll(s, target, repl)
    decreases |s|
  {
    if |s| >= |target| {
      if s[..|target|] == target {
        ReplaceKeepsOut(s[|target|..], target, repl, c);
      } else {
        ReplaceKeepsOut(s[1..], target, repl, c);
      }
    }
  }

  /** Go's `strings.Split(s, string(sep))`: the pieces between separators,
      one more piece than there are separators. */
  function Split(s: string, sep: char): (parts: seq<string>)
    ensures |parts| == Count(s, sep) + 1
    ensures forall i :: 0 <= i < |parts| ==> sep !in parts[i]
  {
    if s == [] then [""]
    else
      var tail := Split(s[1..], sep);
      if s[0] == sep then [""] + tail
      else [[s[0]] + tail[0]] + tail[1..]
  }

  /** The first piece of a split is the text before the first separator:
      a prefix of `s` that is either all of `s` or followed by `sep`. */
  lemma {:induction false} SplitHead(s: string, sep: char)
    ensures var head := Split(s, sep)[0];
            head <= s && (|head| < |s| ==> s[|head|] == sep)
  {
    if s != [] && s[0] != sep {
      SplitHead(s[1..], sep);
    }
  }

  /** Go's `strings.Join(parts, string(sep))`. */
  function Join(parts: seq<string>, sep: char): string
    requires |parts| >= 1
  {
    if |parts| == 1 then parts[0]
    else parts[0] + [sep] + Join(parts[1..], sep)
  }

  /** Joining the pieces of a split gives the original string back. */
  lemma {:induction false} JoinSplit(s: string, sep: char)
    ensures Join(Split(s, sep), sep) == s
  {
    if s != [] {
      var tail := Split(s[1..], sep);
      JoinSplit(s[1..], sep);
      var parts := Split(s, sep);
      if s[0] == sep {
        assert parts[1..] == tail;
      } else if |tail| == 1 {
        assert parts == [[s[0]] + tail[0]];
      } else {
        assert parts[1..] == tail[1..];
        assert Join(tail, sep) == tail[0] + [sep] + Join(tail[1..], sep);
      }
    }
  }

  /** A separator-free prefix is glued onto the first piece. */
  lemma {:induction false} SplitPrefix(p: string, x: string, sep: char)
    requires sep !in p
    ensures Split(p + x, sep) == [p + Split(x, sep)[0]] + Split(x, sep)[1..]
    decreases |p|
  {
    if p == [] {
      var parts := Split(x, sep);
      assert p + x == x;
      assert p + parts[0] == parts[0];
      assert parts == [parts[0]] + parts[1..];
    } else {
      assert (p + x)[1..] == p[1..] + x;
      SplitPrefix(p[1..], x, sep);
      assert [p[0]] + (p[1..] + Split(x, sep)[0]) == p + Split(x, sep)[0];
    }
  }

  /** Splitting a join of separator-free pieces gives the pieces back. */
  lemma {:induction false} SplitJoin(parts: seq<string>, sep: char)
    requires |parts| >= 1
    requires forall i :: 0 <= i < |parts| ==> sep !in parts[i]
    ensures Split(Join(parts, sep), sep) == parts
  {
    if |parts| == 1 {
      SplitPrefix(parts[0], [], sep);
      assert parts[0] + [] == parts[0];
    } else {
      var rest := Join(parts[1..], sep);
      SplitJoin(parts[1..], sep);
      assert ([sep] + rest)[1..] == rest;
      assert Split([sep] + rest, sep) == [""] + parts[1..];
      assert parts[0] + [sep] + rest == parts[0] + ([sep] + rest);
      SplitPrefix(parts[0], [sep] + rest, sep);
      assert parts[0] + "" == parts[0];
    }
  }
}
