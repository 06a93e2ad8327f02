/**
 * The JavaScript string built-ins the generator relies on, over `seq<char>`:
 * `' '.repeat(n)`, `Array.prototype.join`, `String.prototype.split` with a
 * one-character separator, `startsWith`/`endsWith` and `replace` with a string
 * pattern (first occurrence only).
 */
module Strings {

  /** `' '.repeat(n)` */
  function Spaces(n: nat): (r: string)
    ensures |r| == n
    ensures forall i :: 0 <= i < n ==> r[i] == ' '
  {
    if n == 0 then "" else " " + Spaces(n - 1)
  }

  predicate StartsWith(s: string, prefix: string) {
    |prefix| <= |s| && s[..|prefix|] == prefix
  }

  predicate EndsWith(s: string, suffix: string) {
    |suffix| <= |s| && s[|s| - |suffix|..] == suffix
  }

  /** `parts.join(sep)`: the parts in order with `sep` between neighbours. */
  function Join(parts: seq<string>, sep: string): string
  {
    if |parts| == 0 then ""
    else if |parts| == 1 then parts[0]
    else parts[0] + sep + Join(parts[1..], sep)
  }

  /** `s.split(sep)` for a one-character separator: never empty. */
  function Split(s: string, sep: char): (parts: seq<string>)
    ensures |parts| >= 1
  {
    if s == [] then [""]
    else
      var rest := Split(s[1..], sep);
      if s[0] == sep then [""] + rest
      else [[s[0]] + rest[0]] + rest[1..]
  }

  /** Joining the parts of a split with the separator gives the string back. */
  lemma {:induction false} JoinSplit(s: string, sep: char)
    ensures Join(Split(s, sep), [sep]) == s
  {
    if s != [] {
      var rest := Split(s[1..], sep);
      JoinSplit(s[1..], sep);
      if s[0] != sep && |rest| > 1 {
        assert Join(rest, [sep]) == rest[0] + [sep] + Join(rest[1..], [sep]);
      }
    }
  }

  /** A string without the separator splits into itself alone. */
  lemma {:induction false} SplitWithoutSeparator(s: string, sep: char)
    requires sep !in s
    ensures Split(s, sep) == [s]
  {
    if s != [] {
      assert s[0] in s;
      assert forall c :: c in s[1..] ==> c in s;
      SplitWithoutSeparator(s[1..], sep);
      assert [s[0]] + s[1..] == s;
    }
  }

  /** One unfolding of `Split` on a string given as its first character and the rest. */
  lemma SplitCons(c: char, rest: string, sep: char)
    ensures Split([c] + rest, sep)
            == if c == sep then [""] + Split(rest, sep) else [[c] + Split(rest, sep)[0]] + Split(rest, sep)[1..]
  {
    assert ([c] + rest)[0] == c;
    assert ([c] + rest)[1..] == rest;
  }

  /** The first part absorbs a leading non-separator character; the later parts are unaffected. */
  lemma ConsFirstPart(c: string, left: seq<string>, right: seq<string>)
    requires |left| >= 1
    ensures [c + (left + right)[0]] + (left + right)[1..] == ([c + left[0]] + left[1..]) + right
  {
    assert (left + right)[0] == left[0];
    assert (left + right)[1..] == left[1..] + right;
  }

  /** Splitting distributes over a separator occurrence. */
  lemma {:induction false} SplitAround(a: string, sep: char, b: string)
    ensures Split(a + [sep] + b, sep) == Split(a, sep) + Split(b, sep)
  {
    if a == [] {
      assert a + [sep] + b == [sep] + b;
      SplitCons(sep, b, sep);
    } else {
      var tail := a[1..] + [sep] + b;
      var left, right := Split(a[1..], sep), Split(b, sep);
      calc {
        Split(a + [sep] + b, sep);
        { assert a + [sep] + b == [a[0]] + tail; }
        Split([a[0]] + tail, sep);
        { SplitCons(a[0], tail, sep); SplitAround(a[1..], sep, b); }
        if a[0] == sep then [""] + (left + right) else [[a[0]] + (left + right)[0]] + (left + right)[1..];
        { if a[0] == sep { assert [""] + (left + right) == ([""] + left) + right; }
          else { ConsFirstPart([a[0]], left, right); } }
        (if a[0] == sep then [""] + left else [[a[0]] + left[0]] + left[1..]) + right;
        { SplitCons(a[0], a[1..], sep); assert [a[0]] + a[1..] == a; }
        Split(a, sep) + right;
      }
    }
  }

  /** A string ending in `middle + suffix` ends in `suffix`. */
  lemma EndsWithTail(s: string, middle: string, suffix: string)
    requires EndsWith(s, middle + suffix)
    ensures EndsWith(s, suffix)
  {
    var whole := middle + suffix;
    assert s[|s| - |suffix|..] == s[|s| - |whole|..][|middle|..];
    assert whole[|middle|..] == suffix;
  }

  /** Concatenation is associative. */
  lemma Assoc(a: string, b: string, c: string)
    ensures a + (b + c) == a + b + c
  {
  }

  /** A prefix stays a prefix when more is appended. */
  lemma StartsWithAppend(s: string, prefix: string, more: string)
    requires StartsWith(s, prefix)
    ensures StartsWith(s + more, prefix)
  {
    assert (s + more)[..|prefix|] == s[..|prefix|];
  }

  /** `a + b` begins `a + (b + c)`. */
  lemma StartsWithGrouped(a: string, b: string, c: string)
    ensures StartsWith(a + (b + c), a + b)
  {
    assert a + (b + c) == (a + b) + c;
    assert ((a + b) + c)[..|a + b|] == a + b;
  }

  /** The prefix and the suffix of a concatenation. */
  lemma Affixes(head: string, middle: string, tail: string)
    ensures StartsWith(head + middle + tail, head)
    ensures EndsWith(head + middle + tail, tail)
  {
    var s := head + middle + tail;
    assert s[..|head|] == head;
    assert s[|s| - |tail|..] == tail;
  }

  /** Splitting the join of separator-free parts gives the parts back. */
  lemma {:induction false} SplitJoin(parts: seq<string>, sep: char)
    requires |parts| >= 1
    requires forall i :: 0 <= i < |parts| ==> sep !in parts[i]
    ensures Split(Join(parts, [sep]), sep) == parts
  {
    if |parts| == 1 {
      SplitWithoutSeparator(parts[0], sep);
    } else {
      SplitJoin(parts[1..], sep);
      SplitWithoutSeparator(parts[0], sep);
      SplitAround(parts[0], sep, Join(parts[1..], [sep]));
    }
  }

  /** Whether `pattern` occurs in `s` at position `i`. */
  predicate OccursAt(s: string, pattern: string, i: nat) {
    i + |pattern| <= |s| && s[i..i + |pattern|] == pattern
  }

  /** `s.replace(pattern, replacement)` with a string pattern: only the first occurrence is replaced. */
  function ReplaceFirst(s: string, pattern: string, replacement: string): string
    decreases |s|
  {
    if StartsWith(s, pattern) then replacement + s[|pattern|..]
    else if s == [] then s
    else [s[0]] + ReplaceFirst(s[1..], pattern, replacement)
  }

  /** Without an occurrence of the pattern the string is unchanged. */
  lemma {:induction false} ReplaceFirstAbsent(s: string, pattern: string, replacement: string)
    requires forall i: nat :: !OccursAt(s, pattern, i)
    ensures ReplaceFirst(s, pattern, replacement) == s
  {
    assert !OccursAt(s, pattern, 0);
    if s != [] {
      forall i: nat ensures !OccursAt(s[1..], pattern, i) {
        assert !OccursAt(s, pattern, i + 1);
      }
      ReplaceFirstAbsent(s[1..], pattern, replacement);
    }
  }

  /** The first occurrence, and only it, is replaced. */
  lemma {:induction false} ReplaceFirstOccurrence(before: string, pattern: string, after: string, replacement: string)
    requires forall i: nat :: i < |before| ==> !OccursAt(before + pattern + after, pattern, i)
    ensures ReplaceFirst(before + pattern + after, pattern, replacement) == before + replacement + after
  {
    var s := before + pattern + after;
    if before == [] {
      assert s == pattern + after;
      assert s[..|pattern|] == pattern;
    } else {
      assert !OccursAt(s, pattern, 0);
      assert s[1..] == before[1..] + pattern + after;
      forall i: nat | i < |before[1..]|
        ensures !OccursAt(before[1..] + pattern + after, pattern, i)
      {
        assert !OccursAt(s, pattern, i + 1);
      }
      ReplaceFirstOccurrence(before[1..], pattern, after, replacement);
    }
  }
}
