/**
 * The handful of JavaScript string operations the portfolio relies on:
 * `a || b` on optional strings, `split`, `join`, `split(...).pop()`,
 * `split('T')[0]` and the ordering used to find the newest ISO date.
 */
module Text {
  import opened Wrappers

  /** JavaScript truthiness of an optional string: `undefined` and `""` are falsy. */
  predicate Truthy(o: Option<string>)
  {
    o.Some? && o.value != ""
  }

  /** JavaScript `o || d` where `o` is an optional string. */
  function OrElse(o: Option<string>, d: string): string
  {
    if Truthy(o) then o.value else d
  }

  lemma AppendAssoc<T>(a: seq<T>, b: seq<T>, c: seq<T>)
    ensures (a + b) + c == a + (b + c)
  {
  }

  /** Where the three parts of `a + b + c` sit. */
  lemma ConcatParts<T>(a: seq<T>, b: seq<T>, c: seq<T>)
    ensures |a + b + c| == |a| + |b| + |c|
    ensures (a + b + c)[..|a|] == a
    ensures (a + b + c)[|a|..|a| + |b|] == b
    ensures (a + b + c)[|a| + |b|..] == c
  {
  }

  /** Number of occurrences of `c` in `s`. */
  function Count(s: string, c: char): nat
  {
    if s == [] then 0 else (if s[0] == c then 1 else 0) + Count(s[1..], c)
  }

  /** `s.split(c)` for a one-character separator. */
  function Split(s: string, c: char): (parts: seq<string>)
    ensures |parts| == Count(s, c) + 1
    ensures forall i :: 0 <= i < |parts| ==> c !in parts[i]
    ensures parts[0] <= s
  {
    if s == [] then [""]
    else
      var rest := Split(s[1..], c);
      if s[0] == c then [""] + rest
      else [[s[0]] + rest[0]] + rest[1..]
  }

  /** `parts.join(sep)`. */
  function Join(parts: seq<string>, sep: string): string
  {
    if |parts| == 0 then ""
    else if |parts| == 1 then parts[0]
    else parts[0] + sep + Join(parts[1..], sep)
  }

  /** Joining the pieces of a split with the separator gives the string back. */
  lemma {:induction false} JoinSplit(s: string, c: char)
    ensures Join(Split(s, c), [c]) == s
  {
    if s != [] {
      JoinSplit(s[1..], c);
      var rest := Split(s[1..], c);
      if s[0] != c && |rest| > 1 {
        assert Join(rest, [c]) == rest[0] + [c] + Join(rest[1..], [c]);
        assert s == [s[0]] + s[1..];
      }
    }
  }

  /** A string without the separator splits into itself alone. */
  lemma {:induction false} SplitWithoutSeparator(s: string, c: char)
    requires c !in s
    ensures Split(s, c) == [s]
  {
    if s != [] {
      assert c !in s[1..];
      SplitWithoutSeparator(s[1..], c);
      assert [s[0]] + s[1..] == s;
    }
  }

  /** Splitting distributes over a separator placed between two strings. */
  lemma {:induction false} SplitAround(x: string, c: char, y: string)
    ensures Split(x + [c] + y, c) == Split(x, c) + Split(y, c)
  {
    var s := x + [c] + y;
    if x == [] {
      assert s == [c] + y;
      assert s[1..] == y;
    } else {
      assert s[0] == x[0];
      assert s[1..] == x[1..] + [c] + y;
      SplitAround(x[1..], c, y);
    }
  }

  /** Splitting undoes joining when no piece holds the separator. */
  lemma {:induction false} SplitJoin(parts: seq<string>, c: char)
    requires |parts| > 0
    requires forall i :: 0 <= i < |parts| ==> c !in parts[i]
    ensures Split(Join(parts, [c]), c) == parts
  {
    if |parts| == 1 {
      SplitWithoutSeparator(parts[0], c);
    } else {
      SplitJoin(parts[1..], c);
      SplitWithoutSeparator(parts[0], c);
      SplitAround(parts[0], c, Join(parts[1..], [c]));
    }
  }

  /** `s.split('/').pop()`: the text after the last slash. */
  function LastSegment(s: string): string
  {
    var parts := Split(s, '/');
    parts[|parts| - 1]
  }

  /** The last segment of `x + "/" + y` is `y` when `y` holds no slash. */
  lemma LastSegmentAfterSlash(x: string, y: string)
    requires '/' !in y
    ensures LastSegment(x + "/" + y) == y
  {
    SplitAround(x, '/', y);
    SplitWithoutSeparator(y, '/');
  }

  /** The last segment is a suffix of the string and holds no slash. */
  lemma {:induction false} LastSegmentIsSuffix(s: string)
    ensures '/' !in LastSegment(s)
    ensures |LastSegment(s)| <= |s| && LastSegment(s) == s[|s| - |LastSegment(s)|..]
  {
    if s != [] {
      LastSegmentIsSuffix(s[1..]);
      var rest := Split(s[1..], '/');
      if s[0] != '/' && |rest| == 1 {
        JoinSplit(s[1..], '/');
        assert s == [s[0]] + s[1..];
      }
    }
  }

  /** `s.split('T')[0]`: the date part of an ISO-8601 timestamp. */
  function DatePart(s: string): string
  {
    Split(s, 'T')[0]
  }

  /** The date part is the longest prefix of `s` that holds no `T`. */
  lemma {:induction false} DatePartIsLongestPrefix(s: string)
    ensures DatePart(s) <= s && 'T' !in DatePart(s)
    ensures |DatePart(s)| < |s| ==> s[|DatePart(s)|] == 'T'
  {
    if s != [] && s[0] != 'T' {
      DatePartIsLongestPrefix(s[1..]);
    }
  }

  /** For `date + "T" + time` the date part is `date`. */
  lemma DatePartOfTimestamp(date: string, time: string)
    requires 'T' !in date
    ensures DatePart(date + "T" + time) == date
  {
    SplitAround(date, 'T', time);
    SplitWithoutSeparator(date, 'T');
  }

  /** Taking the date part twice changes nothing. */
  lemma DatePartIdempotent(s: string)
    ensures DatePart(DatePart(s)) == DatePart(s)
  {
    DatePartIsLongestPrefix(s);
    SplitWithoutSeparator(DatePart(s), 'T');
  }

  /** Lexicographic order on strings: for well-formed ISO-8601 dates, chronological order. */
  predicate LexLe(a: string, b: string)
  {
    a == [] || (b != [] && (a[0] < b[0] || (a[0] == b[0] && LexLe(a[1..], b[1..]))))
  }

  lemma {:induction false} LexLeTotal(a: string, b: string)
    ensures LexLe(a, b) || LexLe(b, a)
  {
    if a != [] && b != [] && a[0] == b[0] {
      LexLeTotal(a[1..], b[1..]);
    }
  }

  lemma {:induction false} LexLeTransitive(a: string, b: string, c: string)
    requires LexLe(a, b) && LexLe(b, c)
    ensures LexLe(a, c)
  {
    if a != [] && b != [] && c != [] && a[0] == b[0] && b[0] == c[0] {
      LexLeTransitive(a[1..], b[1..], c[1..]);
    }
  }

  lemma {:induction false} LexLeReflexive(a: string)
    ensures LexLe(a, a)
  {
    if a != [] {
      LexLeReflexive(a[1..]);
    }
  }
}
