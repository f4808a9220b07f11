/** The Python string operations the pipeline relies on: `sep.join`, `str.split` on a
    one-character separator, `str.strip` and decimal rendering of an int. */
module Text {

  /** `sep.join(parts)`. */
  function Join(parts: seq<string>, sep: string): string
  {
    if |parts| == 0 then ""
    else if |parts| == 1 then parts[0]
    else parts[0] + sep + Join(parts[1..], sep)
  }

  /** `s.split(c)` for a one-character separator: never empty, the pieces between
      separators, verbatim (empty pieces included). */
  function Split(s: string, c: char): (r: seq<string>)
    ensures |r| >= 1
  {
    if |s| == 0 then [""]
    else if s[0] == c then [""] + Split(s[1..], c)
    else
      var rest := Split(s[1..], c);
      [[s[0]] + rest[0]] + rest[1..]
  }

  /** Number of occurrences of `c` in `s`. */
  function Occurrences(s: string, c: char): nat
  {
    if |s| == 0 then 0 else (if s[0] == c then 1 else 0) + Occurrences(s[1..], c)
  }

  /** Splitting yields one piece more than there are separators, and no piece holds one. */
  lemma {:induction false} SplitShape(s: string, c: char)
    ensures |Split(s, c)| == Occurrences(s, c) + 1
    ensures forall k :: 0 <= k < |Split(s, c)| ==> c !in Split(s, c)[k]
  {
    if |s| > 0 {
      SplitShape(s[1..], c);
    }
  }

  /** Joining the pieces back with the separator gives the original string. */
  lemma {:induction false} JoinSplit(s: string, c: char)
    ensures Join(Split(s, c), [c]) == s
  {
    if |s| > 0 {
      JoinSplit(s[1..], c);
      var rest := Split(s[1..], c);
      if s[0] == c {
        assert Split(s, c) == [""] + rest;
      } else if |rest| > 1 {
        assert Join(rest, [c]) == rest[0] + [c] + Join(rest[1..], [c]);
        assert Split(s, c)[1..] == rest[1..];
      }
    }
  }

  lemma {:induction false} SplitWithoutSeparator(s: string, c: char)
    requires c !in s
    ensures Split(s, c) == [s]
  {
    if |s| > 0 {
      assert s[0] != c && c !in s[1..];
      SplitWithoutSeparator(s[1..], c);
      assert [s[0]] + s[1..] == s;
    }
  }

  lemma {:induction false} SplitAtFirstSeparator(a: string, b: string, c: char)
    requires c !in a
    ensures Split(a + [c] + b, c) == [a] + Split(b, c)
  {
    if |a| == 0 {
      assert a + [c] + b == [c] + b;
    } else {
      assert a[0] != c && c !in a[1..];
      SplitAtFirstSeparator(a[1..], b, c);
      var s := a + [c] + b;
      assert s[0] == a[0] && s[1..] == a[1..] + [c] + b;
      assert [a[0]] + a[1..] == a;
    }
  }

  /** Splitting a join recovers the parts, when there is at least one part and no
      part holds the separator. */
  lemma {:induction false} SplitJoin(parts: seq<string>, c: char)
    requires |parts| >= 1
    requires forall k :: 0 <= k < |parts| ==> c !in parts[k]
    ensures Split(Join(parts, [c]), c) == parts
  {
    if |parts| == 1 {
      SplitWithoutSeparator(parts[0], c);
    } else {
      SplitJoin(parts[1..], c);
      SplitAtFirstSeparator(parts[0], Join(parts[1..], [c]), c);
      assert parts == [parts[0]] + parts[1..];
    }
  }

  /** A character outside every part and the separator is outside the join. */
  lemma {:induction false} JoinAvoids(parts: seq<string>, sep: string, c: char)
    requires c !in sep
    requires forall k :: 0 <= k < |parts| ==> c !in parts[k]
    ensures c !in Join(parts, sep)
  {
    if |parts| > 1 {
      JoinAvoids(parts[1..], sep, c);
    }
  }

  /** The characters Python's `str.isspace` accepts. */
  predicate IsSpace(ch: char)
  {
    var n := ch as int;
    9 <= n <= 13 || 28 <= n <= 32 || n == 0x85 || n == 0xA0 || n == 0x1680 ||
    0x2000 <= n <= 0x200A || n == 0x2028 || n == 0x2029 || n == 0x202F || n == 0x205F || n == 0x3000
  }

  function StripLeft(s: string): string
  {
    if |s| > 0 && IsSpace(s[0]) then StripLeft(s[1..]) else s
  }

  function StripRight(s: string): string
  {
    if |s| > 0 && IsSpace(s[|s| - 1]) then StripRight(s[..|s| - 1]) else s
  }

  /** `s.strip()`. */
  function Strip(s: string): string
  {
    StripRight(StripLeft(s))
  }

  /** The truth value of `s.strip()`: the chunk filter of the ingestor. */
  predicate NonBlank(s: string)
  {
    Strip(s) != ""
  }

  predicate AllSpace(s: string)
  {
    forall k :: 0 <= k < |s| ==> IsSpace(s[k])
  }

  lemma {:induction false} StripLeftShape(s: string)
    ensures StripLeft(s) == "" <==> AllSpace(s)
    ensures StripLeft(s) != "" ==> !IsSpace(StripLeft(s)[0])
  {
    if |s| > 0 && IsSpace(s[0]) {
      StripLeftShape(s[1..]);
      assert AllSpace(s) <==> AllSpace(s[1..]) by {
        assert forall k :: 0 < k < |s| ==> s[k] == s[1..][k - 1];
      }
    }
  }

  lemma {:induction false} StripRightEmpty(s: string)
    requires |s| > 0 ==> !IsSpace(s[0])
    ensures StripRight(s) == "" <==> s == ""
  {
    if |s| > 0 && IsSpace(s[|s| - 1]) {
      assert |s| > 1;
      StripRightEmpty(s[..|s| - 1]);
    }
  }

  /** `s.strip()` is empty exactly when every character of `s` is whitespace. */
  lemma NonBlankIff(s: string)
    ensures NonBlank(s) <==> exists k :: 0 <= k < |s| && !IsSpace(s[k])
  {
    StripLeftShape(s);
    StripRightEmpty(StripLeft(s));
  }

  /** A decimal digit. */
  function Digit(d: nat): char
    requires d < 10
  {
    "0123456789"[d]
  }

  /** `str(n)` for a natural number. */
  function Decimal(n: nat): string
  {
    if n < 10 then [Digit(n)] else Decimal(n / 10) + [Digit(n % 10)]
  }
}
