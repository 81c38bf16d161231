/** Shared vocabulary of the model: optional values, absolute value, sums,
    ASCII case folding and the few string operations the source performs on
    text (trim, split, pad, substring search). */
module Common {

  datatype Option<T> = None | Some(value: T)

  /** `Math.abs` on integers (amounts are in cents). */
  function Abs(x: int): (r: nat)
    ensures r == x || r == -x
    ensures x >= 0 ==> r == x
  {
    if x < 0 then -x else x
  }

  function Max(a: int, b: int): (r: int)
    ensures r >= a && r >= b && (r == a || r == b)
  {
    if a < b then b else a
  }

  function Min(a: int, b: int): (r: int)
    ensures r <= a && r <= b && (r == a || r == b)
  {
    if a < b then a else b
  }

  function Sum(xs: seq<int>): int
  {
    if xs == [] then 0 else Sum(xs[..|xs| - 1]) + xs[|xs| - 1]
  }

  lemma AppendAssoc<T>(a: seq<T>, b: seq<T>, c: seq<T>)
    ensures (a + b) + c == a + (b + c)
  {
  }

  lemma {:induction false} SumAppend(a: seq<int>, b: seq<int>)
    ensures Sum(a + b) == Sum(a) + Sum(b)
  {
    if b == [] {
      assert a + b == a;
    } else {
      assert (a + b)[..|a + b| - 1] == a + b[..|b| - 1];
      SumAppend(a, b[..|b| - 1]);
    }
  }

  // ---------------------------------------------------------------------
  // Characters and strings

  /** ASCII upper case to lower case; every other character is kept. */
  function LowerChar(c: char): char
  {
    if 'A' <= c <= 'Z' then (c as int + 32) as char else c
  }

  function Lower(s: string): (r: string)
    ensures |r| == |s|
    ensures forall i :: 0 <= i < |s| ==> r[i] == LowerChar(s[i])
  {
    seq(|s|, i requires 0 <= i < |s| => LowerChar(s[i]))
  }

  predicate IsWhitespace(c: char)
  {
    c == ' ' || c == '\t' || c == '\n' || c == '\r' || c == '\U{000B}' || c == '\U{000C}' || c == '\U{00A0}'
  }

  function TrimStart(s: string): (r: string)
    ensures |r| <= |s|
    ensures r == [] || !IsWhitespace(r[0])
  {
    if s != [] && IsWhitespace(s[0]) then TrimStart(s[1..]) else s
  }

  /** `TrimStart` keeps a suffix. */
  lemma {:induction false} TrimStartIsSuffix(s: string)
    ensures TrimStart(s) == s[|s| - |TrimStart(s)|..]
  {
    if s != [] && IsWhitespace(s[0]) {
      TrimStartIsSuffix(s[1..]);
    }
  }

  /** `TrimStart` drops white space only. */
  lemma {:induction false} TrimStartDropsWhitespace(s: string)
    ensures forall i :: 0 <= i < |s| - |TrimStart(s)| ==> IsWhitespace(s[i])
  {
    if s != [] && IsWhitespace(s[0]) {
      TrimStartDropsWhitespace(s[1..]);
    }
  }

  function TrimEnd(s: string): (r: string)
    ensures |r| <= |s|
    ensures r == [] || !IsWhitespace(r[|r| - 1])
  {
    if s != [] && IsWhitespace(s[|s| - 1]) then TrimEnd(s[..|s| - 1]) else s
  }

  /** `TrimEnd` keeps a prefix. */
  lemma {:induction false} TrimEndIsPrefix(s: string)
    ensures TrimEnd(s) == s[..|TrimEnd(s)|]
  {
    if s != [] && IsWhitespace(s[|s| - 1]) {
      TrimEndIsPrefix(s[..|s| - 1]);
    }
  }

  /** `TrimEnd` drops white space only. */
  lemma {:induction false} TrimEndDropsWhitespace(s: string)
    ensures forall i :: |TrimEnd(s)| <= i < |s| ==> IsWhitespace(s[i])
  {
    if s != [] && IsWhitespace(s[|s| - 1]) {
      var t := s[..|s| - 1];
      TrimEndDropsWhitespace(t);
      assert forall i :: |TrimEnd(s)| <= i < |t| ==> t[i] == s[i];
    }
  }

  /** `String.prototype.trim`. */
  function Trim(s: string): (r: string)
    ensures r == [] || (!IsWhitespace(r[0]) && !IsWhitespace(r[|r| - 1]))
  {
    TrimEndIsPrefix(TrimStart(s));
    TrimEnd(TrimStart(s))
  }

  predicate StartsWith(s: string, p: string)
  {
    |p| <= |s| && s[..|p|] == p
  }

  /** Case-sensitive substring test (`String.prototype.includes`). */
  predicate Contains(s: string, p: string)
    decreases |s|
  {
    StartsWith(s, p) || (s != [] && Contains(s[1..], p))
  }

  /** `a <= b` on ISO dates, compared as text (as the database compares
      `YYYY-MM-DD` values). */
  predicate DateNotAfter(a: string, b: string)
  {
    a == [] || (b != [] && (a[0] < b[0] || (a[0] == b[0] && DateNotAfter(a[1..], b[1..]))))
  }

  /** The date order is total and transitive: it orders any list of dates. */
  lemma {:induction false} DateNotAfterTotal(a: string, b: string)
    ensures DateNotAfter(a, b) || DateNotAfter(b, a)
    ensures DateNotAfter(a, b) && DateNotAfter(b, a) ==> a == b
  {
    if a != [] && b != [] && a[0] == b[0] {
      DateNotAfterTotal(a[1..], b[1..]);
      if DateNotAfter(a, b) && DateNotAfter(b, a) {
        assert a == [a[0]] + a[1..] && b == [b[0]] + b[1..];
      }
    }
  }

  lemma {:induction false} DateNotAfterTrans(a: string, b: string, c: string)
    requires DateNotAfter(a, b) && DateNotAfter(b, c)
    ensures DateNotAfter(a, c)
  {
    if a != [] && a[0] == b[0] && b[0] == c[0] {
      DateNotAfterTrans(a[1..], b[1..], c[1..]);
    }
  }

  /** `s.split(sep)` for a one-character separator: the pieces between
      separators, so there is always one more piece than separators. */
  function Split(s: string, sep: char): (parts: seq<string>)
    ensures |parts| >= 1
    ensures sep in s ==> |parts| >= 2
  {
    SplitFrom(s, sep, [])
  }

  /** Splitting the rest of the text when `cur` has been read since the
      last separator. */
  function SplitFrom(s: string, sep: char, cur: string): (parts: seq<string>)
    ensures |parts| >= 1
    ensures sep in s ==> |parts| >= 2
  {
    if s == [] then [cur]
    else if s[0] == sep then [cur] + SplitFrom(s[1..], sep, [])
    else SplitFrom(s[1..], sep, cur + [s[0]])
  }

  /** No piece holds the separator. */
  lemma {:induction false} SplitPieces(s: string, sep: char, cur: string)
    requires sep !in cur
    ensures forall k :: 0 <= k < |SplitFrom(s, sep, cur)| ==> sep !in SplitFrom(s, sep, cur)[k]
  {
    if s != [] {
      if s[0] == sep {
        SplitPieces(s[1..], sep, []);
      } else {
        SplitPieces(s[1..], sep, cur + [s[0]]);
      }
    }
  }

  /** Text without a separator is one piece. */
  lemma {:induction false} SplitNone(s: string, sep: char, cur: string)
    requires sep !in s
    ensures SplitFrom(s, sep, cur) == [cur + s]
  {
    if s == [] {
      assert cur + s == cur;
    } else {
      assert s[0] != sep by {
        assert s[0] in s;
      }
      SplitNone(s[1..], sep, cur + [s[0]]);
      assert cur + [s[0]] + s[1..] == cur + s;
    }
  }

  /** Splitting at the first separator. */
  lemma {:induction false} SplitFromFirst(a: string, sep: char, b: string, cur: string)
    requires sep !in a
    ensures SplitFrom(a + [sep] + b, sep, cur) == [cur + a] + SplitFrom(b, sep, [])
  {
    if a == [] {
      var s := a + [sep] + b;
      assert s[0] == sep && s[1..] == b;
      assert cur + a == cur;
    } else {
      assert (a + [sep] + b)[1..] == a[1..] + [sep] + b;
      assert a[0] != sep by {
        assert a[0] in a;
      }
      SplitFromFirst(a[1..], sep, b, cur + [a[0]]);
      assert cur + [a[0]] + a[1..] == cur + a;
    }
  }

  lemma SplitFirst(a: string, sep: char, b: string)
    requires sep !in a
    ensures Split(a + [sep] + b, sep) == [a] + Split(b, sep)
  {
    SplitFromFirst(a, sep, b, []);
    assert [] + a == a;
  }

  /** The last piece is what follows the last separator. */
  lemma SplitLast(a: string, sep: char, b: string)
    requires sep !in b
    ensures var parts := Split(a + [sep] + b, sep); parts[|parts| - 1] == b
  {
    SplitFromLast(a, sep, b, []);
  }

  lemma {:induction false} SplitFromLast(a: string, sep: char, b: string, cur: string)
    requires sep !in b
    ensures var parts := SplitFrom(a + [sep] + b, sep, cur); parts[|parts| - 1] == b
  {
    if a == [] {
      assert a + [sep] + b == [sep] + b;
      SplitNone(b, sep, []);
      assert [] + b == b;
    } else {
      assert (a + [sep] + b)[1..] == a[1..] + [sep] + b;
      if a[0] == sep {
        SplitFromLast(a[1..], sep, b, []);
      } else {
        SplitFromLast(a[1..], sep, b, cur + [a[0]]);
      }
    }
  }

  /** Every character of `s` except the ones in `drop`
      (`s.replace(/[...]/g, "")`). */
  function RemoveChars(s: string, drop: set<char>): (r: string)
    ensures forall c :: c in r ==> c !in drop
    ensures |r| <= |s|
  {
    if s == [] then []
    else (if s[0] in drop then [] else [s[0]]) + RemoveChars(s[1..], drop)
  }

  /** `s.padStart(2, "0")`. */
  function PadStart2(s: string): (r: string)
    ensures |s| >= 2 ==> r == s
    ensures |s| < 2 ==> |r| == 2 && r[2 - |s|..] == s && forall i :: 0 <= i < 2 - |s| ==> r[i] == '0'
  {
    if |s| == 0 then "00" else if |s| == 1 then "0" + s else s
  }

  /** `s.slice(from, to)` with both bounds clamped to the string. */
  function Slice(s: string, from: nat, to: nat): (r: string)
    ensures to <= |s| && from <= to ==> r == s[from..to]
    ensures |r| <= |s|
  {
    var hi := if to <= |s| then to else |s|;
    if from <= hi then s[from..hi] else []
  }
}
