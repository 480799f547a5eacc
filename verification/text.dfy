/**
 The Python string operations the scripts use: `sep.join(parts)`,
 `s.replace(c, "")`, `s.strip()` and `s.rstrip("\n")`, plus the
 line-splitting and substring notions the message lemmas are stated with.
 */
module Text {

  /** `sep.join(parts)`. */
  function Join(sep: string, parts: seq<string>): string
  {
    if |parts| == 0 then ""
    else if |parts| == 1 then parts[0]
    else parts[0] + sep + Join(sep, parts[1..])
  }

  /** `s.replace(c, "")` for a single character `c`. */
  function RemoveChar(s: string, c: char): (r: string)
    ensures c !in r
    ensures |r| <= |s|
    ensures forall x :: x in r ==> x in s
    ensures |s| == 1 ==> r == (if s[0] == c then "" else s)
  {
    if |s| == 0 then ""
    else if s[0] == c then RemoveChar(s[1..], c)
    else [s[0]] + RemoveChar(s[1..], c)
  }

  /**
   Removal works piece by piece: the kept characters stay in their input
   order, which with the one-character case pins the result down.
   */
  lemma {:induction false} RemoveCharAppend(a: string, b: string, c: char)
    ensures RemoveChar(a + b, c) == RemoveChar(a, c) + RemoveChar(b, c)
  {
    if |a| > 0 {
      assert (a + b)[1..] == a[1..] + b;
      RemoveCharAppend(a[1..], b, c);
    } else {
      assert a + b == b;
    }
  }

  /** Number of occurrences of `c` in `s`. */
  function Count(s: string, c: char): nat
  {
    if |s| == 0 then 0 else (if s[0] == c then 1 else 0) + Count(s[1..], c)
  }

  /** Removing every `c` drops exactly the occurrences of `c`. */
  lemma {:induction false} RemoveCharLength(s: string, c: char)
    ensures |RemoveChar(s, c)| + Count(s, c) == |s|
  {
    if |s| > 0 {
      RemoveCharLength(s[1..], c);
    }
  }

  /** A string without `c` is left unchanged, so removal is idempotent. */
  lemma {:induction false} RemoveCharAbsent(s: string, c: char)
    requires c !in s
    ensures RemoveChar(s, c) == s
  {
    if |s| > 0 {
      assert s == [s[0]] + s[1..];
      RemoveCharAbsent(s[1..], c);
    }
  }

  /** Splits `s` at every `c` (Python `s.split(c)`): never empty. */
  function Split(s: string, c: char): (r: seq<string>)
    ensures |r| == Count(s, c) + 1
    ensures forall i :: 0 <= i < |r| ==> c !in r[i]
  {
    if |s| == 0 then [""]
    else
      var rest := Split(s[1..], c);
      if s[0] == c then [""] + rest
      else [[s[0]] + rest[0]] + rest[1..]
  }

  lemma {:induction false} SplitNoSep(s: string, c: char)
    requires c !in s
    ensures Split(s, c) == [s]
  {
    if |s| > 0 {
      SplitNoSep(s[1..], c);
      assert s == [s[0]] + s[1..];
    }
  }

  lemma {:induction false} SplitAppend(a: string, c: char, b: string)
    requires c !in a
    ensures Split(a + [c] + b, c) == [a] + Split(b, c)
    decreases |a|
  {
    if |a| == 0 {
      assert a + [c] + b == [c] + b;
      assert ([c] + b)[1..] == b;
    } else {
      var s := a + [c] + b;
      assert s[0] == a[0];
      assert s[1..] == a[1..] + [c] + b;
      SplitAppend(a[1..], c, b);
      assert [a[0]] + a[1..] == a;
    }
  }

  /** Joining lines that contain no `c` with `c` and splitting again gives the lines back. */
  lemma {:induction false} SplitJoin(parts: seq<string>, c: char)
    requires |parts| > 0
    requires forall i :: 0 <= i < |parts| ==> c !in parts[i]
    ensures Split(Join([c], parts), c) == parts
    decreases |parts|
  {
    if |parts| == 1 {
      SplitNoSep(parts[0], c);
    } else {
      SplitJoin(parts[1..], c);
      SplitAppend(parts[0], c, Join([c], parts[1..]));
      assert [parts[0]] + parts[1..] == parts;
    }
  }

  /** The characters Python's `str.isspace` accepts, which `str.strip()` removes. */
  predicate IsSpace(c: char) {
    var n := c as int;
    || n == 0x20 || (0x09 <= n <= 0x0D) || (0x1C <= n <= 0x1F)
    || n == 0x85 || n == 0xA0 || n == 0x1680
    || (0x2000 <= n <= 0x200A) || n == 0x2028 || n == 0x2029
    || n == 0x202F || n == 0x205F || n == 0x3000
  }

  /** `s.lstrip()`. */
  function LStrip(s: string): (r: string)
    ensures |r| <= |s| && r == s[|s| - |r|..]
    ensures |r| > 0 ==> !IsSpace(r[0])
    ensures forall i :: 0 <= i < |s| - |r| ==> IsSpace(s[i])
  {
    if |s| > 0 && IsSpace(s[0]) then
      var r := LStrip(s[1..]);
      assert forall i :: 1 <= i < |s| - |r| ==> s[i] == s[1..][i - 1];
      r
    else s
  }

  /** `s.rstrip()`. */
  function RStrip(s: string): (r: string)
    ensures |r| <= |s| && r == s[..|r|]
    ensures |r| > 0 ==> !IsSpace(r[|r| - 1])
    ensures forall i :: |r| <= i < |s| ==> IsSpace(s[i])
  {
    if |s| > 0 && IsSpace(s[|s| - 1]) then
      var r := RStrip(s[..|s| - 1]);
      assert forall i :: |r| <= i < |s| - 1 ==> s[i] == s[..|s| - 1][i];
      r
    else s
  }

  /**
   `s.strip()`: the infix that neither starts nor ends with whitespace,
   obtained by dropping only whitespace on either side.
   */
  function Strip(s: string): (r: string)
    ensures StrippedFrom(s, r)
  {
    StripKeepsInfix(s);
    RStrip(LStrip(s))
  }

  lemma StripKeepsInfix(s: string)
    ensures StrippedFrom(s, RStrip(LStrip(s)))
  {
    var l := LStrip(s);
    var r := RStrip(l);
    var i := |s| - |l|;
    assert r == s[i..i + |r|] by {
      assert l == s[i..] && r == l[..|r|];
    }
    forall k | i + |r| <= k < |s|
      ensures IsSpace(s[k])
    {
      assert s[k] == l[k - i];
    }
    StrippedAt(s, r, i);
  }

  /** A witness position for `StrippedFrom`. */
  lemma StrippedAt(s: string, r: string, i: nat)
    requires Occurs(s, r, i) && OnlySpaceAround(s, i, i + |r|)
    requires |r| > 0 ==> !IsSpace(r[0]) && !IsSpace(r[|r| - 1])
    ensures StrippedFrom(s, r)
  {
  }

  /** `r` is `s` with the surrounding whitespace removed: it occurs in `s` with only whitespace around it, and neither end of it is whitespace. */
  predicate StrippedFrom(s: string, r: string)
  {
    && (|r| > 0 ==> !IsSpace(r[0]) && !IsSpace(r[|r| - 1]))
    && exists i: nat | i <= |s| :: Occurs(s, r, i) && OnlySpaceAround(s, i, i + |r|)
  }

  /** Every character of `s` outside `s[lo..hi]` is whitespace. */
  predicate OnlySpaceAround(s: string, lo: nat, hi: nat)
    requires lo <= hi <= |s|
  {
    (forall k :: 0 <= k < lo ==> IsSpace(s[k])) && (forall k :: hi <= k < |s| ==> IsSpace(s[k]))
  }

  /** `s.rstrip("\n")`. */
  function RStripNewlines(s: string): (r: string)
    ensures |r| <= |s| && r == s[..|r|]
    ensures |r| > 0 ==> r[|r| - 1] != '\n'
    ensures forall i :: |r| <= i < |s| ==> s[i] == '\n'
  {
    if |s| > 0 && s[|s| - 1] == '\n' then RStripNewlines(s[..|s| - 1]) else s
  }

  /** `t` occurs in `s` starting at position `i`. */
  predicate Occurs(s: string, t: string, i: nat) {
    i + |t| <= |s| && s[i..i + |t|] == t
  }

  /** `t in s` for strings. */
  predicate Contains(s: string, t: string) {
    exists i: nat | i <= |s| :: Occurs(s, t, i)
  }

  /** The middle part of a three-part concatenation occurs right after the first. */
  lemma OccursMiddle(x: string, m: string, y: string)
    ensures Occurs(x + m + y, m, |x|)
  {
    ThreeParts(x, m, y);
  }

  /** The three parts of a concatenation read back by slicing. */
  lemma ThreeParts(a: string, b: string, c: string)
    ensures (a + b + c)[..|a|] == a
    ensures (a + b + c)[|a|..|a| + |b|] == b
    ensures (a + b + c)[|a| + |b|..] == c
  {
  }
}
