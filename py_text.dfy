/**
 * The few Python string built-ins the proxy and the preset lookup rely on:
 * `str.strip()`, `str.lower()`, `str.startswith`/`endswith`, `sep.join(...)`
 * and `str(int)`.  Case mapping and white space are the ASCII ones.
 */
module PyText {

  /** Characters `str.strip()` removes (the ASCII subset of `str.isspace()`). */
  predicate IsSpace(c: char) {
    c == ' ' || ('\t' <= c <= '\r') || ('\U{1C}' <= c <= '\U{1F}')
  }

  predicate AllSpace(s: string) {
    forall k :: 0 <= k < |s| ==> IsSpace(s[k])
  }

  /** `s.lstrip()` */
  function StripLeft(s: string): (r: string)
    ensures |r| <= |s| && r == s[|s| - |r|..]
    ensures forall k :: 0 <= k < |s| - |r| ==> IsSpace(s[k])
    ensures r != [] ==> !IsSpace(r[0])
  {
    if s != [] && IsSpace(s[0]) then StripLeft(s[1..]) else s
  }

  /** `s.rstrip()` */
  function StripRight(s: string): (r: string)
    ensures |r| <= |s| && r == s[..|r|]
    ensures forall k :: |r| <= k < |s| ==> IsSpace(s[k])
    ensures r != [] ==> !IsSpace(r[|r| - 1])
  {
    if s != [] && IsSpace(s[|s| - 1]) then StripRight(s[..|s| - 1]) else s
  }

  /** `s.strip()`: a contiguous piece of `s` that neither starts nor ends with white space. */
  function Strip(s: string): (r: string)
    ensures r != [] ==> !IsSpace(r[0]) && !IsSpace(r[|r| - 1])
    ensures |r| <= |s|
  {
    StripRight(StripLeft(s))
  }

  lemma {:induction false} StripLeftPadded(a: string, s: string)
    requires AllSpace(a)
    ensures StripLeft(a + s) == StripLeft(s)
  {
    if a != [] {
      assert (a + s)[1..] == a[1..] + s;
      StripLeftPadded(a[1..], s);
    } else {
      assert a + s == s;
    }
  }

  lemma {:induction false} StripRightPadded(s: string, c: string)
    requires AllSpace(c)
    ensures StripRight(s + c) == StripRight(s)
  {
    if c != [] {
      var n := |c|;
      assert (s + c)[..|s + c| - 1] == s + c[..n - 1];
      StripRightPadded(s, c[..n - 1]);
    } else {
      assert s + c == s;
    }
  }

  lemma {:induction false} StripLeftAppend(s: string, c: string)
    requires AllSpace(c)
    ensures StripLeft(s) != [] ==> StripLeft(s + c) == StripLeft(s) + c
    ensures StripLeft(s) == [] ==> StripLeft(s + c) == []
  {
    if s == [] {
      assert s + c == c;
      StripLeftPadded(c, []);
      assert c + [] == c;
    } else if IsSpace(s[0]) {
      assert (s + c)[1..] == s[1..] + c;
      StripLeftAppend(s[1..], c);
    } else {
      assert (s + c)[0] == s[0];
    }
  }

  /** White space around a value never changes what `strip()` yields. */
  lemma StripIgnoresPadding(a: string, s: string, c: string)
    requires AllSpace(a) && AllSpace(c)
    ensures Strip(a + s + c) == Strip(s)
  {
    assert a + s + c == a + (s + c);
    StripLeftPadded(a, s + c);
    assert Strip(a + s + c) == StripRight(StripLeft(s + c));
    StripLeftAppend(s, c);
    if StripLeft(s) != [] {
      StripRightPadded(StripLeft(s), c);
      assert StripRight(StripLeft(s + c)) == StripRight(StripLeft(s) + c) == Strip(s);
    } else {
      assert StripLeft(s + c) == [];
    }
  }

  /** `strip()` cuts a string into white space, the stripped value and white space. */
  lemma StripSplits(s: string) returns (a: string, c: string)
    ensures s == a + Strip(s) + c && AllSpace(a) && AllSpace(c)
  {
    var l := StripLeft(s);
    var w := StripRight(l);
    a, c := s[..|s| - |l|], l[|w|..];
    Regroup(s, l, w);
  }

  /** A suffix `l` of `s` and a prefix `w` of `l` cut `s` in three. */
  lemma Regroup(s: string, l: string, w: string)
    requires |l| <= |s| && l == s[|s| - |l|..]
    requires |w| <= |l| && w == l[..|w|]
    ensures s == s[..|s| - |l|] + w + l[|w|..]
  {
    assert l == w + l[|w|..];
    assert s == s[..|s| - |l|] + l;
  }

  /** A string that neither starts nor ends with white space is its own `strip()`. */
  lemma StripUnpadded(s: string)
    requires s != [] && !IsSpace(s[0]) && !IsSpace(s[|s| - 1])
    ensures Strip(s) == s
  {
    assert StripLeft(s) == s;
  }

  /** The ASCII case mapping of `str.lower()`. */
  function LowerChar(c: char): char {
    if 'A' <= c <= 'Z' then (c as int + 32) as char else c
  }

  function Lower(s: string): (r: string)
    ensures |r| == |s|
  {
    seq(|s|, i requires 0 <= i < |s| => LowerChar(s[i]))
  }

  lemma LowerIdempotent(s: string)
    ensures Lower(Lower(s)) == Lower(s)
  {
    var l := Lower(s);
    assert forall i :: 0 <= i < |s| ==> Lower(l)[i] == LowerChar(LowerChar(s[i])) == l[i];
  }

  lemma {:induction false} LowerStripCommute(s: string)
    ensures Lower(Strip(s)) == Strip(Lower(s))
  {
    LowerStripLeft(s);
    LowerStripRight(StripLeft(s));
  }

  lemma {:induction false} LowerStripLeft(s: string)
    ensures Lower(StripLeft(s)) == StripLeft(Lower(s))
  {
    if s != [] {
      assert Lower(s)[1..] == Lower(s[1..]);
      assert IsSpace(Lower(s)[0]) == IsSpace(s[0]);
      if IsSpace(s[0]) {
        LowerStripLeft(s[1..]);
      }
    }
  }

  lemma {:induction false} LowerStripRight(s: string)
    ensures Lower(StripRight(s)) == StripRight(Lower(s))
  {
    if s != [] {
      var n := |s|;
      assert Lower(s)[..n - 1] == Lower(s[..n - 1]);
      assert IsSpace(Lower(s)[n - 1]) == IsSpace(s[n - 1]);
      if IsSpace(s[n - 1]) {
        LowerStripRight(s[..n - 1]);
      }
    }
  }

  predicate StartsWith(s: string, prefix: string) {
    |prefix| <= |s| && s[..|prefix|] == prefix
  }

  predicate EndsWith(s: string, suffix: string) {
    |suffix| <= |s| && s[|s| - |suffix|..] == suffix
  }

  /** `s.rstrip(c)` for a single character `c`. */
  function RightTrimChar(s: string, c: char): (r: string)
    ensures |r| <= |s| && r == s[..|r|]
    ensures forall k :: |r| <= k < |s| ==> s[k] == c
    ensures r == [] || r[|r| - 1] != c
  {
    if s != [] && s[|s| - 1] == c then RightTrimChar(s[..|s| - 1], c) else s
  }

  /** `sep.join(parts)` */
  function Join(parts: seq<string>, sep: string): string
  {
    if |parts| == 0 then ""
    else if |parts| == 1 then parts[0]
    else Join(parts[..|parts| - 1], sep) + sep + parts[|parts| - 1]
  }

  /** Joining a list with one more item appends the separator and the item. */
  lemma JoinSnoc(parts: seq<string>, p: string, sep: string)
    ensures Join(parts + [p], sep) == if parts == [] then p else Join(parts, sep) + sep + p
  {
    assert (parts + [p])[..|parts|] == parts;
  }

  /** `sep.join(a + b)` is the two joins glued by `sep`, unless one side is empty. */
  lemma {:induction false} JoinAppend(a: seq<string>, b: seq<string>, sep: string)
    ensures Join(a + b, sep) ==
      if a == [] then Join(b, sep)
      else if b == [] then Join(a, sep)
      else Join(a, sep) + sep + Join(b, sep)
  {
    if b == [] {
      assert a + b == a;
    } else if a == [] {
      assert a + b == b;
    } else {
      var n := |b|;
      var b' := b[..n - 1];
      assert a + b == (a + b') + [b[n - 1]];
      assert b == b' + [b[n - 1]];
      JoinSnoc(a + b', b[n - 1], sep);
      JoinSnoc(b', b[n - 1], sep);
      JoinAppend(a, b', sep);
    }
  }

  function DigitChar(d: nat): char
    requires d < 10
  {
    "0123456789"[d]
  }

  function NatToDecimal(n: nat): (r: string)
    ensures |r| >= 1
    decreases n
  {
    if n < 10 then [DigitChar(n)] else NatToDecimal(n / 10) + [DigitChar(n % 10)]
  }

  /** `str(n)` for an integer */
  function IntToDecimal(n: int): (r: string)
    ensures r != []
  {
    if n < 0 then "-" + NatToDecimal(-n) else NatToDecimal(n)
  }
}
