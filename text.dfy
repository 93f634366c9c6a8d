/** The few pieces of Python string handling the model relies on: `str()` of
    an integer, `int()` of a string, `lower()`, `strip(chars)`, `split(sep)`
    and `sep.join(parts)`. Strings are sequences of Unicode characters, as in
    Python 3. */
module Text {
  import opened Wrappers

  predicate IsDigit(c: char) { '0' <= c <= '9' }

  function DigitChar(d: nat): (c: char)
    requires d < 10
    ensures IsDigit(c) && DigitValue(c) == d
  {
    '0' + d as char
  }

  function DigitValue(c: char): (d: nat)
    requires IsDigit(c)
    ensures d < 10
  {
    (c - '0') as nat
  }

  predicate AllDigits(s: string) { forall i :: 0 <= i < |s| ==> IsDigit(s[i]) }

  /** `str(n)` for a non-negative integer: decimal, no leading zeros. */
  function NatToString(n: nat): (s: string)
    ensures |s| >= 1 && AllDigits(s)
    ensures s[0] == '0' ==> n == 0
    ensures n == 0 ==> |s| == 1 && s[0] == '0'
    ensures s[0] == '0' ==> |s| == 1
  {
    if n < 10 then [DigitChar(n)] else NatToString(n / 10) + [DigitChar(n % 10)]
  }

  /** `str(i)` for any integer. */
  function IntToString(i: int): (s: string)
    ensures |s| >= 1
    ensures i < 0 <==> s[0] == '-'
  {
    if i < 0 then "-" + NatToString(-i) else NatToString(i)
  }

  /** The number a string of decimal digits denotes. */
  function DigitsValue(s: string): nat
    requires AllDigits(s)
  {
    if s == [] then 0 else 10 * DigitsValue(s[..|s| - 1]) + DigitValue(s[|s| - 1])
  }

  lemma {:induction false} DigitsValueOfNatToString(n: nat)
    ensures DigitsValue(NatToString(n)) == n
  {
    var s := NatToString(n);
    if n >= 10 {
      DigitsValueOfNatToString(n / 10);
      assert s[..|s| - 1] == NatToString(n / 10);
    }
  }

  /** `int(s)` restricted to an optional sign followed by ASCII digits;
      anything else raises ValueError in Python and is `None` here. */
  function ParseInt(s: string): (r: Option<int>)
    ensures r.Some? <==> (|s| >= 1 && AllDigits(s)) || (|s| >= 2 && (s[0] == '+' || s[0] == '-') && AllDigits(s[1..]))
    ensures r.Some? && AllDigits(s) ==> r.value == DigitsValue(s)
    ensures r.Some? && s[0] != '-' ==> r.value >= 0
  {
    if |s| >= 2 && (s[0] == '-' || s[0] == '+') && AllDigits(s[1..]) then
      var v: int := DigitsValue(s[1..]);
      Some(if s[0] == '-' then -v else v)
    else if |s| >= 1 && AllDigits(s) then
      Some(DigitsValue(s))
    else
      None
  }

  /** `int(str(i)) == i`. */
  lemma IntToStringRoundTrip(i: int)
    ensures ParseInt(IntToString(i)) == Some(i)
  {
    var s := IntToString(i);
    if i < 0 {
      var n := NatToString(-i);
      DigitsValueOfNatToString(-i);
      assert s == "-" + n && s[1..] == n;
      assert |s| >= 2 && s[0] == '-' && AllDigits(s[1..]);
    } else {
      DigitsValueOfNatToString(i);
      assert s == NatToString(i);
      assert !(s[0] == '-' || s[0] == '+');
    }
  }

  /** A number of `k + 1` decimal digits (between `10^k` and `10^(k+1) - 1`)
      renders as exactly `k + 1` characters. */
  lemma {:induction false} NatToStringLength(n: nat, k: nat)
    requires Power10(k) <= n < 10 * Power10(k)
    ensures |NatToString(n)| == k + 1
  {
    if k > 0 {
      assert Power10(k) == 10 * Power10(k - 1);
      NatToStringLength(n / 10, k - 1);
    } else {
      assert n < 10;
    }
  }

  function Power10(k: nat): (p: nat)
    ensures p >= 1
  {
    if k == 0 then 1 else 10 * Power10(k - 1)
  }

  /** `c.lower()` on ASCII letters; other characters are kept. */
  function LowerChar(c: char): (d: char)
    ensures 'A' <= c <= 'Z' ==> 'a' <= d <= 'z'
    ensures !('A' <= c <= 'Z') ==> d == c
  {
    if 'A' <= c <= 'Z' then c - 'A' + 'a' else c
  }

  /** `s.lower()` for ASCII text. */
  function Lower(s: string): (t: string)
    ensures |t| == |s|
    ensures forall i :: 0 <= i < |s| ==> t[i] == LowerChar(s[i])
  {
    seq(|s|, i requires 0 <= i < |s| => LowerChar(s[i]))
  }

  /** `s.lstrip(chars)`. */
  function StripLeft(s: string, chars: set<char>): (t: string)
    ensures |t| <= |s| && t == s[|s| - |t|..]
    ensures t != [] ==> t[0] !in chars
    ensures forall i :: 0 <= i < |s| - |t| ==> s[i] in chars
  {
    if s != [] && s[0] in chars then StripLeft(s[1..], chars) else s
  }

  /** `s.rstrip(chars)`. */
  function StripRight(s: string, chars: set<char>): (t: string)
    ensures |t| <= |s| && t == s[..|t|]
    ensures t != [] ==> t[|t| - 1] !in chars
    ensures forall i :: |t| <= i < |s| ==> s[i] in chars
  {
    if s != [] && s[|s| - 1] in chars then StripRight(s[..|s| - 1], chars) else s
  }

  /** One leading character from `chars` in front of a string that does
      not start with one is stripped, and nothing else. */
  lemma StripLeftOne(c: char, t: string, chars: set<char>)
    requires c in chars && (t == [] || t[0] !in chars)
    ensures StripLeft([c] + t, chars) == t
  {
    assert ([c] + t)[1..] == t;
  }

  /** The mirror image of `StripLeftOne` at the right end. */
  lemma StripRightOne(t: string, c: char, chars: set<char>)
    requires c in chars && (t == [] || t[|t| - 1] !in chars)
    ensures StripRight(t + [c], chars) == t
  {
    assert (t + [c])[..|t|] == t;
  }

  /** `s.strip(chars)`: every leading and every trailing character that is in
      `chars` is removed, nothing else is. */
  function Strip(s: string, chars: set<char>): (t: string)
    ensures exists i, j :: 0 <= i <= j <= |s| && t == s[i..j]
                           && (forall k :: 0 <= k < i ==> s[k] in chars)
                           && (forall k :: j <= k < |s| ==> s[k] in chars)
    ensures t != [] ==> t[0] !in chars && t[|t| - 1] !in chars
  {
    var l := StripLeft(s, chars);
    var t := StripRight(l, chars);
    StripCut(s, chars, l, t);
    t
  }

  /** A suffix of `s` after a run of `chars`, cut again before a run of
      `chars`, is a slice of `s` with only `chars` outside it. */
  lemma StripCut(s: string, chars: set<char>, l: string, t: string)
    requires |l| <= |s| && l == s[|s| - |l|..]
    requires forall k :: 0 <= k < |s| - |l| ==> s[k] in chars
    requires |t| <= |l| && t == l[..|t|]
    requires forall k :: |t| <= k < |l| ==> l[k] in chars
    ensures exists i, j :: 0 <= i <= j <= |s| && t == s[i..j]
                           && (forall k :: 0 <= k < i ==> s[k] in chars)
                           && (forall k :: j <= k < |s| ==> s[k] in chars)
  {
    var i := |s| - |l|;
    var j := i + |t|;
    assert t == s[i..j];
    forall k | j <= k < |s|
      ensures s[k] in chars
    {
      assert s[k] == l[k - i];
    }
  }

  /** `s.split(sep)` for a one-character separator: the pieces between
      occurrences of `sep`, keeping empty pieces. */
  function Split(s: string, sep: char): (parts: seq<string>)
    ensures |parts| >= 1
    ensures forall k :: 0 <= k < |parts| ==> sep !in parts[k]
  {
    if s == [] then [""]
    else
      var init := Split(s[..|s| - 1], sep);
      var c := s[|s| - 1];
      if c == sep then init + [""]
      else init[..|init| - 1] + [init[|init| - 1] + [c]]
  }

  /** `sep.join(parts)` for a non-empty list. */
  function Join(parts: seq<string>, sep: char): string
    requires |parts| >= 1
  {
    if |parts| == 1 then parts[0]
    else Join(parts[..|parts| - 1], sep) + [sep] + parts[|parts| - 1]
  }

  /** Joining the pieces of a split with the same separator gives back the
      string that was split. */
  lemma {:induction false} JoinSplit(s: string, sep: char)
    ensures Join(Split(s, sep), sep) == s
  {
    if s != [] {
      var s0 := s[..|s| - 1];
      var c := s[|s| - 1];
      var init := Split(s0, sep);
      JoinSplit(s0, sep);
      assert s == s0 + [c];
      if c == sep {
        JoinAppendEmpty(init, sep);
      } else {
        JoinExtendLast(init, sep, c);
      }
    }
  }

  /** A new empty last piece adds one separator. */
  lemma JoinAppendEmpty(parts: seq<string>, sep: char)
    requires |parts| >= 1
    ensures Join(parts + [""], sep) == Join(parts, sep) + [sep]
  {
    assert (parts + [""])[..|parts|] == parts;
  }

  /** A character added to the last piece is added at the end. */
  lemma JoinExtendLast(parts: seq<string>, sep: char, c: char)
    requires |parts| >= 1
    ensures Join(parts[..|parts| - 1] + [parts[|parts| - 1] + [c]], sep) == Join(parts, sep) + [c]
  {
    var last := parts[|parts| - 1];
    var ext := parts[..|parts| - 1] + [last + [c]];
    assert ext[..|ext| - 1] == parts[..|parts| - 1];
    if |parts| > 1 {
      assert Join(ext, sep) == Join(parts[..|parts| - 1], sep) + [sep] + (last + [c]);
    }
  }


  /** The number of times `c` occurs in `s`. */
  function Count(s: string, c: char): nat
  {
    if s == [] then 0 else Count(s[..|s| - 1], c) + (if s[|s| - 1] == c then 1 else 0)
  }

  /** A split yields one more piece than there are separators. */
  lemma {:induction false} SplitCount(s: string, sep: char)
    ensures |Split(s, sep)| == Count(s, sep) + 1
  {
    if s != [] {
      SplitCount(s[..|s| - 1], sep);
    }
  }
}
