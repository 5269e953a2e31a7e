/** The two JavaScript string built-ins the quizzes rely on, over `seq<char>`:
    `String.prototype.trim` (recall answers) and `parseInt` in base 10
    (calculation answers). Both scan the string by index. */
module JsText {
  import opened Optional

  /** The whitespace this model strips: space, tab, line feed, carriage return,
      vertical tab, form feed and the no-break space. */
  predicate IsSpace(c: char) {
    c == ' ' || c == '\t' || c == '\n' || c == '\r' ||
    c == '\U{000B}' || c == '\U{000C}' || c == '\U{00A0}'
  }

  predicate AllSpace(s: string) {
    forall i :: 0 <= i < |s| ==> IsSpace(s[i])
  }

  /** The first position at or after `i` that is not whitespace (|s| if none). */
  function SkipSpace(s: string, i: nat): (j: nat)
    requires i <= |s|
    ensures i <= j <= |s|
    ensures j < |s| ==> !IsSpace(s[j])
    ensures forall k :: i <= k < j ==> IsSpace(s[k])
    decreases |s| - i
  {
    if i < |s| && IsSpace(s[i]) then SkipSpace(s, i + 1) else i
  }

  /** Moving back from `j`, but not below `lo`, past trailing whitespace. */
  function SkipSpaceBack(s: string, lo: nat, j: nat): (i: nat)
    requires lo <= j <= |s|
    ensures lo <= i <= j
    ensures i > lo ==> !IsSpace(s[i - 1])
    ensures forall k :: i <= k < j ==> IsSpace(s[k])
    decreases j
  {
    if j > lo && IsSpace(s[j - 1]) then SkipSpaceBack(s, lo, j - 1) else j
  }

  /** `String.prototype.trim`: the slice between the leading and the trailing
      whitespace. Neither end of it is whitespace, and only whitespace is cut. */
  function Trim(s: string): (r: string)
    ensures |r| <= |s|
    ensures r != [] ==> !IsSpace(r[0]) && !IsSpace(r[|r| - 1])
  {
    var i := SkipSpace(s, 0);
    s[i..SkipSpaceBack(s, i, |s|)]
  }

  /** SkipSpace stops exactly at the first position that is not whitespace. */
  lemma {:induction false} SkipSpaceTo(s: string, i: nat, m: nat)
    requires i <= m <= |s|
    requires forall k :: i <= k < m ==> IsSpace(s[k])
    requires m < |s| ==> !IsSpace(s[m])
    ensures SkipSpace(s, i) == m
    decreases m - i
  {
    if i < m {
      SkipSpaceTo(s, i + 1, m);
    }
  }

  /** SkipSpaceBack stops exactly after the last position that is not whitespace. */
  lemma {:induction false} SkipSpaceBackTo(s: string, lo: nat, j: nat, m: nat)
    requires lo <= m <= j <= |s|
    requires forall k :: m <= k < j ==> IsSpace(s[k])
    requires m > lo ==> !IsSpace(s[m - 1])
    ensures SkipSpaceBack(s, lo, j) == m
    decreases j - m
  {
    if m < j {
      SkipSpaceBackTo(s, lo, j - 1, m);
    }
  }

  /** Trim recovers the core of any whitespace-padded string: every string is
      `pre + core + post` with `pre` and `post` whitespace and `core` neither
      starting nor ending with whitespace, and `trim` returns exactly that core. */
  lemma TrimPadded(pre: string, core: string, post: string)
    requires AllSpace(pre) && AllSpace(post)
    requires core != [] ==> !IsSpace(core[0]) && !IsSpace(core[|core| - 1])
    ensures Trim(pre + core + post) == core
  {
    var s := pre + core + post;
    var a, b := |pre|, |pre| + |core|;
    assert forall k :: 0 <= k < a ==> s[k] == pre[k];
    assert forall k :: b <= k < |s| ==> s[k] == post[k - b];
    if core == [] {
      SkipSpaceTo(s, 0, |s|);
    } else {
      assert s[a] == core[0] && s[b - 1] == core[|core| - 1];
      SkipSpaceTo(s, 0, a);
      SkipSpaceBackTo(s, a, |s|, b);
      assert s[a..b] == core;
    }
  }

  /** Trimming twice is trimming once. */
  lemma TrimIdempotent(s: string)
    ensures Trim(Trim(s)) == Trim(s)
  {
    var r := Trim(s);
    TrimPadded([], r, []);
    assert [] + r + [] == r;
  }

  predicate IsDigit(c: char) {
    '0' <= c <= '9'
  }

  predicate AllDigits(s: string) {
    forall i :: 0 <= i < |s| ==> IsDigit(s[i])
  }

  /** The end of the run of decimal digits that starts at `i`. */
  function DigitsEnd(s: string, i: nat): (j: nat)
    requires i <= |s|
    ensures i <= j <= |s|
    ensures forall k :: i <= k < j ==> IsDigit(s[k])
    ensures j < |s| ==> !IsDigit(s[j])
    decreases |s| - i
  {
    if i < |s| && IsDigit(s[i]) then DigitsEnd(s, i + 1) else i
  }

  /** The number the digits `s[d..e]` denote, most significant digit first. */
  function DigitsValue(s: string, d: nat, e: nat): nat
    requires d <= e <= |s|
    requires forall k :: d <= k < e ==> IsDigit(s[k])
    decreases e
  {
    if e == d then 0
    else
      assert IsDigit(s[e - 1]);
      10 * DigitsValue(s, d, e - 1) + (s[e - 1] as int - '0' as int)
  }

  /** `parseInt(s)` in base 10: leading whitespace is skipped, one optional sign is
      read, then the longest run of digits; anything after it is ignored, and no
      digit at all gives NaN (None). A blank answer never parses. */
  function ParseInt(s: string): (r: Option<int>)
    ensures AllSpace(s) ==> r == None
  {
    var i := SkipSpace(s, 0);
    var negative := i < |s| && s[i] == '-';
    var d := if i < |s| && (s[i] == '-' || s[i] == '+') then i + 1 else i;
    var e := DigitsEnd(s, d);
    if e == d then None
    else
      var magnitude: int := DigitsValue(s, d, e);
      Some(if negative then -magnitude else magnitude)
  }

  /** The decimal digits of a natural number, most significant first. */
  function Digits(m: nat): (ds: string)
    ensures ds != [] && AllDigits(ds)
  {
    if m < 10 then [(m + '0' as int) as char]
    else Digits(m / 10) + [(m % 10 + '0' as int) as char]
  }

  /** The decimal text of an integer, with a leading '-' when negative. */
  function Show(n: int): string {
    if n < 0 then "-" + Digits(-n) else Digits(n)
  }

  /** DigitsValue reads only the characters in its range. */
  lemma {:induction false} DigitsValueFrame(s: string, d: nat, e: nat, t: string, d2: nat)
    requires d <= e <= |s| && d2 + (e - d) <= |t|
    requires forall k :: d <= k < e ==> IsDigit(s[k])
    requires forall k :: d2 <= k < d2 + (e - d) ==> IsDigit(t[k])
    requires s[d..e] == t[d2..d2 + (e - d)]
    ensures DigitsValue(s, d, e) == DigitsValue(t, d2, d2 + (e - d))
    decreases e
  {
    if e > d {
      assert s[e - 1] == s[d..e][e - 1 - d] == t[d2 + (e - 1 - d)];
      assert s[d..e - 1] == s[d..e][..e - 1 - d];
      assert t[d2..d2 + (e - 1 - d)] == t[d2..d2 + (e - d)][..e - 1 - d];
      DigitsValueFrame(s, d, e - 1, t, d2);
    }
  }

  /** Reading back the digits of `m` gives `m`. */
  lemma {:induction false} DigitsValueOfDigits(m: nat)
    ensures DigitsValue(Digits(m), 0, |Digits(m)|) == m
  {
    if m >= 10 {
      var ds := Digits(m);
      var init := Digits(m / 10);
      assert |ds| == |init| + 1;
      DigitsValueOfDigits(m / 10);
      DigitsValueFrame(ds, 0, |init|, init, 0);
    }
  }

  /** DigitsEnd stops exactly at the first non-digit. */
  lemma {:induction false} DigitsEndTo(s: string, i: nat, m: nat)
    requires i <= m <= |s|
    requires forall k :: i <= k < m ==> IsDigit(s[k])
    requires m < |s| ==> !IsDigit(s[m])
    ensures DigitsEnd(s, i) == m
    decreases m - i
  {
    if i < m {
      DigitsEndTo(s, i + 1, m);
    }
  }

  /** `parseInt` reads back the decimal text of any integer, whatever non-digit
      text follows it (so "93" and "93.5" both read as 93). */
  lemma ParseIntShow(n: int, t: string)
    requires t == [] || !IsDigit(t[0])
    ensures ParseInt(Show(n) + t) == Some(n)
  {
    var m: nat := if n < 0 then -n else n;
    var ds := Digits(m);
    DigitsValueOfDigits(m);
    if n < 0 {
      assert Show(n) + t == ['-'] + ds + t;
      ParseIntDigitsAt(['-'], ds, t);
    } else {
      assert Show(n) + t == [] + ds + t;
      ParseIntDigitsAt([], ds, t);
    }
  }

  /** A run of digits after an optional minus sign and before a non-digit parses
      as the number the digits denote, with that sign. */
  lemma ParseIntDigitsAt(sign: string, ds: string, t: string)
    requires sign == [] || sign == ['-']
    requires ds != [] && AllDigits(ds)
    requires t == [] || !IsDigit(t[0])
    ensures ParseInt(sign + ds + t) == Some(if sign == [] then DigitsValue(ds, 0, |ds|) else 0 - DigitsValue(ds, 0, |ds|))
  {
    var s := sign + ds + t;
    var d := |sign|;
    var e := d + |ds|;
    assert s[d..e] == ds;
    forall k | d <= k < e
      ensures IsDigit(s[k])
    {
      assert s[k] == s[d..e][k - d];
    }
    assert e < |s| ==> s[e] == t[0];
    assert d == 1 ==> s[0] == '-';
    ParseIntAt(s, d, e);
    assert ds[0..|ds|] == ds;
    DigitsValueFrame(ds, 0, |ds|, s, d);
  }

  /** `parseInt` of a string whose digits occupy `s[d..e]`, right after an optional
      minus sign at position 0. */
  lemma ParseIntAt(s: string, d: nat, e: nat)
    requires d < e <= |s|
    requires d == 0 || (d == 1 && s[0] == '-')
    requires forall k :: d <= k < e ==> IsDigit(s[k])
    requires e < |s| ==> !IsDigit(s[e])
    ensures ParseInt(s) == Some(if d == 0 then DigitsValue(s, d, e) else 0 - DigitsValue(s, d, e))
  {
    SkipSpaceTo(s, 0, 0);
    DigitsEndTo(s, d, e);
  }
}
