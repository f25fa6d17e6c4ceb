/** Printing a reverie's name with its nonce, and reading it back with the regular expression
    `([a-zA-Z0-9-._]*)-([a-zA-Z0-9-._]*)`, which may match anywhere in the text. */
module ReverieNames {
  import opened Types

  const USIZE_RANGE: nat := 0x1_0000_0000_0000_0000

  predicate InAlphabet(c: char) {
    'a' <= c <= 'z' || 'A' <= c <= 'Z' || '0' <= c <= '9' || c == '-' || c == '.' || c == '_'
  }

  predicate AllInAlphabet(s: string) {
    forall i :: 0 <= i < |s| ==> InAlphabet(s[i])
  }

  // ---------------------------------------------------------------- decimals

  predicate IsDigit(c: char) {
    '0' <= c <= '9'
  }

  function Decimal(n: nat): (s: string)
    ensures s != [] && forall i :: 0 <= i < |s| ==> IsDigit(s[i])
  {
    (if n < 10 then [] else Decimal(n / 10)) + ["0123456789"[n % 10]]
  }

  function DigitsValue(s: string): Option<nat> {
    if s == [] then Some(0)
    else
      var c := s[|s| - 1];
      match DigitsValue(s[..|s| - 1])
      case Some(n) => if IsDigit(c) then Some(10 * n + (c as int - '0' as int)) else None
      case None => None
  }

  /** `None` where the program panics. */
  function ParseUsize(s: string): Option<nat> {
    if s == [] then None
    else
      match DigitsValue(s)
      case Some(n) => if n < USIZE_RANGE then Some(n) else None
      case None => None
  }

  lemma {:induction false} DecimalRoundTrip(n: nat)
    ensures DigitsValue(Decimal(n)) == Some(n)
    ensures n < USIZE_RANGE ==> ParseUsize(Decimal(n)) == Some(n)
  {
    var s := Decimal(n);
    if n < 10 {
      assert s[..0] == [];
    } else {
      DecimalRoundTrip(n / 10);
      assert s[..|s| - 1] == Decimal(n / 10);
    }
  }

  // ---------------------------------------------------------------- the regular expression

  /** A match: the first group is `s[start..hyphen]`, the second `s[hyphen + 1..end]`. */
  datatype Capture = Capture(start: nat, hyphen: nat, end: nat)

  ghost predicate Matches(s: string, c: Capture) {
    && c.start <= c.hyphen < c.end <= |s| && s[c.hyphen] == '-'
    && forall i :: c.start <= i < c.end ==> InAlphabet(s[i])
  }

  /** Matches are sought leftmost first, and each group takes as much as it can. */
  ghost predicate Preferred(c: Capture, d: Capture) {
    || c.start < d.start
    || (c.start == d.start && c.hyphen > d.hyphen)
    || (c.start == d.start && c.hyphen == d.hyphen && c.end >= d.end)
  }

  ghost predicate IsMatchFound(s: string, c: Capture) {
    Matches(s, c) && forall d :: Matches(s, d) ==> Preferred(c, d)
  }

  function RunEnd(s: string, i: nat): (end: nat)
    requires i <= |s|
    ensures i <= end <= |s| && (forall k :: i <= k < end ==> InAlphabet(s[k]))
    ensures end < |s| ==> !InAlphabet(s[end])
    decreases |s| - i
  {
    if i < |s| && InAlphabet(s[i]) then RunEnd(s, i + 1) else i
  }

  function LastHyphen(s: string, from: nat, end: nat): (r: Option<nat>)
    requires from <= end <= |s|
    ensures r.Some? ==> from <= r.value < end && s[r.value] == '-' && forall k :: r.value < k < end ==> s[k] != '-'
    ensures r.None? ==> forall k :: from <= k < end ==> s[k] != '-'
  {
    if from == end then None
    else if s[end - 1] == '-' then Some(end - 1)
    else LastHyphen(s, from, end - 1)
  }

  function Find(s: string, from: nat): (r: Option<Capture>)
    requires from <= |s|
    ensures r.Some? ==> Matches(s, r.value) && r.value.start >= from
    ensures r.Some? ==> forall d: Capture :: Matches(s, d) && d.start >= from ==> Preferred(r.value, d)
    ensures r.None? ==> forall d: Capture :: Matches(s, d) ==> d.start < from
    decreases |s| - from
  {
    var end := RunEnd(s, from);
    var hyphen := LastHyphen(s, from, end);
    assert forall d: Capture :: Matches(s, d) && d.start == from ==> d.end <= end && hyphen.Some?
                                                                     && d.hyphen <= hyphen.value;
    if hyphen.Some? then Some(Capture(from, hyphen.value, end))
    else if from == |s| then None
    else Find(s, from + 1)
  }

  /** `None` where the program panics on a nonce that is no number or too large. */
  function FromString(s: string): Option<ReverieName> {
    match Find(s, 0)
    case None => Some(ReverieName("", 0))
    case Some(c) =>
      match ParseUsize(s[c.hyphen + 1..c.end])
      case None => None
      case Some(nonce) => Some(ReverieName(s[c.start..c.hyphen], nonce))
  }

  function ToString(name: ReverieName): string {
    name.name + "-" + Decimal(name.nonce)
  }

  /** The search agrees with the preference rules, and at most one match satisfies them. */
  lemma FindIsTheMatch(s: string, c: Capture)
    ensures Find(s, 0) == Some(c) <==> IsMatchFound(s, c)
    ensures Find(s, 0) == None <==> forall d :: !Matches(s, d)
  {
    var found := Find(s, 0);
    if IsMatchFound(s, c) {
      assert found.Some?;
      assert Preferred(c, found.value) && Preferred(found.value, c);
    }
  }

  lemma AlphabetIs(c: char)
    ensures InAlphabet(c)
       <==> c in {'a', 'b', 'c', 'd', 'e', 'f', 'g', 'h', 'i', 'j', 'k', 'l', 'm',
                  'n', 'o', 'p', 'q', 'r', 's', 't', 'u', 'v', 'w', 'x', 'y', 'z',
                  'A', 'B', 'C', 'D', 'E', 'F', 'G', 'H', 'I', 'J', 'K', 'L', 'M',
                  'N', 'O', 'P', 'Q', 'R', 'S', 'T', 'U', 'V', 'W', 'X', 'Y', 'Z',
                  '0', '1', '2', '3', '4', '5', '6', '7', '8', '9',
                  '-', '.', '_'}
  {
  }

  /** What is read from a text with a match is the name before the hyphen and the number after it,
      if there is one. */
  lemma ReadsItsMatch(s: string, c: Capture)
    requires IsMatchFound(s, c)
    ensures FromString(s) == match ParseUsize(s[c.hyphen + 1..c.end])
                             case Some(nonce) => Some(ReverieName(s[c.start..c.hyphen], nonce))
                             case None => None
  {
    assert Find(s, 0) == Some(c) by {
      FindIsTheMatch(s, c);
    }
  }

  /** A text without a match reads as the empty name with nonce zero. */
  lemma NoMatchReadsEmpty(s: string)
    requires forall d :: !Matches(s, d)
    ensures FromString(s) == Some(ReverieName("", 0))
  {
    assert Find(s, 0) == None by {
      FindIsTheMatch(s, Capture(0, 0, 0));
    }
  }

  function Zeros(k: nat): string {
    seq(k, _ => '0')
  }

  /** The decimal digits of n, with k zeros before them. */
  predicate IsNumeral(s: string, k: nat, n: nat) {
    s == Zeros(k) + Decimal(n)
  }

  lemma {:induction false} HasValueIff(s: string)
    ensures DigitsValue(s).Some? <==> forall i :: 0 <= i < |s| ==> IsDigit(s[i])
    decreases |s|
  {
    if s != "" {
      HasValueIff(s[..|s| - 1]);
    }
  }

  /** The digits in front of the last one, and what they are worth. */
  lemma LastDigit(s: string, n: nat) returns (front: string, m: nat, last: char)
    requires s != "" && DigitsValue(s) == Some(n)
    ensures s == front + [last] && DigitsValue(front) == Some(m) && IsDigit(last)
    ensures n == 10 * m + (last as int - '0' as int)
  {
    front, last := s[..|s| - 1], s[|s| - 1];
    m := DigitsValue(front).value;
  }

  lemma {:induction false} ValueIsDecimal(s: string, n: nat)
    requires s != "" && DigitsValue(s) == Some(n)
    ensures exists k: nat :: IsNumeral(s, k, n)
    decreases |s|
  {
    var front, m, last := LastDigit(s, n);
    if front == "" {
      OneDigit(last);
      assert IsNumeral(s, 0, n);
    } else {
      ValueIsDecimal(front, m);
      var k: nat :| IsNumeral(front, k, m);
      OneMoreDigit(front, k, m, last, s, n);
    }
  }

  lemma OneDigit(c: char)
    requires IsDigit(c)
    ensures Decimal(c as int - '0' as int) == [c]
  {
    var d := c as int - '0' as int;
    assert "0123456789"[d] == ('0' as int + d) as char;
  }

  lemma OneMoreDigit(front: string, k: nat, n: nat, last: char, s: string, value: nat)
    requires IsNumeral(front, k, n) && IsDigit(last)
    requires s == front + [last] && value == 10 * n + (last as int - '0' as int)
    ensures IsNumeral(s, if n == 0 then k + 1 else k, value)
  {
    OneDigit(last);
    if n == 0 {
      OneDigit('0');
      assert Zeros(k + 1) == Zeros(k) + ['0'];
    } else {
      DecimalOneMore(n, last as int - '0' as int);
    }
  }

  lemma DecimalOneMore(n: nat, d: nat)
    requires n > 0 && d < 10
    ensures Decimal(10 * n + d) == Decimal(n) + Decimal(d)
  {
    assert (10 * n + d) / 10 == n && (10 * n + d) % 10 == d;
  }

  /** A number is read exactly from its decimal digits, with any zeros before them, if it fits a
      machine word. */
  lemma ParseUsizeIff(s: string, n: nat)
    ensures ParseUsize(s) == Some(n) <==> n < 0x1_0000_0000_0000_0000 && exists k: nat :: IsNumeral(s, k, n)
  {
    if s != "" && DigitsValue(s) == Some(n) {
      ValueIsDecimal(s, n);
    }
    if k: nat :| IsNumeral(s, k, n) {
      NumeralHasValue(s, k, n);
    }
  }

  lemma ValueOneMore(front: string, m: nat, last: char)
    requires DigitsValue(front) == Some(m) && IsDigit(last)
    ensures DigitsValue(front + [last]) == Some(10 * m + (last as int - '0' as int))
  {
    assert (front + [last])[..|front|] == front;
  }

  /** A numeral without its last digit is one again, or only zeros. */
  lemma NumeralFront(s: string, k: nat, n: nat) returns (front: string, last: char)
    requires IsNumeral(s, k, n)
    ensures s == front + [last] && IsDigit(last) && last as int - '0' as int == n % 10
    ensures if n < 10 then front == Zeros(k) else IsNumeral(front, k, n / 10)
  {
    last := ('0' as int + n % 10) as char;
    OneDigit(last);
    if n < 10 {
      front := Zeros(k);
    } else {
      front := Zeros(k) + Decimal(n / 10);
      DecimalOneMore(n / 10, n % 10);
      Regroup(Zeros(k), Decimal(n / 10), [last]);
    }
  }

  lemma {:induction false} NumeralHasValue(s: string, k: nat, n: nat)
    requires IsNumeral(s, k, n)
    ensures DigitsValue(s) == Some(n)
    decreases n
  {
    var front, last := NumeralFront(s, k, n);
    if n < 10 {
      ZerosAreZero(k);
      ValueOneMore(front, 0, last);
    } else {
      NumeralHasValue(front, k, n / 10);
      ValueOneMore(front, n / 10, last);
    }
  }

  lemma {:induction false} ZerosAreZero(k: nat)
    ensures DigitsValue(Zeros(k)) == Some(0)
  {
    if k > 0 {
      ZerosAreZero(k - 1);
      assert Zeros(k)[..k - 1] == Zeros(k - 1);
    }
  }

  // ---------------------------------------------------------------- round trips

  /** A printed name ends in its last hyphen and the digits after it. */
  lemma LastHyphenOfPrinted(name: ReverieName)
    ensures
      var s, n := ToString(name), |name.name|;
      |s| == n + 1 + |Decimal(name.nonce)| && s[..n] == name.name && s[n] == '-' && s[n + 1..] == Decimal(name.nonce)
    ensures forall i :: |name.name| < i < |ToString(name)| ==> IsDigit(ToString(name)[i])
  {
    var s, n := ToString(name), |name.name|;
    assert s[n + 1..] == Decimal(name.nonce);
    assert forall i :: n < i < |s| ==> s[i] == s[n + 1..][i - n - 1];
  }

  /** Whatever the text, a name read from it uses the alphabet alone. */
  lemma NamesReadAreInAlphabet(s: string)
    ensures FromString(s).Some? ==> AllInAlphabet(FromString(s).value.name) && FromString(s).value.nonce < USIZE_RANGE
  {
    var found := Find(s, 0);
    if found.Some? {
      var name := s[found.value.start..found.value.hyphen];
      assert forall i :: 0 <= i < |name| ==> name[i] == s[found.value.start + i];
    }
  }

  /** A name comes back from its printed form exactly when the alphabet covers it and the nonce
      fits a machine word. */
  lemma NameRoundTripIff(name: ReverieName)
    ensures FromString(ToString(name)) == Some(name)
       <==> AllInAlphabet(name.name) && name.nonce < 0x1_0000_0000_0000_0000
  {
    if AllInAlphabet(name.name) {
      WholeIsMatch(name);
      ReadsItsMatch(ToString(name), Capture(0, |name.name|, |ToString(name)|));
      LastHyphenOfPrinted(name);
      DecimalRoundTrip(name.nonce);
      var s, n := ToString(name), |name.name|;
      assert s[0..n] == s[..n] && s[n + 1..|s|] == s[n + 1..];
    } else {
      NamesReadAreInAlphabet(ToString(name));
    }
  }

  lemma WholeIsMatch(name: ReverieName)
    requires AllInAlphabet(name.name)
    ensures IsMatchFound(ToString(name), Capture(0, |name.name|, |ToString(name)|))
  {
    var s, n := ToString(name), |name.name|;
    LastHyphenOfPrinted(name);
    assert forall i :: 0 <= i < n ==> s[i] == s[..n][i];
    assert Matches(s, Capture(0, n, |s|));
    assert forall i :: n < i < |s| ==> IsDigit(s[i]) && s[i] != '-';
  }

  /** Different names with nonces never print alike, whatever characters they use. */
  lemma PrintedNamesDiffer(a: ReverieName, b: ReverieName)
    ensures ToString(a) == ToString(b) <==> a == b
  {
    LastHyphenOfPrinted(a);
    LastHyphenOfPrinted(b);
    DecimalRoundTrip(a.nonce);
    DecimalRoundTrip(b.nonce);
    if ToString(a) == ToString(b) {
      var s := ToString(a);
      assert |a.name| == |b.name|;
      assert Decimal(a.nonce) == s[|a.name| + 1..] == Decimal(b.nonce);
    }
  }
}
