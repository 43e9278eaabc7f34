/** The pieces of the .NET base library that the query binders and the
    commerce-role mapping rely on: `ToLower`, `Split`, `Distinct` and
    `int.TryParse`, each with the properties the callers depend on. */
module Text {
  import opened Wrappers

  /** `char.ToLower` on the ASCII letters; every other character is kept. */
  function LowerChar(c: char): (r: char)
    ensures 'A' <= c <= 'Z' ==> 'a' <= r <= 'z' && r as int - c as int == 32
    ensures !('A' <= c <= 'Z') ==> r == c
  {
    if 'A' <= c <= 'Z' then (c as int - 'A' as int + 'a' as int) as char else c
  }

  /** `string.ToLower`: the string with every character lower-cased, position by position. */
  function Lower(s: string): (r: string)
    ensures |r| == |s|
    ensures forall i :: 0 <= i < |s| ==> r[i] == LowerChar(s[i])
  {
    seq(|s|, i requires 0 <= i < |s| => LowerChar(s[i]))
  }

  lemma LowerMatches(s: string, lowered: string)
    requires |s| == |lowered| && forall i :: 0 <= i < |s| ==> LowerChar(s[i]) == lowered[i]
    ensures Lower(s) == lowered
  {
  }

  /** Case-insensitive string equality, as used by the `switch (key.ToLower())` dispatch. */
  predicate EqualsIgnoreCase(a: string, b: string)
  {
    Lower(a) == Lower(b)
  }

  /** Lower-casing a second time changes nothing. */
  lemma LowerIdempotent(s: string)
    ensures Lower(Lower(s)) == Lower(s)
  {
    assert forall i :: 0 <= i < |s| ==> LowerChar(LowerChar(s[i])) == LowerChar(s[i]);
  }

  // ---------------------------------------------------------------------------
  // string.Split(char)

  /** `s.Split(sep)` without options: empty parts are kept, so the result is
      never empty and an empty string splits into one empty part. */
  function Split(s: string, sep: char): (parts: seq<string>)
    ensures |parts| >= 1
    ensures forall i :: 0 <= i < |parts| ==> sep !in parts[i]
  {
    if s == [] then [[]]
    else
      var rest := Split(s[1..], sep);
      if s[0] == sep then [[]] + rest
      else [[s[0]] + rest[0]] + rest[1..]
  }

  /** `string.Join(sep, parts)`, the inverse of `Split`. */
  function Join(parts: seq<string>, sep: char): string
    requires |parts| >= 1
  {
    if |parts| == 1 then parts[0] else parts[0] + [sep] + Join(parts[1..], sep)
  }

  /** Number of occurrences of `c` in `s`. */
  function Occurrences(s: string, c: char): nat
  {
    if s == [] then 0 else (if s[0] == c then 1 else 0) + Occurrences(s[1..], c)
  }

  lemma {:induction false} JoinPrepend(parts: seq<string>, c: char, sep: char)
    requires |parts| >= 1
    ensures Join([[c] + parts[0]] + parts[1..], sep) == [c] + Join(parts, sep)
  {
    var ps := [[c] + parts[0]] + parts[1..];
    if |parts| > 1 {
      assert ps[1..] == parts[1..];
    }
  }

  /** Joining the parts of a split with the same separator gives back the string. */
  lemma {:induction false} JoinSplit(s: string, sep: char)
    ensures Join(Split(s, sep), sep) == s
  {
    if s != [] {
      var rest := Split(s[1..], sep);
      JoinSplit(s[1..], sep);
      if s[0] == sep {
        assert ([[]] + rest)[1..] == rest;
        assert s == [sep] + s[1..];
      } else {
        JoinPrepend(rest, s[0], sep);
        assert s == [s[0]] + s[1..];
      }
    }
  }

  /** A split has one more part than the string has separators. */
  lemma {:induction false} SplitLength(s: string, sep: char)
    ensures |Split(s, sep)| == Occurrences(s, sep) + 1
  {
    if s != [] {
      SplitLength(s[1..], sep);
    }
  }

  // ---------------------------------------------------------------------------
  // Enumerable.Distinct

  predicate NoDuplicates<T(==)>(xs: seq<T>)
  {
    forall i, j :: 0 <= i < j < |xs| ==> xs[i] != xs[j]
  }

  /** `xs.Distinct()`: the first occurrence of every element, in order. */
  function Distinct(xs: seq<string>): (r: seq<string>)
    ensures NoDuplicates(r)
    ensures forall x :: x in r <==> x in xs
  {
    if xs == [] then []
    else
      var init, last := xs[..|xs| - 1], xs[|xs| - 1];
      assert xs == init + [last];
      var d := Distinct(init);
      if last in d then d else d + [last]
  }

  /** Position of the first occurrence of `x` in `xs`. */
  function FirstIndex(xs: seq<string>, x: string): (k: nat)
    requires x in xs
    ensures k < |xs| && xs[k] == x && x !in xs[..k]
  {
    if xs[0] == x then 0
    else
      var k := 1 + FirstIndex(xs[1..], x);
      assert xs[..k] == [xs[0]] + xs[1..][..k - 1];
      k
  }

  lemma FirstIndexInPrefix(xs: seq<string>, n: nat, x: string)
    requires n <= |xs| && x in xs[..n]
    ensures FirstIndex(xs, x) == FirstIndex(xs[..n], x)
  {
    var f, g := FirstIndex(xs, x), FirstIndex(xs[..n], x);
    assert xs[g] == x;
  }

  lemma FirstIndexOfNewLast(xs: seq<string>)
    requires xs != [] && xs[|xs| - 1] !in xs[..|xs| - 1]
    ensures FirstIndex(xs, xs[|xs| - 1]) == |xs| - 1
  {
  }

  /** `Distinct` keeps the elements in the order of their first occurrence. */
  lemma {:induction false} DistinctKeepsFirstOccurrenceOrder(xs: seq<string>, i: nat, j: nat)
    requires i < j < |Distinct(xs)|
    ensures FirstIndex(xs, Distinct(xs)[i]) < FirstIndex(xs, Distinct(xs)[j])
  {
    var init, last := xs[..|xs| - 1], xs[|xs| - 1];
    assert xs[..|xs| - 1] == init;
    var d := Distinct(init);
    var r := Distinct(xs);
    assert r[i] in d;
    FirstIndexInPrefix(xs, |xs| - 1, r[i]);
    if j < |d| {
      assert r[j] == d[j] && r[i] == d[i];
      DistinctKeepsFirstOccurrenceOrder(init, i, j);
      FirstIndexInPrefix(xs, |xs| - 1, r[j]);
    } else {
      assert r[j] == last;
      FirstIndexOfNewLast(xs);
    }
  }

  /** A sequence without duplicates is its own `Distinct`. */
  lemma {:induction false} DistinctOfDistinct(xs: seq<string>)
    requires NoDuplicates(xs)
    ensures Distinct(xs) == xs
  {
    if xs != [] {
      var init := xs[..|xs| - 1];
      DistinctOfDistinct(init);
      assert xs[|xs| - 1] !in init;
      assert xs == init + [xs[|xs| - 1]];
    }
  }

  // ---------------------------------------------------------------------------
  // int.TryParse

  const Int32Min: int := -0x8000_0000
  const Int32Max: int := 0x7fff_ffff

  predicate IsDigit(c: char)
  {
    '0' <= c <= '9'
  }

  predicate AllDigits(s: string)
  {
    forall i :: 0 <= i < |s| ==> IsDigit(s[i])
  }

  /** The value of a string of decimal digits, most significant first. */
  function DigitsValue(s: string): nat
    requires AllDigits(s)
  {
    if s == [] then 0 else DigitsValue(s[..|s| - 1]) * 10 + (s[|s| - 1] as int - '0' as int)
  }

  /** `int.TryParse`: an optional sign followed by at least one decimal digit,
      succeeding only when the value fits a 32-bit signed integer. */
  function ParseInt(s: string): (r: Option<int>)
    ensures r.Some? ==> Int32Min <= r.value <= Int32Max
    ensures r.Some? ==> s != [] && (IsDigit(s[0]) || s[0] == '-' || s[0] == '+')
    ensures r.Some? ==>
              && s != []
              && var d := if s[0] == '-' || s[0] == '+' then s[1..] else s;
                 && d != [] && AllDigits(d)
                 && r.value == (if s[0] == '-' then -(DigitsValue(d) as int) else DigitsValue(d))
    ensures (var d := if |s| > 0 && (s[0] == '-' || s[0] == '+') then s[1..] else s;
             && d != [] && AllDigits(d)
             && Int32Min <= (if s[0] == '-' then -(DigitsValue(d) as int) else DigitsValue(d)) <= Int32Max)
            ==> r.Some?
  {
    var signed := |s| > 0 && (s[0] == '-' || s[0] == '+');
    var digits := if signed then s[1..] else s;
    if digits == [] || !AllDigits(digits) then None
    else
      var magnitude: int := DigitsValue(digits);
      var n := if signed && s[0] == '-' then -magnitude else magnitude;
      if Int32Min <= n <= Int32Max then Some(n) else None
  }

  function DigitChar(d: nat): (c: char)
    requires d < 10
    ensures IsDigit(c) && c as int - '0' as int == d
  {
    ('0' as int + d) as char
  }

  /** Decimal rendering of a natural number, without sign or leading zeros. */
  function Format(n: nat): (s: string)
    ensures s != [] && AllDigits(s)
  {
    if n < 10 then [DigitChar(n)] else Format(n / 10) + [DigitChar(n % 10)]
  }

  lemma {:induction false} DigitsValueFormat(n: nat)
    ensures DigitsValue(Format(n)) == n
  {
    if n >= 10 {
      DigitsValueFormat(n / 10);
      var s := Format(n);
      assert s[..|s| - 1] == Format(n / 10);
    }
  }

  /** Parsing the decimal rendering of an in-range natural number gives it back. */
  lemma ParseFormat(n: nat)
    requires n <= Int32Max
    ensures ParseInt(Format(n)) == Some(n)
  {
    DigitsValueFormat(n);
    assert IsDigit(Format(n)[0]);
  }

  /** A minus sign before the decimal rendering of n, with n up to 2^31, parses to -n. */
  lemma ParseFormatNegative(n: nat)
    requires 1 <= n <= Int32Max + 1
    ensures ParseInt("-" + Format(n)) == Some(-(n as int))
  {
    DigitsValueFormat(n);
    assert ("-" + Format(n))[1..] == Format(n);
  }

  /** No rendering beyond the 32-bit range parses, with or without a minus sign
      (the sign admits exactly one more value, -2^31). */
  lemma ParseRejectsOutOfRange(n: nat)
    requires n > Int32Max
    ensures ParseInt(Format(n)) == None
    ensures n > Int32Max + 1 ==> ParseInt("-" + Format(n)) == None
  {
    DigitsValueFormat(n);
    assert IsDigit(Format(n)[0]);
    assert ("-" + Format(n))[1..] == Format(n);
  }

  /** A leading plus sign and leading zeros are accepted: "+7" and "007" both parse to 7. */
  lemma ParseAcceptsPlusAndLeadingZeros()
    ensures ParseInt("+7") == Some(7)
    ensures ParseInt("007") == Some(7)
  {
    assert AllDigits("7") && DigitsValue("7") == 7;
    assert "+7"[1..] == "7";
    assert "007"[..2] == "00" && "00"[..1] == "0";
  }

  /** A character that is neither a digit nor a leading sign makes the whole string
      unparsable, and so does a sign without digits. */
  lemma ParseRejectsNonDigit(s: string, i: nat)
    requires i < |s| && !IsDigit(s[i]) && (i > 0 || (s[i] != '-' && s[i] != '+'))
    ensures ParseInt(s) == None
  {
  }

  lemma ParseRejectsBareSign()
    ensures ParseInt("") == None && ParseInt("-") == None && ParseInt("+") == None
  {
  }
}
