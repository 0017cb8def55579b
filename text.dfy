/** Decimal numerals and whitespace splitting, as the programs produce and consume them:
    C++ `operator<<` on an `int` and Python `str()`/f-strings print the shortest decimal
    numeral with a leading '-' for negatives; Python `str.split()` with no argument cuts on
    runs of whitespace and drops empty pieces; Python `int()` reads an optionally signed
    run of digits. */
module Text {
  import opened Results

  predicate IsDigit(c: char) { '0' <= c <= '9' }

  predicate AllDigits(s: string) { forall i :: 0 <= i < |s| ==> IsDigit(s[i]) }

  function DigitChar(d: nat): (c: char)
    requires d < 10
    ensures IsDigit(c) && c as int - '0' as int == d
  {
    ('0' as int + d) as char
  }

  function DigitValue(c: char): nat
    requires IsDigit(c)
  {
    c as int - '0' as int
  }

  /** The shortest decimal numeral of n. */
  function NatText(n: nat): (s: string)
    ensures |s| > 0 && AllDigits(s)
    ensures s[0] == '0' ==> n == 0
    decreases n
  {
    if n < 10 then [DigitChar(n)] else NatText(n / 10) + [DigitChar(n % 10)]
  }

  /** The decimal numeral of an integer, '-' first when it is negative. */
  function IntText(n: int): (s: string)
    ensures |s| > 0 && (n < 0 <==> s[0] == '-')
    ensures forall i :: 0 < i < |s| ==> IsDigit(s[i])
  {
    if n < 0 then "-" + NatText(-n) else NatText(n)
  }

  /** The value of a numeral, most significant digit first. */
  function DigitsValue(s: string): nat
    requires AllDigits(s)
  {
    if s == [] then 0 else DigitsValue(s[..|s| - 1]) * 10 + DigitValue(s[|s| - 1])
  }

  lemma {:induction false} NatTextValue(n: nat)
    ensures DigitsValue(NatText(n)) == n
    decreases n
  {
    if n >= 10 {
      var s := NatText(n);
      assert s[..|s| - 1] == NatText(n / 10);
      NatTextValue(n / 10);
    }
  }

  /** Length of the longest run of digits at the start of s. */
  function DigitRun(s: string): (k: nat)
    ensures k <= |s| && AllDigits(s[..k])
    ensures k < |s| ==> !IsDigit(s[k])
  {
    if s == [] || !IsDigit(s[0]) then 0 else 1 + DigitRun(s[1..])
  }

  lemma {:induction false} DigitRunOfNumeral(d: string, rest: string)
    requires AllDigits(d)
    requires rest == [] || !IsDigit(rest[0])
    ensures DigitRun(d + rest) == |d|
    decreases |d|
  {
    if d == [] {
      assert d + rest == rest;
    } else {
      assert (d + rest)[1..] == d[1..] + rest;
      DigitRunOfNumeral(d[1..], rest);
    }
  }

  /** Reads a non-empty run of digits off the front of s, as a stream extractor does:
      the value and what follows it, or None when s does not start with a digit. */
  function ReadNat(s: string): Option<(nat, string)>
  {
    var k := DigitRun(s);
    if k == 0 then None else Some((DigitsValue(s[..k]), s[k..]))
  }

  /** Reading back a printed natural number gives the number and the text after it. */
  lemma ReadNatText(n: nat, rest: string)
    requires rest == [] || !IsDigit(rest[0])
    ensures ReadNat(NatText(n) + rest) == Some((n, rest))
  {
    var s := NatText(n) + rest;
    DigitRunOfNumeral(NatText(n), rest);
    assert s[..|NatText(n)|] == NatText(n);
    assert s[|NatText(n)|..] == rest;
    NatTextValue(n);
  }

  /** Python `int()` applied to a string without whitespace: an optional sign, then one or
      more digits and nothing else; None stands for the ValueError it raises otherwise. */
  function ParseInt(s: string): (r: Option<int>)
    ensures r.Some? ==> |s| > 0
  {
    if |s| > 0 && (s[0] == '-' || s[0] == '+') then
      (if |s| > 1 && AllDigits(s[1..]) then
         (var v: int := DigitsValue(s[1..]); Some(if s[0] == '-' then -v else v))
       else None)
    else if |s| > 0 && AllDigits(s) then Some(DigitsValue(s))
    else None
  }

  /** Parsing a printed integer recovers it. */
  lemma ParseIntText(n: int)
    ensures ParseInt(IntText(n)) == Some(n)
  {
    if n < 0 {
      assert IntText(n)[1..] == NatText(-n);
      NatTextValue(-n);
    } else {
      NatTextValue(n);
    }
  }

  /** The characters Python's `str.isspace()` accepts, which `str.split()` cuts on. */
  predicate IsSpace(c: char)
  {
    var u := c as int;
    u == 0x20 || 0x09 <= u <= 0x0d || 0x1c <= u <= 0x1f || u == 0x85 || u == 0xa0 || u == 0x1680
    || 0x2000 <= u <= 0x200a || u == 0x2028 || u == 0x2029 || u == 0x202f || u == 0x205f || u == 0x3000
  }

  predicate NoSpace(s: string) { forall i :: 0 <= i < |s| ==> !IsSpace(s[i]) }

  /** Length of the word at the start of s (the run before the first whitespace). */
  function WordLen(s: string): (k: nat)
    ensures k <= |s| && NoSpace(s[..k])
    ensures k < |s| ==> IsSpace(s[k])
    ensures s != [] && !IsSpace(s[0]) ==> k > 0
  {
    if s == [] || IsSpace(s[0]) then 0 else 1 + WordLen(s[1..])
  }

  /** Python `s.split()`: the maximal runs of non-whitespace characters, in order. */
  function Split(s: string): (ws: seq<string>)
    ensures forall i :: 0 <= i < |ws| ==> |ws[i]| > 0 && NoSpace(ws[i])
    decreases |s|
  {
    if s == [] then []
    else if IsSpace(s[0]) then Split(s[1..])
    else var k := WordLen(s); [s[..k]] + Split(s[k..])
  }

  lemma {:induction false} WordLenOfWord(w: string, rest: string)
    requires NoSpace(w)
    requires rest == [] || IsSpace(rest[0])
    ensures WordLen(w + rest) == |w|
    decreases |w|
  {
    if w == [] {
      assert w + rest == rest;
    } else {
      assert (w + rest)[1..] == w[1..] + rest;
      WordLenOfWord(w[1..], rest);
    }
  }

  /** A word followed by whitespace is split off as one piece. */
  lemma SplitWord(w: string, sep: char, rest: string)
    requires |w| > 0 && NoSpace(w) && IsSpace(sep)
    ensures Split(w + [sep] + rest) == [w] + Split(rest)
  {
    var s := w + ([sep] + rest);
    assert s == w + [sep] + rest;
    WordLenOfWord(w, [sep] + rest);
    assert s[0] == w[0];
    assert s[..|w|] == w;
    assert s[|w|..] == [sep] + rest;
    SplitSpace(sep, rest);
    assert Split(s) == [s[..|w|]] + Split(s[|w|..]);
  }

  /** Leading whitespace does not change the pieces. */
  lemma SplitSpace(sep: char, rest: string)
    requires IsSpace(sep)
    ensures Split([sep] + rest) == Split(rest)
  {
    assert ([sep] + rest)[1..] == rest;
  }

  /** A final word with nothing after it is split off as one piece. */
  lemma SplitLastWord(w: string)
    requires |w| > 0 && NoSpace(w)
    ensures Split(w) == [w]
  {
    WordLenOfWord(w, []);
    assert w + [] == w;
    assert w[|w|..] == [];
  }
}
