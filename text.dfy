/**
 * The handful of Go `strings` and `strconv` routines the wizard and the
 * launcher rely on, stated over `string` (a sequence of Unicode characters):
 * TrimSpace, Split, Join, Fields, Atoi and Itoa.
 */
module Text {

  datatype Option<+T> = None | Some(value: T)

  /** unicode.IsSpace: the characters TrimSpace and Fields treat as white space. */
  predicate IsSpace(c: char) {
    var n := c as int;
    (9 <= n <= 13) || n == 32 || n == 0x85 || n == 0xA0 || n == 0x1680 ||
    (0x2000 <= n <= 0x200A) || n == 0x2028 || n == 0x2029 || n == 0x202F ||
    n == 0x205F || n == 0x3000
  }

  predicate NoSpace(s: string) {
    forall i :: 0 <= i < |s| ==> !IsSpace(s[i])
  }

  // ---------------------------------------------------------------------------
  // strings.TrimSpace

  /**
   * strings.TrimSpace: drops white space at both ends. Trimming the front
   * first and the back first give the same result, so the two ends are
   * trimmed one character at a time.
   */
  function TrimSpace(s: string): (r: string)
    ensures |r| <= |s|
    ensures r == [] || (!IsSpace(r[0]) && !IsSpace(r[|r| - 1]))
    decreases |s|
  {
    if s == [] then s
    else if IsSpace(s[0]) then TrimSpace(s[1..])
    else if IsSpace(s[|s| - 1]) then TrimSpace(s[..|s| - 1])
    else s
  }

  /** TrimSpace removes white space at the two ends and keeps everything between them. */
  lemma {:induction false} TrimSpaceCuts(s: string) returns (lo: nat)
    ensures lo + |TrimSpace(s)| <= |s| && TrimSpace(s) == s[lo..lo + |TrimSpace(s)|]
    ensures forall i :: 0 <= i < lo ==> IsSpace(s[i])
    ensures forall i :: lo + |TrimSpace(s)| <= i < |s| ==> IsSpace(s[i])
    decreases |s|
  {
    var n := |TrimSpace(s)|;
    if s == [] {
      lo := 0;
    } else if IsSpace(s[0]) {
      var lo' := TrimSpaceCuts(s[1..]);
      lo := lo' + 1;
      assert s[1..][lo'..lo' + n] == s[lo..lo + n];
      SpaceAfterDrop(s, 0, lo');
      SpaceAfterDrop(s, lo' + n, |s| - 1);
    } else if IsSpace(s[|s| - 1]) {
      lo := TrimSpaceCuts(s[..|s| - 1]);
      assert s[..|s| - 1][lo..lo + n] == s[lo..lo + n];
      SpaceBeforeLast(s, s[..|s| - 1], lo + n);
    } else {
      lo := 0;
    }
  }

  /** White space in s[1..] between a and b is white space in s one place further on. */
  lemma SpaceAfterDrop(s: string, a: nat, b: nat)
    requires s != [] && a <= b <= |s| - 1
    requires forall i :: a <= i < b ==> IsSpace(s[1..][i])
    ensures forall i :: a + 1 <= i < b + 1 ==> IsSpace(s[i])
  {
    forall i | a + 1 <= i < b + 1 ensures IsSpace(s[i]) {
      assert s[i] == s[1..][i - 1];
    }
  }

  /** White space at the end of init = s[..|s| - 1] from k on, and a space last, is white space of s from k on. */
  lemma SpaceBeforeLast(s: string, init: string, k: nat)
    requires s != [] && init == s[..|s| - 1] && IsSpace(s[|s| - 1]) && k <= |init|
    requires forall i :: k <= i < |init| ==> IsSpace(init[i])
    ensures forall i :: k <= i < |s| ==> IsSpace(s[i])
  {
    forall i | k <= i < |s| ensures IsSpace(s[i]) {
      if i < |init| {
        assert s[i] == init[i];
      }
    }
  }

  /** Trimming leaves a string without white space at its ends untouched. */
  lemma TrimSpaceKeepsTrimmed(s: string)
    requires s == [] || (!IsSpace(s[0]) && !IsSpace(s[|s| - 1]))
    ensures TrimSpace(s) == s
  {
  }

  lemma TrimSpaceOfNoSpace(s: string)
    requires NoSpace(s)
    ensures TrimSpace(s) == s
  {
    TrimSpaceKeepsTrimmed(s);
  }

  // ---------------------------------------------------------------------------
  // strings.Index, strings.Split, strings.Join

  function IndexOf(s: string, c: char): (k: nat)
    requires c in s
    ensures k < |s| && s[k] == c && c !in s[..k]
  {
    if s[0] == c then 0 else 1 + IndexOf(s[1..], c)
  }

  lemma {:induction false} IndexOfConcat(a: string, c: char, b: string)
    requires c !in a
    ensures c in a + [c] + b && IndexOf(a + [c] + b, c) == |a|
  {
    var s := a + [c] + b;
    assert s[|a|] == c;
    if a != [] {
      assert s[1..] == a[1..] + [c] + b;
      IndexOfConcat(a[1..], c, b);
    }
  }

  /** strings.Split with a one-character separator: the text between separators, in order. */
  function Split(s: string, sep: char): (r: seq<string>)
    ensures |r| >= 1
    ensures forall i :: 0 <= i < |r| ==> sep !in r[i]
    decreases |s|
  {
    if sep !in s then [s]
    else
      var k := IndexOf(s, sep);
      [s[..k]] + Split(s[k + 1..], sep)
  }

  /** strings.Join with a one-character separator. */
  function Join(parts: seq<string>, sep: char): string {
    if parts == [] then []
    else if |parts| == 1 then parts[0]
    else parts[0] + [sep] + Join(parts[1..], sep)
  }

  /** Splitting a joined list gives the list back when no part holds the separator. */
  lemma {:induction false} SplitJoin(parts: seq<string>, sep: char)
    requires |parts| >= 1
    requires forall i :: 0 <= i < |parts| ==> sep !in parts[i]
    ensures Split(Join(parts, sep), sep) == parts
  {
    if |parts| == 1 {
    } else {
      var rest := Join(parts[1..], sep);
      IndexOfConcat(parts[0], sep, rest);
      var s := parts[0] + [sep] + rest;
      assert s[..|parts[0]|] == parts[0];
      assert s[|parts[0]| + 1..] == rest;
      SplitJoin(parts[1..], sep);
    }
  }

  /** Every character of a join comes from a part or is the separator. */
  lemma {:induction false} JoinChars(parts: seq<string>, sep: char, c: char)
    requires c != sep
    requires forall i :: 0 <= i < |parts| ==> c !in parts[i]
    ensures c !in Join(parts, sep)
  {
    if |parts| > 1 {
      JoinChars(parts[1..], sep, c);
    }
  }

  // ---------------------------------------------------------------------------
  // strings.Fields

  function WordLen(s: string): (n: nat)
    ensures n <= |s|
    ensures forall j :: 0 <= j < n ==> !IsSpace(s[j])
    ensures n < |s| ==> IsSpace(s[n])
  {
    if s == [] || IsSpace(s[0]) then 0 else 1 + WordLen(s[1..])
  }

  /** strings.Fields: the maximal runs of non-space characters, in order. */
  function Fields(s: string): (r: seq<string>)
    ensures forall i :: 0 <= i < |r| ==> r[i] != [] && NoSpace(r[i])
    decreases |s|
  {
    if s == [] then []
    else if IsSpace(s[0]) then Fields(s[1..])
    else
      var n := WordLen(s);
      [s[..n]] + Fields(s[n..])
  }

  /** A word followed by white space (or by nothing) is the first field: a field runs exactly up to white space. */
  lemma FieldsOfWord(w: string, rest: string)
    requires w != [] && NoSpace(w)
    requires rest == [] || IsSpace(rest[0])
    ensures Fields(w + rest) == [w] + Fields(rest)
  {
    var s := w + rest;
    var n := WordLen(s);
    assert forall j :: 0 <= j < |w| ==> s[j] == w[j];
    assert rest != [] ==> s[|w|] == rest[0];
    assert s[..n] == w && s[n..] == rest;
  }

  /** White space in front of the fields is skipped. */
  lemma FieldsDropSpace(c: char, rest: string)
    requires IsSpace(c)
    ensures Fields([c] + rest) == Fields(rest)
  {
    assert ([c] + rest)[1..] == rest;
  }

  /** The text with every white-space character removed. */
  function NonSpace(s: string): string {
    if s == [] then [] else (if IsSpace(s[0]) then [] else [s[0]]) + NonSpace(s[1..])
  }

  function Concat(parts: seq<string>): string {
    if parts == [] then [] else parts[0] + Concat(parts[1..])
  }

  lemma {:induction false} NonSpaceAppend(a: string, b: string)
    ensures NonSpace(a + b) == NonSpace(a) + NonSpace(b)
  {
    if a == [] {
      assert a + b == b;
    } else {
      assert (a + b)[1..] == a[1..] + b;
      NonSpaceAppend(a[1..], b);
    }
  }

  lemma {:induction false} NonSpaceOfWord(w: string)
    requires NoSpace(w)
    ensures NonSpace(w) == w
  {
    if w != [] {
      NonSpaceOfWord(w[1..]);
    }
  }

  /** The fields hold every non-space character of the text, in order, and nothing else. */
  lemma {:induction false} FieldsCover(s: string)
    ensures Concat(Fields(s)) == NonSpace(s)
    decreases |s|
  {
    if s == [] {
    } else if IsSpace(s[0]) {
      FieldsCover(s[1..]);
    } else {
      var n := WordLen(s);
      FieldsCover(s[n..]);
      assert s == s[..n] + s[n..];
      NonSpaceAppend(s[..n], s[n..]);
      NonSpaceOfWord(s[..n]);
      assert Fields(s)[1..] == Fields(s[n..]);
    }
  }

  // ---------------------------------------------------------------------------
  // strconv.Atoi and strconv.Itoa (Go's int is 64 bits wide on the target)

  const MinInt64: int := -0x8000_0000_0000_0000
  const MaxInt64: int := 0x7FFF_FFFF_FFFF_FFFF

  predicate IsDigit(c: char) {
    '0' <= c <= '9'
  }

  /** Every character is a decimal digit (stated from the last character back, as DigitsValue reads it). */
  predicate AllDigits(s: string)
    decreases |s|
  {
    s == [] || (AllDigits(s[..|s| - 1]) && IsDigit(s[|s| - 1]))
  }

  lemma {:induction false} AllDigitsEach(s: string)
    requires AllDigits(s)
    ensures forall i :: 0 <= i < |s| ==> IsDigit(s[i])
    decreases |s|
  {
    if s != [] {
      AllDigitsEach(s[..|s| - 1]);
      assert forall i :: 0 <= i < |s| - 1 ==> s[i] == s[..|s| - 1][i];
    }
  }

  function DigitsValue(s: string): nat
    requires AllDigits(s)
  {
    if s == [] then 0
    else DigitsValue(s[..|s| - 1]) * 10 + (s[|s| - 1] as int - '0' as int)
  }

  /**
   * strconv.Atoi: an optional sign followed by one or more decimal digits,
   * nothing else, and the value must fit in 64 bits; otherwise an error.
   */
  function Atoi(s: string): (r: Option<int>)
    ensures r.Some? ==> s != [] && MinInt64 <= r.value <= MaxInt64
  {
    var signed := |s| > 0 && (s[0] == '-' || s[0] == '+');
    var body := if signed then s[1..] else s;
    if body == [] || !AllDigits(body) then None
    else
      var v: int := if |s| > 0 && s[0] == '-' then 0 - DigitsValue(body) else DigitsValue(body);
      if MinInt64 <= v <= MaxInt64 then Some(v) else None
  }

  /** The text after Atoi's optional leading sign. */
  function Unsigned(s: string): string {
    if |s| > 0 && (s[0] == '-' || s[0] == '+') then s[1..] else s
  }

  /** One or more ASCII decimal digits. */
  predicate Decimal(d: string) {
    d != [] && forall i :: 0 <= i < |d| ==> IsDigit(d[i])
  }

  lemma {:induction false} EachDigitAll(s: string)
    requires forall i :: 0 <= i < |s| ==> IsDigit(s[i])
    ensures AllDigits(s)
    decreases |s|
  {
    if s != [] {
      var init := s[..|s| - 1];
      assert forall i :: 0 <= i < |init| ==> init[i] == s[i];
      EachDigitAll(init);
    }
  }

  /**
   * The texts Atoi accepts: an optional sign and one or more ASCII digits,
   * nothing else (no blanks, no point, no second sign); such a text is read
   * as its signed decimal value when that fits in 64 bits.
   */
  lemma AtoiAccepts(s: string)
    ensures Atoi(s).Some? ==> Decimal(Unsigned(s))
    ensures Decimal(Unsigned(s)) ==>
              AllDigits(Unsigned(s)) &&
              var v := if s[0] == '-' then 0 - DigitsValue(Unsigned(s)) else DigitsValue(Unsigned(s));
              Atoi(s) == if MinInt64 <= v <= MaxInt64 then Some(v) else None
  {
    var d := Unsigned(s);
    if Atoi(s).Some? {
      AllDigitsEach(d);
    }
    if Decimal(d) {
      EachDigitAll(d);
    }
  }

  /** Atoi's verdict on a few texts: trailing letters, blanks, a bare sign and a point are rejected. */
  lemma AtoiExamples()
    ensures Atoi("3a").None? && Atoi(" 3").None? && Atoi("+").None? && Atoi("1.5").None? && Atoi("").None?
    ensures Atoi("+7") == Some(7) && Atoi("-12") == Some(-12)
  {
    AtoiAccepts("3a");
    assert !IsDigit("3a"[1]);
    AtoiAccepts(" 3");
    assert !IsDigit(" 3"[0]);
    AtoiAccepts("+");
    AtoiAccepts("1.5");
    assert !IsDigit("1.5"[1]);
    AtoiAccepts("+7");
    assert Unsigned("+7") == "7" && DigitsValue("7") == 7;
    AtoiAccepts("-12");
    assert Unsigned("-12") == "12" && "12"[..1] == "1" && DigitsValue("12") == 12;
  }

  function DigitChar(d: nat): (c: char)
    requires d < 10
    ensures IsDigit(c) && c as int - '0' as int == d
  {
    ['0', '1', '2', '3', '4', '5', '6', '7', '8', '9'][d]
  }

  function NatDigits(n: nat): (r: string)
    ensures r != [] && AllDigits(r)
  {
    if n < 10 then
      assert [DigitChar(n)][..0] == [];
      [DigitChar(n)]
    else
      var r := NatDigits(n / 10) + [DigitChar(n % 10)];
      assert r[..|r| - 1] == NatDigits(n / 10);
      r
  }

  /** strconv.Itoa: decimal digits, with a leading '-' for negative numbers. */
  function Itoa(n: int): (r: string)
    ensures r != []
  {
    if n < 0 then "-" + NatDigits(-n) else NatDigits(n)
  }

  lemma {:induction false} NatDigitsValue(n: nat)
    ensures DigitsValue(NatDigits(n)) == n
  {
    if n >= 10 {
      NatDigitsValue(n / 10);
      var s := NatDigits(n);
      assert s[..|s| - 1] == NatDigits(n / 10);
    }
  }

  /** Itoa writes only digits and a minus sign: no separator, blank or 'x'. */
  lemma ItoaChars(n: int)
    ensures forall i :: 0 <= i < |Itoa(n)| ==> IsDigit(Itoa(n)[i]) || Itoa(n)[i] == '-'
    ensures NoSpace(Itoa(n))
  {
    if n < 0 {
      AllDigitsEach(NatDigits(-n));
    } else {
      AllDigitsEach(NatDigits(n));
    }
  }

  /** Atoi reads back every 64-bit integer Itoa writes. */
  lemma AtoiItoa(n: int)
    requires MinInt64 <= n <= MaxInt64
    ensures Atoi(Itoa(n)) == Some(n)
  {
    var digits := NatDigits(if n < 0 then -n else n);
    NatDigitsValue(if n < 0 then -n else n);
    AllDigitsEach(digits);
    if n < 0 {
      assert Itoa(n) == "-" + digits;
      assert Itoa(n)[1..] == digits;
    } else {
      assert Itoa(n) == digits && IsDigit(digits[0]);
    }
  }

  /** Itoa is injective, since Atoi undoes it. */
  lemma ItoaInjective(a: int, b: int)
    requires MinInt64 <= a <= MaxInt64 && MinInt64 <= b <= MaxInt64
    requires Itoa(a) == Itoa(b)
    ensures a == b
  {
    AtoiItoa(a);
    AtoiItoa(b);
  }
}
