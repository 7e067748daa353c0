/**
 * The row/column layout encoding the wizard works with: a layout is a
 * sequence of column counts, one per row; its identifier is the counts joined
 * by commas ("3,4"). Custom layout text is parsed by ParseRowCols, and old
 * "ColsxRows" identifiers are migrated by ConvertLegacyLayoutID.
 */
module LayoutCodec {
  import opened Text

  /** The ceiling on the number of terminals a custom layout may open. */
  const MaxTerminals: int := 20

  /** A layout as the wizard holds it: display name, column count per row, description. */
  datatype GridLayout = GridLayout(name: string, rowCols: seq<int>, desc: string)

  function Sum(xs: seq<int>): int {
    if xs == [] then 0 else Sum(xs[..|xs| - 1]) + xs[|xs| - 1]
  }

  const Modulus64: int := 0x1_0000_0000_0000_0000

  /**
   * Go's `+` on two 64-bit ints: the mathematical sum, moved by 2^64 back
   * into the signed range when it overflows.
   */
  function AddInt64(a: int, b: int): (r: int)
    ensures MinInt64 <= a <= MaxInt64 && MinInt64 <= b <= MaxInt64 ==>
              MinInt64 <= r <= MaxInt64 && (r == a + b || r == a + b - Modulus64 || r == a + b + Modulus64)
    ensures MinInt64 <= a + b <= MaxInt64 ==> r == a + b
  {
    var x := a + b;
    if x > MaxInt64 then x - Modulus64 else if x < MinInt64 then x + Modulus64 else x
  }

  /** The running total a 64-bit int accumulates: every addition wraps. */
  function WrappedSum(xs: seq<int>): int {
    if xs == [] then 0 else AddInt64(WrappedSum(xs[..|xs| - 1]), xs[|xs| - 1])
  }

  function Repeat(x: int, n: nat): (r: seq<int>)
    ensures |r| == n && forall i :: 0 <= i < n ==> r[i] == x
  {
    if n == 0 then [] else Repeat(x, n - 1) + [x]
  }

  function ItoaAll(xs: seq<int>): seq<string> {
    if xs == [] then [] else ItoaAll(xs[..|xs| - 1]) + [Itoa(xs[|xs| - 1])]
  }

  /**
   * The comma-joined identifier of a row/column sequence: splitting it on
   * commas gives back each count's decimal text, and it holds no 'x', so it
   * is never mistaken for a legacy "ColsxRows" identifier.
   */
  function RowColsID(rowCols: seq<int>): (r: string)
    ensures |rowCols| >= 1 ==> Split(r, ',') == ItoaAll(rowCols)
    ensures 'x' !in r
  {
    NumberTextsPlain(rowCols);
    JoinChars(ItoaAll(rowCols), ',', 'x');
    if |rowCols| >= 1 then SplitJoin(ItoaAll(rowCols), ','); Join(ItoaAll(rowCols), ',')
    else Join(ItoaAll(rowCols), ',')
  }

  /** Decimal texts hold neither the separator nor the legacy 'x'. */
  lemma NumberTextsPlain(xs: seq<int>)
    ensures |ItoaAll(xs)| == |xs|
    ensures forall i :: 0 <= i < |xs| ==> ',' !in ItoaAll(xs)[i] && 'x' !in ItoaAll(xs)[i]
  {
    ItoaAllShape(xs);
    forall i | 0 <= i < |xs| ensures ',' !in ItoaAll(xs)[i] && 'x' !in ItoaAll(xs)[i] {
      ItoaChars(xs[i]);
    }
  }

  function ID(l: GridLayout): string {
    RowColsID(l.rowCols)
  }

  /** One row of a description: `n` cells "[ ]" side by side. */
  function RowDesc(n: int): (r: string)
    ensures |r| == if n <= 0 then 0 else 3 * n
    ensures '/' !in r
    decreases n
  {
    if n <= 0 then "" else "[ ]" + RowDesc(n - 1)
  }

  /** GenerateDesc: the rows' cells, rows separated by " / ": a '/' appears exactly when there are two rows or more. */
  function GenerateDesc(rowCols: seq<int>): (r: string)
    ensures '/' in r <==> |rowCols| >= 2
  {
    if rowCols == [] then ""
    else if |rowCols| == 1 then RowDesc(rowCols[0])
    else RowDesc(rowCols[0]) + " / " + GenerateDesc(rowCols[1..])
  }

  lemma SplitPastChar(c: char, t: string, sep: char)
    requires c != sep
    ensures |Split([c] + t, sep)| == |Split(t, sep)|
  {
    var s := [c] + t;
    if sep in t {
      assert s[1..] == t;
      var k := IndexOf(t, sep);
      assert s[1 + k] == sep && sep !in s[..1 + k];
      assert IndexOf(s, sep) == 1 + k by { IndexOfConcat(s[..1 + k], sep, s[2 + k..]); assert s == s[..1 + k] + [sep] + s[2 + k..]; }
      assert s[1 + k + 1..] == t[k + 1..];
    }
  }

  /** Splitting a description at '/' gives one piece per row. */
  lemma {:induction false} GenerateDescRows(rowCols: seq<int>)
    requires |rowCols| >= 1
    ensures |Split(GenerateDesc(rowCols), '/')| == |rowCols|
  {
    if |rowCols| >= 2 {
      var head, tail := RowDesc(rowCols[0]) + " ", GenerateDesc(rowCols[1..]);
      GenerateDescRows(rowCols[1..]);
      assert GenerateDesc(rowCols) == head + ['/'] + ([' '] + tail);
      IndexOfConcat(head, '/', [' '] + tail);
      assert (head + ['/'] + ([' '] + tail))[|head| + 1..] == [' '] + tail;
      SplitPastChar(' ', tail, '/');
    }
  }

  // ---------------------------------------------------------------------------
  // parseRowCols

  /** The trimmed, non-blank segments of a comma-split text, in order. */
  function Segments(parts: seq<string>): (r: seq<string>)
    ensures forall i :: 0 <= i < |r| ==> r[i] != ""
  {
    if parts == [] then []
    else
      var t := TrimSpace(parts[|parts| - 1]);
      Segments(parts[..|parts| - 1]) + (if t == "" then [] else [t])
  }

  /** A segment parseRowCols accepts: an integer of at least 1. */
  predicate IsCount(seg: string) {
    Atoi(seg).Some? && Atoi(seg).value >= 1
  }

  predicate AllCounts(segs: seq<string>) {
    forall i :: 0 <= i < |segs| ==> IsCount(segs[i])
  }

  function Counts(segs: seq<string>): (r: seq<int>)
    requires AllCounts(segs)
    ensures |r| == |segs|
  {
    if segs == [] then [] else Counts(segs[..|segs| - 1]) + [Atoi(segs[|segs| - 1]).value]
  }

  lemma {:induction false} CountsPositive(segs: seq<string>)
    requires AllCounts(segs)
    ensures forall i :: 0 <= i < |segs| ==> Counts(segs)[i] >= 1
  {
    if segs != [] {
      CountsPositive(segs[..|segs| - 1]);
    }
  }

  /**
   * What parseRowCols accepts: the non-blank segments between commas all
   * parse as integers of at least 1, there is at least one, and they add up
   * to at most MaxTerminals. The result is those integers in input order.
   */
  function RowColsOf(s: string): (r: Option<seq<int>>)
    ensures r.Some? ==> |r.value| >= 1 && Sum(r.value) <= MaxTerminals
    ensures r.Some? ==> forall i :: 0 <= i < |r.value| ==> r.value[i] >= 1
  {
    var segs := Segments(Split(s, ','));
    if AllCounts(segs) && |segs| > 0 && Sum(Counts(segs)) <= MaxTerminals then
      CountsPositive(segs);
      Some(Counts(segs))
    else None
  }

  /**
   * What parseRowCols accepts as written: the same test, except that the
   * total is the 64-bit running total, which wraps past MaxInt64.
   */
  function RowColsAsWritten(s: string): (r: Option<seq<int>>)
    ensures r.Some? ==> |r.value| >= 1 && WrappedSum(r.value) <= MaxTerminals
    ensures r.Some? ==> forall i :: 0 <= i < |r.value| ==> r.value[i] >= 1
  {
    var segs := Segments(Split(s, ','));
    if AllCounts(segs) && |segs| > 0 && WrappedSum(Counts(segs)) <= MaxTerminals then
      CountsPositive(segs);
      Some(Counts(segs))
    else None
  }

  /** Empty text is rejected: it has no segment at all. */
  lemma RowColsOfEmpty()
    ensures RowColsOf("").None?
  {
    assert Split("", ',') == [""];
    assert Segments([""]) == [];
  }

  lemma {:induction false} SegmentsAppend(a: seq<string>, b: seq<string>)
    ensures Segments(a + b) == Segments(a) + Segments(b)
    decreases |b|
  {
    if b == [] {
      assert a + b == a;
    } else {
      assert (a + b)[..|a + b| - 1] == a + b[..|b| - 1];
      SegmentsAppend(a, b[..|b| - 1]);
    }
  }

  lemma SegmentsStep(parts: seq<string>, i: nat)
    requires i < |parts|
    ensures var t := TrimSpace(parts[i]);
      Segments(parts[..i + 1]) == Segments(parts[..i]) + (if t == "" then [] else [t])
  {
    assert parts[..i + 1][..i] == parts[..i];
  }

  lemma SegmentsSplitAt(parts: seq<string>, i: nat)
    requires i < |parts| && TrimSpace(parts[i]) != ""
    ensures Segments(parts) == Segments(parts[..i]) + [TrimSpace(parts[i])] + Segments(parts[i + 1..])
  {
    var front, back := parts[..i + 1], parts[i + 1..];
    assert parts == front + back;
    calc {
      Segments(parts);
      Segments(front + back);
      { SegmentsAppend(front, back); }
      Segments(front) + Segments(back);
      { SegmentsStep(parts, i); }
      Segments(parts[..i]) + [TrimSpace(parts[i])] + Segments(back);
    }
  }

  /** One non-blank segment that is not a count makes the whole text invalid. */
  lemma BadSegmentRejects(parts: seq<string>, i: nat)
    requires i < |parts|
    requires TrimSpace(parts[i]) != "" && !IsCount(TrimSpace(parts[i]))
    ensures !AllCounts(Segments(parts))
  {
    SegmentsSplitAt(parts, i);
    NotAllCounts(Segments(parts[..i]), TrimSpace(parts[i]), Segments(parts[i + 1..]));
  }

  lemma NotAllCounts(a: seq<string>, t: string, b: seq<string>)
    requires !IsCount(t)
    ensures !AllCounts(a + [t] + b)
  {
    assert (a + [t] + b)[|a|] == t;
  }

  lemma CountsStep(segs: seq<string>, t: string)
    requires AllCounts(segs) && IsCount(t)
    ensures AllCounts(segs + [t]) && Counts(segs + [t]) == Counts(segs) + [Atoi(t).value]
  {
    assert (segs + [t])[..|segs|] == segs;
  }

  /** One iteration of parseRowCols: a blank segment is skipped, a count is appended, anything else rejects. */
  lemma ParseStep(parts: seq<string>, i: nat)
    requires i < |parts| && AllCounts(Segments(parts[..i]))
    ensures var t := TrimSpace(parts[i]);
      (t == "" ==> Segments(parts[..i + 1]) == Segments(parts[..i])) &&
      (t != "" && IsCount(t) ==>
         AllCounts(Segments(parts[..i + 1])) &&
         Counts(Segments(parts[..i + 1])) == Counts(Segments(parts[..i])) + [Atoi(t).value]) &&
      (t != "" && !IsCount(t) ==> !AllCounts(Segments(parts)))
  {
    var t := TrimSpace(parts[i]);
    SegmentsStep(parts, i);
    if t != "" {
      if IsCount(t) {
        CountsStep(Segments(parts[..i]), t);
      } else {
        BadSegmentRejects(parts, i);
      }
    }
  }

  lemma SumStep(xs: seq<int>, x: int)
    ensures Sum(xs + [x]) == Sum(xs) + x
  {
    assert (xs + [x])[..|xs|] == xs;
  }

  /** What RowColsOf makes of a text whose segments are all counts. */
  lemma RowColsOfCounts(s: string, parts: seq<string>, result: seq<int>)
    requires parts == Split(s, ',')
    requires AllCounts(Segments(parts)) && result == Counts(Segments(parts))
    ensures RowColsOf(s) == if |result| == 0 || Sum(result) > MaxTerminals then None else Some(result)
  {
  }

  /** What RowColsAsWritten makes of a text whose segments are all counts. */
  lemma RowColsAsWrittenCounts(s: string, parts: seq<string>, result: seq<int>)
    requires parts == Split(s, ',')
    requires AllCounts(Segments(parts)) && result == Counts(Segments(parts))
    ensures RowColsAsWritten(s) == if |result| == 0 || WrappedSum(result) > MaxTerminals then None else Some(result)
  {
  }

  /** A text with a non-blank segment that is not a count is rejected. */
  lemma RowColsOfBad(s: string, parts: seq<string>, i: nat)
    requires parts == Split(s, ',') && i < |parts|
    requires TrimSpace(parts[i]) != "" && !IsCount(TrimSpace(parts[i]))
    ensures RowColsOf(s) == None && RowColsAsWritten(s) == None
  {
    BadSegmentRejects(parts, i);
  }

  lemma WrappedSumStep(xs: seq<int>, x: int)
    ensures WrappedSum(xs + [x]) == AddInt64(WrappedSum(xs), x)
  {
    assert (xs + [x])[..|xs|] == xs;
  }

  /**
   * parseRowCols as written: split on commas, trim, skip blanks, stop at the
   * first segment that is not an integer of at least 1, and keep a running
   * total in a 64-bit int. It agrees with RowColsOf on everything RowColsOf
   * accepts.
   */
  method ParseRowColsAsWritten(s: string) returns (r: Option<seq<int>>)
    ensures r == RowColsAsWritten(s)
    ensures RowColsOf(s).Some? ==> r == RowColsOf(s)
  {
    var parts := Split(s, ',');
    var result: seq<int> := [];
    var total := 0;
    for i := 0 to |parts|
      invariant AllCounts(Segments(parts[..i]))
      invariant result == Counts(Segments(parts[..i]))
      invariant total == WrappedSum(result)
    {
      ParseStep(parts, i);
      var p := TrimSpace(parts[i]);
      if p == "" {
        continue;
      }
      var n := Atoi(p);
      if n.None? || n.value < 1 {
        RowColsOfBad(s, parts, i);
        AsWrittenAgrees(s);
        return None;
      }
      WrappedSumStep(result, n.value);
      result := result + [n.value];
      total := AddInt64(total, n.value);
    }
    assert parts[..|parts|] == parts;
    RowColsAsWrittenCounts(s, parts, result);
    AsWrittenAgrees(s);
    if |result| == 0 || total > MaxTerminals {
      return None;
    }
    return Some(result);
  }

  /** Below MaxInt64 the 64-bit running total of positive counts never wraps. */
  lemma {:induction false} WrappedSumAgrees(xs: seq<int>)
    requires forall i :: 0 <= i < |xs| ==> xs[i] >= 1
    requires Sum(xs) <= MaxInt64
    ensures WrappedSum(xs) == Sum(xs)
  {
    if xs != [] {
      var init := xs[..|xs| - 1];
      SumNonNegative(init);
      WrappedSumAgrees(init);
    }
  }

  /**
   * The wrap-around is the only difference: where the two readings disagree,
   * the counts really add up past MaxInt64, the intended reading rejects the
   * text and the written one accepts it.
   */
  lemma AsWrittenAgrees(s: string)
    ensures RowColsOf(s).Some? ==> RowColsAsWritten(s) == RowColsOf(s)
    ensures RowColsAsWritten(s) != RowColsOf(s) ==>
              RowColsOf(s).None? && RowColsAsWritten(s).Some? && Sum(RowColsAsWritten(s).value) > MaxInt64
  {
    var segs := Segments(Split(s, ','));
    if AllCounts(segs) && |segs| > 0 {
      CountsPositive(segs);
      if Sum(Counts(segs)) <= MaxInt64 {
        WrappedSumAgrees(Counts(segs));
      }
    }
  }

  /**
   * Two counts whose sum passes MaxInt64 ("9223372036854775807,1", say):
   * the 64-bit total wraps negative, so the text is accepted as written,
   * although the counts add up to far more than MaxTerminals.
   */
  lemma WrapAcceptsHugeLayout(a: int, b: int)
    requires 1 <= a <= MaxInt64 && 1 <= b <= MaxInt64 && a + b > MaxInt64
    ensures RowColsAsWritten(RowColsID([a, b])) == Some([a, b])
    ensures RowColsOf(RowColsID([a, b])).None?
  {
    NumbersParse([a, b]);
    PairSums(a, b);
  }

  /** The identifier of a layout of 64-bit counts splits back into exactly those counts. */
  lemma NumbersParse(xs: seq<int>)
    requires |xs| >= 1 && forall i :: 0 <= i < |xs| ==> 1 <= xs[i] <= MaxInt64
    ensures var segs := Segments(Split(RowColsID(xs), ','));
      AllCounts(segs) && Counts(segs) == xs
  {
    SegmentsOfNumbers(xs);
    CountsOfNumbers(xs);
  }

  lemma PairSums(a: int, b: int)
    requires 1 <= a <= MaxInt64 && 1 <= b <= MaxInt64 && a + b > MaxInt64
    ensures Sum([a, b]) == a + b && WrappedSum([a, b]) == a + b - Modulus64
  {
    var one, two := [a], [a, b];
    assert one[..0] == [] && two[..1] == one;
    assert Sum(one) == a && WrappedSum(one) == a;
  }

  /**
   * parseRowCols with the total it evidently intends: the same loop, with
   * the counts added without wrap-around.
   */
  method ParseRowCols(s: string) returns (r: Option<seq<int>>)
    ensures r == RowColsOf(s)
  {
    var parts := Split(s, ',');
    var result: seq<int> := [];
    var total := 0;
    for i := 0 to |parts|
      invariant AllCounts(Segments(parts[..i]))
      invariant result == Counts(Segments(parts[..i]))
      invariant total == Sum(result)
    {
      ParseStep(parts, i);
      var p := TrimSpace(parts[i]);
      if p == "" {
        continue;
      }
      var n := Atoi(p);
      if n.None? || n.value < 1 {
        RowColsOfBad(s, parts, i);
        return None;
      }
      SumStep(result, n.value);
      result := result + [n.value];
      total := total + n.value;
    }
    assert parts[..|parts|] == parts;
    RowColsOfCounts(s, parts, result);
    if |result| == 0 || total > MaxTerminals {
      return None;
    }
    return Some(result);
  }

  // ---------------------------------------------------------------------------
  // Round trip: the identifier of a valid layout parses back to its rows

  lemma {:induction false} ItoaAllShape(xs: seq<int>)
    ensures |ItoaAll(xs)| == |xs|
    ensures forall i :: 0 <= i < |xs| ==> ItoaAll(xs)[i] == Itoa(xs[i])
  {
    if xs != [] {
      var init := xs[..|xs| - 1];
      ItoaAllShape(init);
      assert ItoaAll(xs) == ItoaAll(init) + [Itoa(xs[|xs| - 1])];
      forall i | 0 <= i < |xs| - 1
        ensures ItoaAll(xs)[i] == Itoa(xs[i])
      {
        assert xs[i] == init[i];
      }
    }
  }

  lemma {:induction false} SegmentsOfNumbers(xs: seq<int>)
    ensures Segments(ItoaAll(xs)) == ItoaAll(xs)
  {
    if xs != [] {
      SegmentsOfNumbers(xs[..|xs| - 1]);
      ItoaChars(xs[|xs| - 1]);
      TrimSpaceOfNoSpace(Itoa(xs[|xs| - 1]));
      assert ItoaAll(xs)[..|ItoaAll(xs)| - 1] == ItoaAll(xs[..|xs| - 1]);
    }
  }

  lemma {:induction false} CountsOfNumbers(xs: seq<int>)
    requires forall i :: 0 <= i < |xs| ==> 1 <= xs[i] <= MaxInt64
    ensures AllCounts(ItoaAll(xs)) && Counts(ItoaAll(xs)) == xs
  {
    if xs != [] {
      var init, last := xs[..|xs| - 1], xs[|xs| - 1];
      CountsOfNumbers(init);
      AtoiItoa(last);
      CountsStep(ItoaAll(init), Itoa(last));
      assert xs == init + [last];
    }
  }

  lemma {:induction false} SumBound(xs: seq<int>, i: nat)
    requires forall j :: 0 <= j < |xs| ==> xs[j] >= 1
    requires i < |xs|
    ensures xs[i] <= Sum(xs)
  {
    if i < |xs| - 1 {
      SumBound(xs[..|xs| - 1], i);
      SumNonNegative(xs[..|xs| - 1]);
    } else {
      SumNonNegative(xs[..|xs| - 1]);
    }
  }

  lemma {:induction false} SumNonNegative(xs: seq<int>)
    requires forall j :: 0 <= j < |xs| ==> xs[j] >= 1
    ensures Sum(xs) >= |xs|
  {
    if xs != [] {
      SumNonNegative(xs[..|xs| - 1]);
    }
  }

  /** Every layout parseRowCols could return is parsed back from its own identifier. */
  lemma RowColsRoundTrip(rowCols: seq<int>)
    requires |rowCols| >= 1 && Sum(rowCols) <= MaxTerminals
    requires forall i :: 0 <= i < |rowCols| ==> rowCols[i] >= 1
    ensures RowColsOf(RowColsID(rowCols)) == Some(rowCols)
  {
    var strs := ItoaAll(rowCols);
    ItoaAllShape(rowCols);
    forall i | 0 <= i < |rowCols| ensures rowCols[i] <= MaxInt64 && ',' !in strs[i] {
      SumBound(rowCols, i);
      ItoaChars(rowCols[i]);
    }
    SplitJoin(strs, ',');
    SegmentsOfNumbers(rowCols);
    CountsOfNumbers(rowCols);
  }

  /** parseRowCols is injective on what it accepts: one identifier, one layout. */
  lemma RowColsIDInjective(a: seq<int>, b: seq<int>)
    requires |a| >= 1 && Sum(a) <= MaxTerminals && forall i :: 0 <= i < |a| ==> a[i] >= 1
    requires |b| >= 1 && Sum(b) <= MaxTerminals && forall i :: 0 <= i < |b| ==> b[i] >= 1
    requires RowColsID(a) == RowColsID(b)
    ensures a == b
  {
    RowColsRoundTrip(a);
    RowColsRoundTrip(b);
  }

  // ---------------------------------------------------------------------------
  // convertLegacyLayoutID

  /**
   * The migration of a "CxR" identifier: unchanged without an 'x' or when
   * either side of the first 'x' is not an integer, otherwise R copies of C
   * joined by commas. None stands for the runtime panic the source hits when
   * it allocates a slice of negative length (R < 0).
   */
  function LegacyConverted(id: string): Option<string> {
    if 'x' !in id then Some(id)
    else
      var k := IndexOf(id, 'x');
      var cols, rows := Atoi(id[..k]), Atoi(id[k + 1..]);
      if cols.None? || rows.None? then Some(id)
      else if rows.value < 0 then None
      else Some(RowColsID(Repeat(cols.value, rows.value)))
  }

  /** convertLegacyLayoutID: builds the R copies of C in a loop, then joins them. */
  method ConvertLegacyLayoutID(id: string) returns (r: Option<string>)
    ensures r == LegacyConverted(id)
  {
    if 'x' !in id {
      return Some(id);
    }
    var k := IndexOf(id, 'x');
    var cols, rows := Atoi(id[..k]), Atoi(id[k + 1..]);
    if cols.None? || rows.None? {
      return Some(id);
    }
    if rows.value < 0 {
      return None;
    }
    var rowCols: seq<string> := [];
    for i := 0 to rows.value
      invariant rowCols == ItoaAll(Repeat(cols.value, i))
    {
      assert Repeat(cols.value, i + 1)[..i] == Repeat(cols.value, i);
      rowCols := rowCols + [Itoa(cols.value)];
    }
    return Some(Join(rowCols, ','));
  }

  /** Migrating twice is migrating once: a converted identifier has no 'x' left. */
  lemma LegacyIdempotent(id: string)
    requires LegacyConverted(id).Some?
    ensures LegacyConverted(LegacyConverted(id).value) == LegacyConverted(id)
  {
    if 'x' in id {
      var k := IndexOf(id, 'x');
      var cols, rows := Atoi(id[..k]), Atoi(id[k + 1..]);
    }
  }

  /** A legacy "CxR" identifier becomes R copies of C, for every 64-bit C and R >= 0. */
  lemma LegacyExpands(cols: int, rows: int)
    requires MinInt64 <= cols <= MaxInt64 && 0 <= rows <= MaxInt64
    ensures LegacyConverted(Itoa(cols) + "x" + Itoa(rows)) == Some(RowColsID(Repeat(cols, rows)))
  {
    var id := Itoa(cols) + "x" + Itoa(rows);
    ItoaChars(cols);
    assert 'x' !in Itoa(cols);
    IndexOfConcat(Itoa(cols), 'x', Itoa(rows));
    assert id[..|Itoa(cols)|] == Itoa(cols);
    assert id[|Itoa(cols)| + 1..] == Itoa(rows);
    AtoiItoa(cols);
    AtoiItoa(rows);
  }

  lemma {:induction false} SumRepeat(x: int, n: nat)
    ensures Sum(Repeat(x, n)) == x * n
  {
    if n > 0 {
      SumRepeat(x, n - 1);
      assert Repeat(x, n)[..n - 1] == Repeat(x, n - 1);
    }
  }

  lemma MulAtLeast(a: int, b: int)
    requires a >= 1 && b >= 1
    ensures a <= a * b && b <= a * b
  {
    assert a * b == a + a * (b - 1);
    assert a * b == b + (a - 1) * b;
  }

  /** A migrated legacy grid of at most MaxTerminals cells is accepted by parseRowCols as R rows of C. */
  lemma LegacyParses(cols: int, rows: int)
    requires cols >= 1 && rows >= 1 && cols * rows <= MaxTerminals
    ensures LegacyConverted(Itoa(cols) + "x" + Itoa(rows)) == Some(RowColsID(Repeat(cols, rows)))
    ensures RowColsOf(RowColsID(Repeat(cols, rows))) == Some(Repeat(cols, rows))
  {
    MulAtLeast(cols, rows);
    LegacyExpands(cols, rows);
    SumRepeat(cols, rows);
    RowColsRoundTrip(Repeat(cols, rows));
  }
}
