// Paging: parsing the query parameters, the offset in 64-bit arithmetic, and how
// the pages divide the list of rows.
module Pagination {
  import opened Domain

  const MAX_INT64: int := 0x7FFF_FFFF_FFFF_FFFF

  const DEFAULT_PAGE := 1
  const DEFAULT_PER_PAGE := 10
  const MAX_PER_PAGE := 100

  datatype Params = Params(page: int, perPage: int)

  // ---------------------------------------------------------------- strconv.Atoi

  predicate IsDigit(c: char) {
    '0' <= c <= '9'
  }

  function DigitValue(c: char): nat
    requires IsDigit(c)
  {
    c as int - '0' as int
  }

  predicate AllDigits(s: string) {
    forall i :: 0 <= i < |s| ==> IsDigit(s[i])
  }

  function DigitsValue(s: string): nat
    requires AllDigits(s)
  {
    if s == [] then 0 else 10 * DigitsValue(s[..|s| - 1]) + DigitValue(s[|s| - 1])
  }

  // A sign, then digits, in the range of a 64-bit integer; anything else is an error.
  function Atoi(s: string): (r: Option<int>)
    ensures r.Some? ==> -MAX_INT64 - 1 <= r.value <= MAX_INT64
  {
    var negative := s != [] && s[0] == '-';
    var digits := if s != [] && (s[0] == '-' || s[0] == '+') then s[1..] else s;
    if digits == [] || !AllDigits(digits) then None
    else
      var n: int := if negative then 0 - DigitsValue(digits) else DigitsValue(digits);
      if -MAX_INT64 - 1 <= n <= MAX_INT64 then Some(n) else None
  }

  method Parse(pageStr: string, perPageStr: string) returns (p: Params)
    ensures p == Parsed(pageStr, perPageStr)
    ensures p.page == if Atoi(pageStr).Some? && Atoi(pageStr).value > 0 then Atoi(pageStr).value else 1
    ensures p.perPage ==
      if Atoi(perPageStr).None? || Atoi(perPageStr).value <= 0 then 10
      else if Atoi(perPageStr).value > 100 then 100 else Atoi(perPageStr).value
  {
    var page := DEFAULT_PAGE;
    var n := Atoi(pageStr);
    if n.Some? && n.value > 0 {
      page := n.value;
    }
    var perPage := DEFAULT_PER_PAGE;
    n := Atoi(perPageStr);
    if n.Some? && n.value > 0 {
      perPage := n.value;
    }
    if perPage > MAX_PER_PAGE {
      perPage := MAX_PER_PAGE;
    }
    p := Params(page, perPage);
  }

  function PositiveOr(s: string, default: int): int {
    match Atoi(s)
    case Some(n) => if n > 0 then n else default
    case None => default
  }

  function Parsed(pageStr: string, perPageStr: string): Params {
    var perPage := PositiveOr(perPageStr, DEFAULT_PER_PAGE);
    Params(PositiveOr(pageStr, DEFAULT_PAGE), if perPage > MAX_PER_PAGE then MAX_PER_PAGE else perPage)
  }

  function Itoa(n: nat): (s: string)
    ensures s != []
    ensures AllDigits(s)
    ensures DigitsValue(s) == n
  {
    var digit := [('0' as int + n % 10) as char];
    if n < 10 then digit
    else
      assert (Itoa(n / 10) + digit)[..|Itoa(n / 10)|] == Itoa(n / 10);
      Itoa(n / 10) + digit
  }

  ghost predicate InRange(p: Params) {
    1 <= p.page <= MAX_INT64 && 1 <= p.perPage <= MAX_PER_PAGE
  }

  // Anything can be parsed, always to usable parameters, and the parameters a
  // well-formed link asks for are the ones it gets.
  lemma ParsedInRange(pageStr: string, perPageStr: string, page: nat, perPage: nat)
    ensures var p := Parsed(pageStr, perPageStr);
      1 <= p.page <= 0x7FFF_FFFF_FFFF_FFFF && 1 <= p.perPage <= 100
    ensures 1 <= page <= 0x7FFF_FFFF_FFFF_FFFF && 1 <= perPage <= 100 ==>
      Parsed(Itoa(page), Itoa(perPage)) == Params(page, perPage)
    ensures 100 < perPage ==>
      Parsed(pageStr, Itoa(perPage)).perPage == if perPage <= 0x7FFF_FFFF_FFFF_FFFF then 100 else 10
    ensures Parsed("", "") == Params(1, 10) && Parsed("0", "0") == Params(1, 10)
  {
    AtoiOfItoa(page);
    AtoiOfItoa(perPage);
  }

  lemma AtoiOfItoa(n: nat)
    ensures Atoi(Itoa(n)) == if n <= MAX_INT64 then Some(n) else None
  {
    assert IsDigit(Itoa(n)[0]);
  }

  // A sign is understood.
  lemma AtoiSigned(digits: string)
    requires digits != [] && AllDigits(digits)
    ensures Atoi("+" + digits) ==
      if DigitsValue(digits) <= 0x7FFF_FFFF_FFFF_FFFF then Some(DigitsValue(digits)) else None
    ensures Atoi("-" + digits) ==
      if DigitsValue(digits) <= 0x8000_0000_0000_0000 then Some(0 - DigitsValue(digits)) else None
  {
    assert ("+" + digits)[1..] == digits && ("-" + digits)[1..] == digits;
  }

  // Nothing but a number is one.
  lemma AtoiRefuses(s: string, i: nat)
    requires 0 < i < |s| && !('0' <= s[i] <= '9')
    ensures Atoi(s) == None
  {
    if s[0] == '-' || s[0] == '+' {
      assert !IsDigit(s[1..][i - 1]);
    } else {
      assert !IsDigit(s[i]);
    }
  }

  // ---------------------------------------------------------------- offsets

  // Two's complement, as Go multiplies.
  function Wrap64(n: int): int {
    var low := n % (2 * (MAX_INT64 + 1));
    if low > MAX_INT64 then low - 2 * (MAX_INT64 + 1) else low
  }

  function Offset(p: Params): int {
    Wrap64((p.page - 1) * p.perPage)
  }

  function Limit(p: Params): int {
    p.perPage
  }

  // The offset is the one meant exactly if it fits; it can also wrap to a smaller valid one.
  lemma OffsetExactly(p: Params)
    requires InRange(p)
    ensures Offset(p) == (p.page - 1) * p.perPage <==> (p.page - 1) * p.perPage <= MAX_INT64
    ensures (p.page - 1) * p.perPage <= MAX_INT64 ==> 0 <= Offset(p)
  {
    Monotone(0, p.page - 1, p.perPage);
    WrapExactly((p.page - 1) * p.perPage);
  }

  lemma WrapExactly(n: int)
    requires 0 <= n
    ensures Wrap64(n) == n <==> n <= MAX_INT64
  {
  }

  // Far beyond the end of any list a page number can show the first page again.
  lemma OffsetCanWrap()
    ensures InRange(Params(0x4000_0000_0000_0001, 4)) && Offset(Params(0x4000_0000_0000_0001, 4)) == 0
  {
  }

  // ---------------------------------------------------------------- pages

  // LIMIT and OFFSET over rows in a fixed order; the database rejects a negative OFFSET.
  function Page<T>(rows: seq<T>, p: Params): (r: Option<seq<T>>)
    requires InRange(p)
  {
    if Offset(p) < 0 then None
    else
      var from := if Offset(p) < |rows| then Offset(p) else |rows|;
      var to := if from + Limit(p) < |rows| then from + Limit(p) else |rows|;
      Some(rows[from..to])
  }

  // ceil(total / perPage)
  function PageCount(total: nat, perPage: nat): nat
    requires perPage > 0
  {
    (total + perPage - 1) / perPage
  }

  // Pages 1 to n, one after the other.
  ghost function FirstPages<T>(rows: seq<T>, perPage: int, n: nat): seq<T>
    requires 1 <= perPage <= MAX_PER_PAGE && n <= MAX_INT64
  {
    if n == 0 then []
    else
      FirstPages(rows, perPage, n - 1)
        + (match Page(rows, Params(n, perPage)) case Some(page) => page case None => [])
  }

  function Clip(n: nat, bound: nat): nat {
    if n < bound then n else bound
  }

  lemma PageIs<T>(rows: seq<T>, p: Params, offset: nat)
    requires InRange(p) && offset == (p.page - 1) * p.perPage && offset <= MAX_INT64
    ensures Page(rows, p) == Some(rows[Clip(offset, |rows|)..Clip(offset + p.perPage, |rows|)])
  {
    OffsetExactly(p);
  }

  lemma {:induction false} FirstPagesArePrefix<T>(rows: seq<T>, perPage: nat, n: nat)
    requires 1 <= perPage <= MAX_PER_PAGE && n <= MAX_INT64
    requires n > 0 ==> (n - 1) * perPage <= MAX_INT64
    ensures FirstPages(rows, perPage, n) == rows[..Clip(n * perPage, |rows|)]
  {
    if n > 0 {
      var offset := (n - 1) * perPage;
      assert n * perPage == offset + perPage;
      if n > 1 {
        Monotone(n - 2, n - 1, perPage);
      }
      FirstPagesArePrefix(rows, perPage, n - 1);
      PageIs(rows, Params(n, perPage), offset);
      JoinSlices(rows, Clip(offset, |rows|), Clip(offset + perPage, |rows|));
    }
  }

  lemma JoinSlices<T>(rows: seq<T>, i: nat, j: nat)
    requires i <= j <= |rows|
    ensures rows[..i] + rows[i..j] == rows[..j]
  {
  }

  // The pages up to the last one a client computes from the total show every row
  // exactly once, in order, and every page after that is empty.
  lemma PagesPartition<T>(rows: seq<T>, perPage: nat)
    requires 1 <= perPage <= MAX_PER_PAGE && |rows| <= MAX_INT64
    ensures PageCount(|rows|, perPage) <= MAX_INT64
    ensures FirstPages(rows, perPage, PageCount(|rows|, perPage)) == rows
    ensures forall n :: PageCount(|rows|, perPage) < n <= MAX_INT64 && (n - 1) * perPage <= MAX_INT64 ==>
      Page(rows, Params(n, perPage)) == Some([])
  {
    CountFits(|rows|, perPage);
    FirstPagesArePrefix(rows, perPage, PageCount(|rows|, perPage));
    assert rows[..|rows|] == rows;
    forall n | PageCount(|rows|, perPage) < n <= MAX_INT64 && (n - 1) * perPage <= MAX_INT64
      ensures Page(rows, Params(n, perPage)) == Some([])
    {
      BeyondLast(rows, perPage, n);
    }
  }

  lemma BeyondLast<T>(rows: seq<T>, perPage: nat, n: nat)
    requires 1 <= perPage <= MAX_PER_PAGE
    requires PageCount(|rows|, perPage) < n <= MAX_INT64 && (n - 1) * perPage <= MAX_INT64
    ensures Page(rows, Params(n, perPage)) == Some([])
  {
    CountFits(|rows|, perPage);
    Monotone(PageCount(|rows|, perPage), n - 1, perPage);
    PageIs(rows, Params(n, perPage), (n - 1) * perPage);
    assert rows[|rows|..|rows|] == [];
  }

  lemma CountFits(total: nat, perPage: nat)
    requires perPage > 0
    ensures var count := PageCount(total, perPage);
      && count <= total
      && total <= count * perPage
      && (count > 0 ==> (count - 1) * perPage < total)
  {
    var count := PageCount(total, perPage);
    DivisionRest(total + perPage - 1, perPage);
    if count > 0 {
      assert (count - 1) * perPage == count * perPage - perPage;
      Monotone(1, perPage, count - 1);
    }
  }

  lemma DivisionRest(n: nat, d: nat)
    requires d > 0
    ensures n / d * d <= n < n / d * d + d
  {
  }

  lemma Monotone(a: int, b: int, c: int)
    requires a <= b && 0 <= c
    ensures a * c <= b * c
  {
  }
}
