/** The string operations the saved-query handlers take from Go's standard
    library: joining with a separator (strings.Join), substring search
    (strings.Contains) and decimal integer parsing (strconv.Atoi, on a
    64-bit platform), each with the facts the handlers rely on. */
module Text {
  import opened Wrappers

  /** Total length of the parts. */
  function TotalLength(parts: seq<string>): nat {
    if parts == [] then 0 else |parts[0]| + TotalLength(parts[1..])
  }

  /** The parts joined into one string, `sep` between each neighbouring pair:
      as long as its parts plus one separator per gap. */
  function Join(parts: seq<string>, sep: string): (r: string)
    ensures parts != [] ==> |r| == TotalLength(parts) + (|parts| - 1) * |sep|
  {
    if |parts| == 0 then ""
    else if |parts| == 1 then assert parts[1..] == []; parts[0]
    else parts[0] + sep + Join(parts[1..], sep)
  }

  /** Appending one more part adds one separator and that part. */
  lemma {:induction false} JoinSnoc(parts: seq<string>, last: string, sep: string)
    requires parts != []
    ensures Join(parts + [last], sep) == Join(parts, sep) + sep + last
  {
    if |parts| == 1 {
      assert (parts + [last])[1..] == [last];
    } else {
      assert (parts + [last])[1..] == parts[1..] + [last];
      JoinSnoc(parts[1..], last, sep);
    }
  }

  /** With a non-empty separator, a join is empty exactly when there is
      nothing to join or a single empty part. */
  lemma JoinEmpty(parts: seq<string>, sep: string)
    requires sep != ""
    ensures Join(parts, sep) == "" <==> parts == [] || parts == [""]
  {
    if |parts| > 1 {
      assert |Join(parts, sep)| >= |sep|;
    }
  }

  /** `sub` occurs in `s` starting at position `i`. */
  predicate OccursAt(s: string, sub: string, i: int) {
    0 <= i <= |s| - |sub| && s[i..i + |sub|] == sub
  }

  /** `sub` occurs somewhere in `s`, so never when it is longer than `s`. */
  predicate Contains(s: string, sub: string)
    ensures Contains(s, sub) ==> |sub| <= |s|
  {
    exists i :: 0 <= i <= |s| - |sub| && OccursAt(s, sub, i)
  }

  /** A string contains whatever is spliced into it. */
  lemma ContainsSpliced(prefix: string, sub: string, suffix: string)
    ensures Contains(prefix + sub + suffix, sub)
  {
    var s := prefix + sub + suffix;
    assert OccursAt(s, sub, |prefix|);
  }

  const MinInt: int := -0x8000_0000_0000_0000
  const MaxInt: int := 0x7fff_ffff_ffff_ffff

  predicate IsDigit(c: char) {
    '0' <= c <= '9'
  }

  predicate AllDigits(s: string) {
    forall i :: 0 <= i < |s| ==> IsDigit(s[i])
  }

  /** The value a decimal digit string denotes, read most significant first. */
  function DigitsValue(s: string): (r: nat)
    requires AllDigits(s)
  {
    if s == [] then 0
    else DigitsValue(s[..|s| - 1]) * 10 + (s[|s| - 1] as int - '0' as int)
  }

  /** The value of a signed magnitude when it fits a 64-bit int. */
  function Signed(digits: string, negative: bool): (r: Option<int>)
    ensures r.Some? ==> MinInt <= r.value <= MaxInt
  {
    if digits == [] || !AllDigits(digits) then None
    else
      var n: int := DigitsValue(digits);
      var v := if negative then -n else n;
      if MinInt <= v <= MaxInt then Some(v) else None
  }

  /** strconv.Atoi: an optional sign, then one or more decimal digits and
      nothing else (no blanks, no underscores, no base prefix), whose value
      fits in a 64-bit int. Any failure, syntax or range, is None. */
  function Atoi(s: string): (r: Option<int>)
    ensures r.Some? ==> MinInt <= r.value <= MaxInt
    ensures r.Some? ==> s != [] && IsDigit(s[|s| - 1])
  {
    if s == [] then None
    else if s[0] == '+' then Signed(s[1..], false)
    else if s[0] == '-' then Signed(s[1..], true)
    else Signed(s, false)
  }

  /** The decimal digits of `n`, without leading zeros. */
  function Decimal(n: nat): (r: string)
    ensures r != []
  {
    if n < 10 then [('0' as int + n) as char]
    else Decimal(n / 10) + [('0' as int + n % 10) as char]
  }

  /** strconv.Itoa: the decimal form of `n`, with '-' in front when negative. */
  function Itoa(n: int): (r: string) {
    if n < 0 then "-" + Decimal(-n) else Decimal(n)
  }

  /** The decimal form of `n` is made of digits and reads back as `n`. */
  lemma {:induction false} DecimalValue(n: nat)
    ensures AllDigits(Decimal(n)) && DigitsValue(Decimal(n)) == n
  {
    if n >= 10 {
      DecimalValue(n / 10);
      var d := Decimal(n);
      assert d[..|d| - 1] == Decimal(n / 10);
    }
  }

  /** Atoi reads back every int that Itoa writes. */
  lemma AtoiItoa(n: int)
    requires MinInt <= n <= MaxInt
    ensures Atoi(Itoa(n)) == Some(n)
  {
    if n < 0 {
      var d := Decimal(-n);
      DecimalValue(-n);
      var s := "-" + d;
      assert s[0] == '-' && s[1..] == d;
      assert Signed(d, true) == Some(n);
    } else {
      var d := Decimal(n);
      DecimalValue(n);
      assert d[0] != '+' && d[0] != '-' by { assert IsDigit(d[0]); }
      assert Signed(d, false) == Some(n);
    }
  }

  /** Ids that are not plain decimal integers are refused. */
  lemma AtoiRejects()
    ensures Atoi("") == None && Atoi("-") == None && Atoi("+") == None
    ensures Atoi("12a") == None && Atoi("1_000") == None && Atoi(" 7") == None
  {
    assert !AllDigits("12a") by { assert !IsDigit("12a"[2]); }
    assert !AllDigits("1_000") by { assert !IsDigit("1_000"[1]); }
    assert !AllDigits(" 7") by { assert !IsDigit(" 7"[0]); }
  }
}
