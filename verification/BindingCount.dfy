/** The binding-count label: decimal text, parsed with strconv.ParseInt(label, 10, 32). */
module BindingCount {
  import opened OrderedSet

  const MAX_INT32 := 0x7fff_ffff
  const MAX_UINT32 := 0xffff_ffff

  // ----- strconv.ParseInt(s, 10, 32) -----

  /** `SyntaxError` and `RangeError` are the two errors; callers that ignore the error use `value`. */
  datatype Parsed = Ok(value: int) | SyntaxError(value: int) | RangeError(value: int)

  predicate IsDigit(c: char) { '0' <= c <= '9' }

  function DigitValue(c: char): (d: nat)
    requires IsDigit(c)
    ensures d <= 9
  {
    (c - '0') as int
  }

  /** The digits from left to right; the value is checked after every digit, so a number that is already too large
      hides a bad character further right. */
  function ParseDigits(s: string, acc: nat): Parsed
    requires acc <= MAX_UINT32
  {
    if s == "" then Ok(acc)
    else if !IsDigit(s[0]) then SyntaxError(0)
    else
      var n := 10 * acc + DigitValue(s[0]);
      if n > MAX_UINT32 then RangeError(MAX_UINT32) else ParseDigits(s[1..], n)
  }

  function ParseUint(s: string): Parsed {
    if s == "" then SyntaxError(0) else ParseDigits(s, 0)
  }

  function ParseInt(s: string): Parsed {
    if s == "" then SyntaxError(0)
    else
      var neg := s[0] == '-';
      var u := ParseUint(if s[0] == '-' || s[0] == '+' then s[1..] else s);
      if u.SyntaxError? then SyntaxError(0)
      else if !neg && u.value > MAX_INT32 then RangeError(MAX_INT32)
      else if neg && u.value > MAX_INT32 + 1 then RangeError(-(MAX_INT32 + 1))
      else Ok(if neg then -u.value else u.value)
  }

  /** Whatever the label says, the number that scale-in sorts by fits 32 bits, and is 0 for a bad label. */
  lemma ParsedFits(s: string)
    ensures -(MAX_INT32 + 1) <= ParseInt(s).value <= MAX_INT32
    ensures ParseInt(s).SyntaxError? ==> ParseInt(s).value == 0
    ensures ParseInt(s).RangeError? ==> ParseInt(s).value == MAX_INT32 || ParseInt(s).value == -(MAX_INT32 + 1)
  {
    if s != "" { DigitsNonNegative(if s[0] == '-' || s[0] == '+' then s[1..] else s, 0); }
  }

  lemma {:induction false} DigitsNonNegative(s: string, acc: nat)
    requires acc <= MAX_UINT32
    ensures 0 <= ParseDigits(s, acc).value <= MAX_UINT32
  {
    if s != "" && IsDigit(s[0]) && 10 * acc + DigitValue(s[0]) <= MAX_UINT32 {
      DigitsNonNegative(s[1..], 10 * acc + DigitValue(s[0]));
    }
  }

  // ----- what the digits mean -----

  predicate AllDigits(s: string) { forall i :: 0 <= i < |s| ==> '0' <= s[i] <= '9' }

  /** The number that a string of digits denotes. */
  function Value(s: string): nat
    requires AllDigits(s)
  {
    if s == "" then 0 else 10 * Value(s[..|s| - 1]) + (s[|s| - 1] - '0') as int
  }

  /** Reading digits from left to right gives the number they denote. */
  lemma {:induction false} DigitsDenote(s: string)
    requires AllDigits(s)
    ensures ParseDigits(s, 0) == if Value(s) <= MAX_UINT32 then Ok(Value(s)) else RangeError(MAX_UINT32)
  {
    if s != "" {
      var front, last := s[..|s| - 1], s[|s| - 1];
      DigitsDenote(front);
      ParseConcat(front, last, 0);
      assert s == front + [last];
    }
  }

  /** A bad character is reported unless the number is too large before it is reached. */
  lemma {:induction false} BadDigitIsNotOk(s: string, acc: nat)
    requires acc <= MAX_UINT32 && !AllDigits(s)
    ensures !ParseDigits(s, acc).Ok?
  {
    if IsDigit(s[0]) && 10 * acc + DigitValue(s[0]) <= MAX_UINT32 {
      assert !AllDigits(s[1..]) by {
        var i :| 0 <= i < |s| && !('0' <= s[i] <= '9');
        assert s[1..][i - 1] == s[i];
      }
      BadDigitIsNotOk(s[1..], 10 * acc + DigitValue(s[0]));
    }
  }

  /** The digits behind an optional sign. */
  function Unsigned(s: string): string {
    if s != "" && (s[0] == '-' || s[0] == '+') then s[1..] else s
  }

  /** ParseInt accepts exactly an optional sign and at least one digit that denote a number of 32 bits, and then returns
      that number; a number beyond that becomes the nearest one, and anything that is neither becomes 0 or a bound. */
  lemma ParsesIff(s: string)
    ensures ParseInt(s).Ok? <==>
            && Unsigned(s) != "" && AllDigits(Unsigned(s))
            && Value(Unsigned(s)) <= if s[0] == '-' then 0x8000_0000 else 0x7fff_ffff
    ensures ParseInt(s).Ok? ==> Value(Unsigned(s)) == if s[0] == '-' then -ParseInt(s).value else ParseInt(s).value
    ensures Unsigned(s) != "" && AllDigits(Unsigned(s)) && !ParseInt(s).Ok? ==>
            ParseInt(s) == RangeError(if s[0] == '-' then -0x8000_0000 else 0x7fff_ffff)
  {
    var u := Unsigned(s);
    if u != "" {
      if AllDigits(u) { DigitsDenote(u); } else { BadDigitIsNotOk(u, 0); DigitsNonNegative(u, 0); BadIsBad(s); }
    }
  }

  lemma BadIsBad(s: string)
    requires Unsigned(s) != "" && !ParseDigits(Unsigned(s), 0).Ok?
    ensures !ParseInt(s).Ok?
  {
    RangeIsMax(Unsigned(s), 0);
  }

  lemma {:induction false} RangeIsMax(s: string, acc: nat)
    requires acc <= MAX_UINT32
    ensures ParseDigits(s, acc).RangeError? ==> ParseDigits(s, acc).value == MAX_UINT32
  {
    if s != "" && IsDigit(s[0]) && 10 * acc + DigitValue(s[0]) <= MAX_UINT32 {
      RangeIsMax(s[1..], 10 * acc + DigitValue(s[0]));
    }
  }

  // ----- fmt.Sprint of a non-negative count -----

  function Print(n: nat): string {
    if n < 10 then [Digit(n)] else Print(n / 10) + [Digit(n % 10)]
  }

  function Digit(d: nat): char
    requires d <= 9
  {
    '0' + d as char
  }

  /** Reading digits one after the other. */
  lemma {:induction false} ParseConcat(a: string, c: char, acc: nat)
    requires acc <= MAX_UINT32
    ensures ParseDigits(a, acc).Ok? && IsDigit(c) ==>
              ParseDigits(a + [c], acc) ==
              var n := 10 * ParseDigits(a, acc).value + DigitValue(c);
              if n > MAX_UINT32 then RangeError(MAX_UINT32) else Ok(n)
    ensures ParseDigits(a, acc).RangeError? ==> ParseDigits(a + [c], acc) == ParseDigits(a, acc)
    ensures ParseDigits(a, acc).Ok? ==> ParseDigits(a, acc).value >= 0
  {
    if a == "" {
      assert a + [c] == [c];
    } else if IsDigit(a[0]) && 10 * acc + DigitValue(a[0]) <= MAX_UINT32 {
      ParseConcat(a[1..], c, 10 * acc + DigitValue(a[0]));
      assert (a + [c])[1..] == a[1..] + [c];
    }
  }

  /** A printed number is read back, or reported out of range, whichever is right for unsigned 32 bits. */
  lemma {:induction false} PrintedDigits(n: nat)
    ensures |Print(n)| > 0 && IsDigit(Print(n)[0])
    ensures ParseDigits(Print(n), 0) == if n <= MAX_UINT32 then Ok(n) else RangeError(MAX_UINT32)
  {
    if n >= 10 {
      PrintedDigits(n / 10);
      ParseConcat(Print(n / 10), Digit(n % 10), 0);
    } else {
      assert Print(n)[1..] == "";
    }
  }

  /** ParseInt undoes Print up to the largest signed 32-bit number and reports everything beyond it. */
  lemma ParseUndoesPrint(n: nat)
    ensures ParseInt(Print(n)) == if n <= MAX_INT32 then Ok(n) else RangeError(MAX_INT32)
  {
    PrintedDigits(n);
  }

  lemma ParseUndoesNegativePrint(n: nat)
    ensures n <= MAX_INT32 + 1 ==> ParseInt("-" + Print(n)) == Ok(0 - n)
    ensures n > MAX_INT32 + 1 ==> ParseInt("-" + Print(n)) == RangeError(-(MAX_INT32 + 1))
  {
    PrintedDigits(n);
    assert ("-" + Print(n))[1..] == Print(n);
  }

  // ----- the label over many borrows -----

  /** What Borrow makes of the label: one more than it says, or 1 when it is absent or does not parse. */
  function NextLabel(text: Option<string>): string {
    var parsed := if text.Some? then ParseInt(text.value) else SyntaxError(0);
    var count := if parsed.Ok? then parsed.value + 1 else 1;
    if count >= 0 then Print(count) else "-" + Print(-count)
  }

  function AfterBorrows(text: Option<string>, n: nat): Option<string> {
    if n == 0 then text else Some(NextLabel(AfterBorrows(text, n - 1)))
  }

  /** The count after `n` borrows. */
  function CountAfter(n: nat): nat
    requires n >= 1
  {
    (n - 1) % 0x8000_0000 + 1
  }

  lemma NextCount(n: nat)
    requires n >= 2
    ensures CountAfter(n) == if CountAfter(n - 1) <= MAX_INT32 then CountAfter(n - 1) + 1 else 1
  {
    var q, r := (n - 2) / 0x8000_0000, (n - 2) % 0x8000_0000;
    assert n - 2 == q * 0x8000_0000 + r;
  }

  /** One borrow after the label read `c`. */
  lemma NextOfPrinted(c: nat)
    ensures NextLabel(Some(Print(c))) == Print(if c <= MAX_INT32 then c + 1 else 1)
  {
    ParseUndoesPrint(c);
  }

  /** Whatever label a worker comes with, the label after a Borrow reads one more; it reads 1 when there was none or it
      did not parse, and is out of range after the largest number. */
  lemma NextLabelReads(text: Option<string>)
    ensures text.None? || !ParseInt(text.value).Ok? ==> ParseInt(NextLabel(text)) == Ok(1)
    ensures text.Some? && ParseInt(text.value).Ok? && ParseInt(text.value).value < MAX_INT32 ==>
            ParseInt(NextLabel(text)) == Ok(ParseInt(text.value).value + 1)
    ensures text.Some? && ParseInt(text.value) == Ok(MAX_INT32) ==>
            ParseInt(NextLabel(text)) == RangeError(MAX_INT32)
  {
    if text.Some? { ParsedFits(text.value); }
    var count := if text.Some? && ParseInt(text.value).Ok? then ParseInt(text.value).value + 1 else 1;
    if count >= 0 { ParseUndoesPrint(count); } else { ParseUndoesNegativePrint(-count); }
  }

  /** After n borrows of a worker that came without the label, the label reads ((n - 1) mod 2^31) + 1. */
  lemma {:induction false} CountWrapsAround(n: nat)
    requires n >= 1
    ensures AfterBorrows(None, n) == Some(Print(CountAfter(n)))
  {
    if n == 1 {
      assert AfterBorrows(None, 0) == None;
    } else {
      CountWrapsAround(n - 1);
      NextOfPrinted(CountAfter(n - 1));
      NextCount(n);
    }
  }
}
