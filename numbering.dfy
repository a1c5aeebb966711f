/** Estimate numbers `EST-YYYYMMDD-NNNN`: the next number of the day is the
    sequence of the day's latest number plus one, zero-padded to at least four
    digits (backend/routes/estimates.py, generate_estimate_number).

    The database lookup "latest number with today's prefix" is modelled over the
    sequence of numbers already stored; the date is a parameter (the source reads
    the clock). */
module EstimateNumbers {
  import opened Common

  // ---------------------------------------------------------------------------
  // Decimal digits

  predicate IsDigit(c: char) {
    '0' <= c <= '9'
  }

  predicate AllDigits(s: string) {
    forall i :: 0 <= i < |s| ==> IsDigit(s[i])
  }

  function DigitChar(d: nat): (c: char)
    requires d < 10
    ensures IsDigit(c)
  {
    ('0' as int + d) as char
  }

  function DigitValue(c: char): nat
    requires IsDigit(c)
  {
    c as int - '0' as int
  }

  /** The decimal digits of `n`, most significant first, without leading zeros. */
  function Digits(n: nat): (s: string)
    ensures |s| >= 1 && AllDigits(s)
    decreases n
  {
    if n < 10 then [DigitChar(n)] else Digits(n / 10) + [DigitChar(n % 10)]
  }

  /** The number a string of decimal digits denotes (leading zeros allowed). */
  function DigitsValue(s: string): nat
    requires AllDigits(s)
    decreases |s|
  {
    if s == [] then 0 else DigitsValue(s[..|s| - 1]) * 10 + DigitValue(s[|s| - 1])
  }

  /** Python's `int(s)` on the texts the generator meets: a non-empty run of
      ASCII digits parses, anything else raises (modelled as None). */
  function ParseInt(s: string): (r: Option<nat>)
    ensures r.Some? <==> s != [] && AllDigits(s)
  {
    if s != [] && AllDigits(s) then Some(DigitsValue(s)) else None
  }

  function Zeros(k: nat): (s: string)
    ensures |s| == k && AllDigits(s)
    ensures forall i :: 0 <= i < k ==> s[i] == '0'
  {
    seq(k, _ => '0')
  }

  lemma {:induction false} DigitsRoundTrip(n: nat)
    ensures DigitsValue(Digits(n)) == n
    decreases n
  {
    if n >= 10 {
      var s := Digits(n);
      assert s[..|s| - 1] == Digits(n / 10);
      DigitsRoundTrip(n / 10);
    }
  }

  lemma {:induction false} ZerosValue(k: nat)
    ensures DigitsValue(Zeros(k)) == 0
  {
    if k > 0 {
      assert Zeros(k)[..k - 1] == Zeros(k - 1);
      ZerosValue(k - 1);
    }
  }

  /** Leading zeros do not change the value of a digit string. */
  lemma {:induction false} LeadingZerosValue(k: nat, s: string)
    requires AllDigits(s)
    ensures AllDigits(Zeros(k) + s)
    ensures DigitsValue(Zeros(k) + s) == DigitsValue(s)
    decreases |s|
  {
    var t := Zeros(k) + s;
    if s == [] {
      assert t == Zeros(k);
      ZerosValue(k);
    } else {
      assert t[..|t| - 1] == Zeros(k) + s[..|s| - 1];
      LeadingZerosValue(k, s[..|s| - 1]);
    }
  }

  /** `f'{n:04d}'`: `n` in decimal, left-padded with '0' to at least four
      characters; parsing the text back gives `n`. */
  function Pad4(n: nat): (s: string)
    ensures |s| >= 4 && AllDigits(s)
    ensures |s| == if |Digits(n)| < 4 then 4 else |Digits(n)|
    ensures ParseInt(s) == Some(n)
  {
    var d := Digits(n);
    DigitsRoundTrip(n);
    if |d| < 4 then
      LeadingZerosValue(4 - |d|, d);
      Zeros(4 - |d|) + d
    else
      d
  }

  // ---------------------------------------------------------------------------
  // The last '-'-separated field

  /** `s.split('-')[-1]`: the text after the last '-', or all of `s` when it
      holds none. */
  function LastField(s: string): string
    decreases |s|
  {
    if s == [] then []
    else if s[|s| - 1] == '-' then []
    else LastField(s[..|s| - 1]) + [s[|s| - 1]]
  }

  /** The last field is a suffix with no '-' in it, preceded by a '-' unless
      it is the whole text. */
  lemma {:induction false} LastFieldIsLastDashFree(s: string)
    ensures var f := LastField(s);
            |f| <= |s| && f == s[|s| - |f|..] && '-' !in f && (|f| < |s| ==> s[|s| - |f| - 1] == '-')
    decreases |s|
  {
    if s != [] && s[|s| - 1] != '-' {
      var t := s[..|s| - 1];
      var g := LastField(t);
      LastFieldIsLastDashFree(t);
      assert t[|t| - |g|..] + [s[|s| - 1]] == s[|s| - |g| - 1..];
    }
  }

  lemma {:induction false} LastFieldAfterDash(p: string, d: string)
    requires |p| > 0 && p[|p| - 1] == '-'
    requires '-' !in d
    ensures LastField(p + d) == d
    decreases |d|
  {
    if d == [] {
      assert p + d == p;
    } else {
      var s := p + d;
      assert s[..|s| - 1] == p + d[..|d| - 1];
      assert d[|d| - 1] in d;
      LastFieldAfterDash(p, d[..|d| - 1]);
    }
  }

  lemma DigitsHaveNoDash(s: string)
    requires AllDigits(s)
    ensures '-' !in s
  {
    forall i | 0 <= i < |s|
      ensures s[i] != '-'
    {
      assert IsDigit(s[i]);
    }
  }

  // ---------------------------------------------------------------------------
  // The order in which the database sorts estimate numbers

  /** String order: character by character, a proper prefix first. */
  predicate LexLeq(a: string, b: string)
    decreases |a|
  {
    a == [] || (b != [] && (a[0] < b[0] || (a[0] == b[0] && LexLeq(a[1..], b[1..]))))
  }

  lemma {:induction false} LexTotal(a: string, b: string)
    ensures LexLeq(a, b) || LexLeq(b, a)
    decreases |a|
  {
    if a != [] && b != [] && a[0] == b[0] {
      LexTotal(a[1..], b[1..]);
    }
  }

  lemma {:induction false} LexTransitive(a: string, b: string, c: string)
    requires LexLeq(a, b) && LexLeq(b, c)
    ensures LexLeq(a, c)
    decreases |a|
  {
    if a != [] && a[0] == b[0] && b[0] == c[0] {
      LexTransitive(a[1..], b[1..], c[1..]);
    }
  }

  /** A common prefix does not change how two strings compare. */
  lemma {:induction false} LexCommonPrefix(p: string, a: string, b: string)
    ensures LexLeq(p + a, p + b) <==> LexLeq(a, b)
    decreases |p|
  {
    if p != [] {
      assert (p + a)[1..] == p[1..] + a;
      assert (p + b)[1..] == p[1..] + b;
      LexCommonPrefix(p[1..], a, b);
    } else {
      assert p + a == a && p + b == b;
    }
  }

  // ---------------------------------------------------------------------------
  // generate_estimate_number, as written

  function Prefix(date: string): (p: string)
    ensures |p| == |date| + 5 && p[|p| - 1] == '-'
  {
    "EST-" + date + "-"
  }

  /** `filter(number LIKE prefix%).order_by(number.desc()).first()`: the first
      of the greatest numbers starting with `prefix`, None when there is none. */
  function Latest(existing: seq<string>, prefix: string): (r: Option<string>)
    ensures r.None? <==> forall i :: 0 <= i < |existing| ==> !(prefix <= existing[i])
    ensures r.Some? ==> r.value in existing && prefix <= r.value
    decreases |existing|
  {
    if existing == [] then None
    else
      var rest := Latest(existing[1..], prefix);
      var x := existing[0];
      assert forall i :: 1 <= i < |existing| ==> existing[i] == existing[1..][i - 1];
      if !(prefix <= x) then rest
      else if rest.Some? && LexLeq(x, rest.value) then rest
      else Some(x)
  }

  /** The number Latest picks is the greatest in string order. */
  lemma {:induction false} LatestIsGreatest(existing: seq<string>, prefix: string, x: string)
    requires x in existing && prefix <= x
    ensures Latest(existing, prefix).Some?
    ensures LexLeq(x, Latest(existing, prefix).value)
    decreases |existing|
  {
    var rest := Latest(existing[1..], prefix);
    var y := existing[0];
    var r := Latest(existing, prefix).value;
    if x == y {
      if rest.Some? && LexLeq(y, rest.value) {
      } else {
        LexTotal(y, y);
      }
    } else {
      assert x in existing[1..];
      LatestIsGreatest(existing[1..], prefix, x);
      if prefix <= y && !(rest.Some? && LexLeq(y, rest.value)) {
        LexTotal(y, rest.value);
        LexTransitive(x, rest.value, y);
      }
    }
  }

  /** The sequence the source derives: 1 when no number has today's prefix or
      the latest one's last field does not parse, else that field plus one. */
  function SequenceAsWritten(date: string, existing: seq<string>): nat {
    match Latest(existing, Prefix(date))
    case None => 1
    case Some(latest) =>
      match ParseInt(LastField(latest))
      case None => 1
      case Some(n) => n + 1
  }

  /** `generate_estimate_number` as the source writes it: today's prefix
      followed by the padded sequence, which is what the number's own last
      field parses back to. */
  function GenerateNumberAsWritten(date: string, existing: seq<string>): (r: string)
    ensures r == Prefix(date) + Pad4(SequenceAsWritten(date, existing))
    ensures Prefix(date) <= r && |r| >= |Prefix(date)| + 4
    ensures ParseInt(LastField(r)) == Some(SequenceAsWritten(date, existing))
  {
    var p := Prefix(date);
    var s := Pad4(SequenceAsWritten(date, existing));
    DigitsHaveNoDash(s);
    LastFieldAfterDash(p, s);
    p + s
  }

  // ---------------------------------------------------------------------------
  // The generator with the sequence taken as a number

  /** The sequence a stored number carries for the day `prefix` names: its
      last field, when it has the prefix and the field parses. */
  function IssuedSequence(x: string, prefix: string): Option<nat> {
    if prefix <= x then ParseInt(LastField(x)) else None
  }

  /** The greatest sequence issued under `prefix`, 0 when there is none. */
  function MaxSequence(existing: seq<string>, prefix: string): nat
    decreases |existing|
  {
    if existing == [] then 0
    else
      var rest := MaxSequence(existing[1..], prefix);
      var issued := IssuedSequence(existing[0], prefix);
      if issued.Some? && issued.value > rest then issued.value else rest
  }

  /** MaxSequence bounds every sequence issued under the prefix ... */
  lemma {:induction false} MaxSequenceBounds(existing: seq<string>, prefix: string, i: nat)
    requires i < |existing| && IssuedSequence(existing[i], prefix).Some?
    ensures IssuedSequence(existing[i], prefix).value <= MaxSequence(existing, prefix)
    decreases |existing|
  {
    if i > 0 {
      assert existing[i] == existing[1..][i - 1];
      MaxSequenceBounds(existing[1..], prefix, i - 1);
    }
  }

  /** ... and is one of them, unless none was issued. */
  lemma {:induction false} MaxSequenceAttained(existing: seq<string>, prefix: string)
    ensures var m := MaxSequence(existing, prefix);
            m == 0 || exists i :: 0 <= i < |existing| && IssuedSequence(existing[i], prefix) == Some(m)
    decreases |existing|
  {
    if existing != [] {
      var m := MaxSequence(existing, prefix);
      var rest := MaxSequence(existing[1..], prefix);
      MaxSequenceAttained(existing[1..], prefix);
      if m == rest && rest != 0 {
        var j :| 0 <= j < |existing[1..]| && IssuedSequence(existing[1..][j], prefix) == Some(rest);
        assert existing[j + 1] == existing[1..][j];
      }
    }
  }

  /** The next estimate number, reading the day's sequence numerically: it
      has today's prefix, its sequence is one past the greatest issued today,
      and it differs from every number already issued. */
  function NextNumber(date: string, existing: seq<string>): (r: string)
    ensures r == Prefix(date) + Pad4(MaxSequence(existing, Prefix(date)) + 1)
    ensures Prefix(date) <= r && |r| >= |Prefix(date)| + 4
    ensures ParseInt(LastField(r)) == Some(MaxSequence(existing, Prefix(date)) + 1)
    ensures r !in existing
  {
    var p := Prefix(date);
    var n := MaxSequence(existing, p) + 1;
    var s := Pad4(n);
    DigitsHaveNoDash(s);
    LastFieldAfterDash(p, s);
    NotYetIssued(existing, p, s);
    p + s
  }

  lemma NotYetIssued(existing: seq<string>, p: string, s: string)
    requires |p| > 0 && p[|p| - 1] == '-' && '-' !in s
    requires ParseInt(s) == Some(MaxSequence(existing, p) + 1)
    ensures p + s !in existing
  {
    LastFieldAfterDash(p, s);
    if p + s in existing {
      var i :| 0 <= i < |existing| && existing[i] == p + s;
      MaxSequenceBounds(existing, p, i);
    }
  }

  // ---------------------------------------------------------------------------
  // Consequences

  lemma Pad4Small()
    ensures Pad4(1) == "0001" && Pad4(2) == "0002"
  {
    assert Digits(1) == "1" && Digits(2) == "2";
    assert Zeros(3) == "000";
  }

  /** The first number of a day parses back to 1. */
  lemma FirstOfTheDayParses(date: string)
    ensures IssuedSequence(Prefix(date) + "0001", Prefix(date)) == Some(1)
  {
    IssuedSequenceOf(Prefix(date), "0001");
    assert DigitsValue("0001") == 1 by {
      assert "0001"[..3] == "000";
      ZerosValue(3);
      assert Zeros(3) == "000";
    }
  }

  /** The first number of a day ends in 0001 and the second in 0002. */
  lemma {:induction false} FirstTwoOfTheDay(date: string)
    ensures NextNumber(date, []) == Prefix(date) + "0001"
    ensures NextNumber(date, [Prefix(date) + "0001"]) == Prefix(date) + "0002"
  {
    Pad4Small();
    var p := Prefix(date);
    FirstOfTheDayParses(date);
    assert [p + "0001"][1..] == [];
    assert MaxSequence([p + "0001"], p) == 1;
    NextNumberFromMax(date, [], 1);
    NextNumberFromMax(date, [p + "0001"], 2);
  }

  /** The generator as written agrees on the first two numbers of a day. */
  lemma {:induction false} FirstTwoOfTheDayAsWritten(date: string)
    ensures GenerateNumberAsWritten(date, []) == Prefix(date) + "0001"
    ensures GenerateNumberAsWritten(date, [Prefix(date) + "0001"]) == Prefix(date) + "0002"
  {
    Pad4Small();
    var p := Prefix(date);
    FirstOfTheDayParses(date);
    assert [p + "0001"][1..] == [];
    assert Latest([p + "0001"], p) == Some(p + "0001");
  }

  lemma NineNineNineNine()
    ensures DigitsValue("9999") == 9999
  {
    assert "9999"[..3] == "999" && "999"[..2] == "99" && "99"[..1] == "9" && "9"[..0] == "";
  }

  lemma TenThousand()
    ensures Pad4(10000) == "10000"
  {
    assert Digits(1) == "1";
    assert Digits(10) == "10";
    assert Digits(100) == "100";
    assert Digits(1000) == "1000";
    assert Digits(10000) == "10000";
  }

  lemma TenThousandOne()
    ensures Pad4(10001) == "10001"
  {
    assert Digits(1) == "1";
    assert Digits(10) == "10";
    assert Digits(100) == "100";
    assert Digits(1000) == "1000";
    assert Digits(10001) == "10001";
  }

  /** A number made of the day's prefix and a digit string carries that
      string's value as its sequence. */
  lemma IssuedSequenceOf(p: string, d: string)
    requires |p| > 0 && p[|p| - 1] == '-'
    requires d != [] && AllDigits(d)
    ensures IssuedSequence(p + d, p) == Some(DigitsValue(d))
  {
    assert (p + d)[..|p|] == p;
    DigitsHaveNoDash(d);
    LastFieldAfterDash(p, d);
  }

  lemma TenThousandValue()
    ensures DigitsValue("10000") == 10000
  {
    assert "10000"[..4] == "1000" && "1000"[..3] == "100" && "100"[..2] == "10" && "10"[..1] == "1";
    assert "1"[..0] == "";
  }

  /** After "-9999" and "-10000" the latest number in string order is
      "-9999". */
  lemma {:induction false} LatestPast9999(p: string)
    ensures Latest([p + "9999", p + "10000"], p) == Some(p + "9999")
  {
    var a, b := p + "9999", p + "10000";
    assert a[..|p|] == p && b[..|p|] == p;
    LexCommonPrefix(p, "9999", "10000");
    assert !LexLeq("9999", "10000");
    assert [b][1..] == [];
    assert Latest([b], p) == Some(b);
    assert [a, b][1..] == [b];
  }

  lemma GenerateFromSequence(date: string, existing: seq<string>, n: nat)
    requires SequenceAsWritten(date, existing) == n
    ensures GenerateNumberAsWritten(date, existing) == Prefix(date) + Pad4(n)
  {
  }

  /** Past 9999 the source's generator repeats itself: "EST-d-9999" sorts
      after "EST-d-10000", so once "EST-d-10000" exists it is generated
      again, on any day d. */
  lemma {:induction false} AsWrittenRepeatsAfter9999(date: string)
    ensures var p := Prefix(date);
            GenerateNumberAsWritten(date, [p + "9999", p + "10000"]) == p + "10000"
            && GenerateNumberAsWritten(date, [p + "9999", p + "10000"]) in [p + "9999", p + "10000"]
  {
    var p := Prefix(date);
    LatestPast9999(p);
    IssuedSequenceOf(p, "9999");
    NineNineNineNine();
    assert SequenceAsWritten(date, [p + "9999", p + "10000"]) == 10000;
    GenerateFromSequence(date, [p + "9999", p + "10000"], 10000);
    TenThousand();
  }

  /** The greatest sequence on that table is 10000. */
  lemma {:induction false} MaxSequencePast9999(p: string)
    requires |p| > 0 && p[|p| - 1] == '-'
    ensures MaxSequence([p + "9999", p + "10000"], p) == 10000
  {
    var a, b := p + "9999", p + "10000";
    IssuedSequenceOf(p, "9999");
    IssuedSequenceOf(p, "10000");
    NineNineNineNine();
    TenThousandValue();
    assert [b][1..] == [];
    assert MaxSequence([b], p) == 10000;
    assert [a, b][1..] == [b];
  }

  lemma NextNumberFromMax(date: string, existing: seq<string>, n: nat)
    requires MaxSequence(existing, Prefix(date)) + 1 == n
    ensures NextNumber(date, existing) == Prefix(date) + Pad4(n)
  {
  }

  /** On the same table the numeric reading issues "EST-d-10001", which is
      fresh. */
  lemma {:induction false} NextNumberPast9999(date: string)
    ensures var p := Prefix(date);
            NextNumber(date, [p + "9999", p + "10000"]) == p + "10001"
            && NextNumber(date, [p + "9999", p + "10000"]) !in [p + "9999", p + "10000"]
  {
    var p := Prefix(date);
    MaxSequencePast9999(p);
    TenThousandOne();
    NextNumberFromMax(date, [p + "9999", p + "10000"], 10001);
  }
}
