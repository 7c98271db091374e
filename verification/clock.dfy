/** The `MM:SS` text of the timer face: whole minutes and the seconds left over,
    each written in decimal and left-padded with '0' to at least two characters. */
module Clock {

  datatype Option<T> = None | Some(value: T)

  predicate IsDigit(c: char) { '0' <= c <= '9' }

  predicate AllDigits(s: string) { forall i :: 0 <= i < |s| ==> IsDigit(s[i]) }

  function DigitChar(d: nat): (c: char)
    requires d < 10
    ensures IsDigit(c) && c as int - '0' as int == d
  {
    ('0' as int + d) as char
  }

  function DigitValue(c: char): (d: nat)
    requires IsDigit(c)
  {
    c as int - '0' as int
  }

  /** The decimal text of a non-negative integer, as `Number.prototype.toString`
      writes it. */
  function Decimal(n: nat): (r: string)
  {
    if n < 10 then [DigitChar(n)] else Decimal(n / 10) + [DigitChar(n % 10)]
  }

  /** The decimal text is not empty and has no leading zero; it is one
      character long exactly below ten and at most two below a hundred. That
      it is a run of digits denoting `n` is `ValueOfDecimal`. */
  lemma {:induction false} DecimalShape(n: nat)
    ensures 1 <= |Decimal(n)|
    ensures n >= 10 ==> Decimal(n)[0] != '0'
    ensures |Decimal(n)| == 1 <==> n < 10
    ensures n < 100 ==> |Decimal(n)| <= 2
  {
    if n >= 10 {
      DecimalShape(n / 10);
    }
  }

  /** The number a string of decimal digits denotes; leading zeros are allowed. */
  function Value(s: string): (v: nat)
    requires AllDigits(s)
  {
    if s == [] then 0 else Value(s[..|s| - 1]) * 10 + DigitValue(s[|s| - 1])
  }

  /** `padStart(2, '0')`: a text shorter than two characters gets zeros in
      front. */
  function PadStart2(s: string): (r: string)
  {
    if |s| == 0 then "00" else if |s| == 1 then "0" + s else s
  }

  /** Padding gives at least two characters, keeps the text as the tail and
      puts only zeros in front of it. */
  lemma PaddedShape(s: string)
    ensures var r := PadStart2(s);
      && |r| == (if |s| < 2 then 2 else |s|)
      && r[|r| - |s|..] == s
      && forall i :: 0 <= i < |r| - |s| ==> r[i] == '0'
  {
  }

  /** What `updateDisplay` writes on the timer face for `remaining` seconds:
      the whole minutes and the seconds left over, both padded, around a
      colon. The face is five characters long below 100 minutes. */
  function Format(remaining: nat): (r: string)
    ensures |r| >= 5 && r[|r| - 3] == ':'
    ensures remaining < 6000 ==> |r| == 5
  {
    var minutes := PadStart2(Decimal(remaining / 60));
    var seconds := PadStart2(Decimal(remaining % 60));
    DecimalShape(remaining / 60);
    DecimalShape(remaining % 60);
    PaddedShape(Decimal(remaining / 60));
    PaddedShape(Decimal(remaining % 60));
    minutes + ":" + seconds
  }

  /** The text before the colon of a face. */
  function MinutesField(s: string): (field: string)
    requires |s| >= 3
  {
    s[..|s| - 3]
  }

  /** The two characters after the colon of a face. */
  function SecondsField(s: string): (field: string)
    requires |s| >= 3
  {
    s[|s| - 2..]
  }

  /** Reads a face back: a minutes field of at least two digits, a colon and a
      seconds field of exactly two digits below 60. */
  function Parse(s: string): (count: Option<nat>)
  {
    if |s| >= 5 && s[|s| - 3] == ':' && AllDigits(MinutesField(s))
       && AllDigits(SecondsField(s)) && Value(SecondsField(s)) < 60
    then Some(Value(MinutesField(s)) * 60 + Value(SecondsField(s)))
    else None
  }

  /** The decimal text is all digits and reads back as the number it was
      written from. */
  lemma {:induction false} ValueOfDecimal(n: nat)
    ensures AllDigits(Decimal(n)) && Value(Decimal(n)) == n
  {
    if n >= 10 {
      var s := Decimal(n);
      assert s[..|s| - 1] == Decimal(n / 10);
      ValueOfDecimal(n / 10);
    }
  }

  lemma {:induction false} ValueOfLeadingZeros(s: string, k: nat)
    requires AllDigits(s) && k <= |s|
    requires forall i :: 0 <= i < k ==> s[i] == '0'
    ensures AllDigits(s[k..]) && Value(s) == Value(s[k..])
  {
    if k < |s| {
      var t := s[..|s| - 1];
      assert t[k..] == s[k..][..|s[k..]| - 1];
      ValueOfLeadingZeros(t, k);
    } else {
      if s != [] {
        var t := s[..|s| - 1];
        ValueOfLeadingZeros(t, |t|);
      }
    }
  }

  /** A padded decimal text reads back as the number it was made from. */
  lemma PaddedValue(n: nat)
    ensures AllDigits(PadStart2(Decimal(n)))
    ensures Value(PadStart2(Decimal(n))) == n
  {
    var d := Decimal(n);
    var p := PadStart2(d);
    DecimalShape(n);
    PaddedShape(d);
    ValueOfDecimal(n);
    assert AllDigits(p);
    ValueOfLeadingZeros(p, |p| - |d|);
    assert p[|p| - |d|..] == d;
  }

  lemma FieldsOf(a: string, b: string)
    requires |b| == 2
    ensures var s := a + ":" + b;
      |s| == |a| + 3 && s[|s| - 3] == ':' && MinutesField(s) == a && SecondsField(s) == b
  {
  }

  lemma FaceFields(minutes: nat, seconds: nat)
    requires seconds < 60
    ensures var s := PadStart2(Decimal(minutes)) + ":" + PadStart2(Decimal(seconds));
      && |SecondsField(s)| == 2 && |MinutesField(s)| >= 2
      && AllDigits(SecondsField(s)) && Value(SecondsField(s)) == seconds
      && AllDigits(MinutesField(s)) && Value(MinutesField(s)) == minutes
  {
    DecimalShape(minutes);
    DecimalShape(seconds);
    PaddedShape(Decimal(minutes));
    PaddedShape(Decimal(seconds));
    FieldsOf(PadStart2(Decimal(minutes)), PadStart2(Decimal(seconds)));
    PaddedValue(minutes);
    PaddedValue(seconds);
  }

  /** Around the colon, the face has a minutes field of at least two digits
      and a two-digit seconds field in 00..59, and the two fields add back up to the
      remaining seconds. */
  lemma FormatFields(remaining: nat)
    ensures var s := Format(remaining);
      && |SecondsField(s)| == 2 && |MinutesField(s)| >= 2
      && AllDigits(SecondsField(s)) && AllDigits(MinutesField(s))
      && Value(SecondsField(s)) < 60
      && Value(MinutesField(s)) * 60 + Value(SecondsField(s)) == remaining
  {
    FaceFields(remaining / 60, remaining % 60);
  }

  /** Reading the face back gives the remaining seconds. */
  lemma FormatRoundTrip(remaining: nat)
    ensures Parse(Format(remaining)) == Some(remaining)
  {
    FormatFields(remaining);
    ParseFields(Format(remaining), remaining);
  }

  lemma ParseFields(s: string, n: nat)
    requires |s| >= 5 && s[|s| - 3] == ':'
    requires AllDigits(MinutesField(s)) && AllDigits(SecondsField(s))
    requires Value(SecondsField(s)) < 60
    requires Value(MinutesField(s)) * 60 + Value(SecondsField(s)) == n
    ensures Parse(s) == Some(n)
  {
  }

  /** Two different counts never show the same face. */
  lemma FormatInjective(a: nat, b: nat)
    requires Format(a) == Format(b)
    ensures a == b
  {
    FormatRoundTrip(a);
    FormatRoundTrip(b);
  }
}
