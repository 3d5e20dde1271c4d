// The label under which the last decoded gear is reported.

module GearDisplay {
  import opened Obd2Calculations
  import opened DecimalText

  datatype Option<T> = None | Some(value: T)

  /** What the gear report shows: reverse, neutral, or a forward gear number. */
  datatype GearLabel = Reverse | Neutral | Numbered(n: nat)
  {
    predicate Valid()
    {
      Numbered? ==> 0 < n < 0x8000_0000
    }
  }

  /** The label chosen for a gear slot value: -1 is reverse, a positive value
      is that gear, and anything else (0 included) is neutral. */
  function LabelOf(gear: Int32): (l: GearLabel)
    ensures l.Valid()
    ensures l == Reverse <==> gear == ReverseGear
    ensures l.Numbered? <==> gear > 0
    ensures l.Numbered? ==> l.n == gear
    ensures l == Neutral <==> gear == 0 || gear < -1
  {
    if gear == ReverseGear then Reverse
    else if gear > 0 then Numbered(gear)
    else Neutral
  }

  /** The text written into the report's 32-character buffer. */
  function GearText(l: GearLabel): (s: string)
    requires l.Valid()
    ensures |s| < 32
  {
    match l
    case Reverse => "Reverse"
    case Neutral => "Neutral"
    case Numbered(n) => Int32DecimalLength(n); DecimalString(n)
  }

  /** Recovers the label from its text, if the text is one the report writes. */
  function ParseGearText(s: string): Option<GearLabel>
  {
    if s == "Reverse" then Some(Reverse)
    else if s == "Neutral" then Some(Neutral)
    else if s != [] && AllDigits(s) && s[0] != '0' then Some(Numbered(ParseDecimal(s)))
    else None
  }

  /** Different labels are reported as different texts: each text reads back
      as the label it was written for. */
  lemma {:induction false} ParseGearTextRoundTrip(l: GearLabel)
    requires l.Valid()
    ensures ParseGearText(GearText(l)) == Some(l)
  {
    if l.Numbered? {
      var s := DecimalString(l.n);
      assert s != "Reverse" by { assert IsDigit(s[0]); }
      assert s != "Neutral" by { assert IsDigit(s[0]); }
      ParseDecimalString(l.n);
    }
  }

  /** The label that follows a gear decode, in terms of payload byte 4. */
  lemma LabelOfDecodedGear(a: Byte)
    ensures LabelOf(GearValue(a)) ==
      if a == ReverseByte then Reverse else if a == 0 then Neutral else Numbered(a)
  {
  }
}
