/** The corrected-calcium calculator: two text inputs (serum calcium in mg/dL,
    albumin in g/dL), the shown result, and the four things a user can do to
    them: type into either field, press Calculate, press Reset. */
module CorrectedCalcium {
  import opened Wrappers
  import opened NumberText

  // ---------------------------------------------------------------------------
  // The clinical constants and the formula

  /** Accepted serum calcium, mg/dL; both ends included. */
  const CalciumMin: real := 5.0
  const CalciumMax: real := 15.0

  /** Accepted serum albumin, g/dL; both ends included. */
  const AlbuminMin: real := 1.0
  const AlbuminMax: real := 7.0

  /** The albumin level at which no correction is made, g/dL. */
  const NormalAlbumin: real := 4.0

  /** mg/dL of calcium added per g/dL of albumin below normal. */
  const CorrectionFactor: real := 0.8

  predicate CalciumInRange(calcium: real) {
    CalciumMin <= calcium <= CalciumMax
  }

  predicate AlbuminInRange(albumin: real) {
    AlbuminMin <= albumin <= AlbuminMax
  }

  /** Corrected calcium in mg/dL. It is above the measured calcium exactly when
      albumin is below normal, equal to it exactly at normal albumin, and for
      inputs that pass both range checks it lies in [2.6, 17.4]. */
  function Corrected(calcium: real, albumin: real): (r: real)
    ensures r > calcium <==> albumin < NormalAlbumin
    ensures r == calcium <==> albumin == NormalAlbumin
    ensures CalciumInRange(calcium) && AlbuminInRange(albumin) ==> 2.6 <= r <= 17.4
  {
    calcium + CorrectionFactor * (NormalAlbumin - albumin)
  }

  /** The corrected value rises with calcium and falls with albumin: more
      calcium or less albumin never gives a smaller value, and strictly more
      calcium or strictly less albumin gives a strictly larger one. */
  lemma CorrectedMonotone(calcium1: real, albumin1: real, calcium2: real, albumin2: real)
    requires calcium1 <= calcium2 && albumin2 <= albumin1
    ensures Corrected(calcium1, albumin1) <= Corrected(calcium2, albumin2)
    ensures calcium1 < calcium2 || albumin2 < albumin1 ==>
      Corrected(calcium1, albumin1) < Corrected(calcium2, albumin2)
  {
  }

  /** The shown text: the corrected value rounded to hundredths and written
      with two decimals. It has the fixed two-decimal form, reads back as the
      rounded value, and that is within half a hundredth of the exact
      corrected value. */
  function ResultText(calcium: real, albumin: real): (text: string)
    ensures 4 <= |text| && text[|text| - 3] == '.'
      && IsDigit(text[|text| - 2]) && IsDigit(text[|text| - 1])
    ensures ParseDecimal(text) == Some(Round2(Corrected(calcium, albumin)))
    ensures Round2(Corrected(calcium, albumin)) - 0.005 <= Corrected(calcium, albumin)
                                                        < Round2(Corrected(calcium, albumin)) + 0.005
  {
    DisplayedValue(Corrected(calcium, albumin));
    ToFixed2(Round2(Corrected(calcium, albumin)))
  }

  /** A shown result reads as a whole number of hundredths between the lowest
      and the highest value the range checks allow. */
  predicate ShowsPlausible(text: string) {
    match ParseDecimal(text)
    case None => false
    case Some(v) => 2.6 <= v <= 17.4 && Round2(v) == v
  }

  /** Every result the calculator can show is plausible. */
  lemma ResultPlausible(calcium: real, albumin: real)
    requires CalciumInRange(calcium) && AlbuminInRange(albumin)
    ensures ShowsPlausible(ResultText(calcium, albumin))
  {
    var c := Corrected(calcium, albumin);
    Round2Monotone(2.6, c);
    Round2Monotone(c, 17.4);
    Round2Fixes(260);
    Round2Fixes(1740);
    Round2Idempotent(c);
  }

  /** Measured calcium 9.0 mg/dL with albumin 2.0 g/dL is shown as "10.60". */
  lemma LowAlbuminExample()
    ensures ResultText(9.0, 2.0) == "10.60"
  {
    assert Corrected(9.0, 2.0) == 10.6;
    Round2Fixes(1060);
    assert Round2(10.6) == 10.6;
    MathRoundWhole(1060);
    assert MathRound(10.6 * 100.0) == 1060;
    assert NatDigits(10) == "10";
  }

  /** At normal albumin nothing is added: 9.5 mg/dL is shown as "9.50". */
  lemma NormalAlbuminExample()
    ensures ResultText(9.5, 4.0) == "9.50"
  {
    assert Corrected(9.5, 4.0) == 9.5;
    Round2Fixes(950);
    assert Round2(9.5) == 9.5;
    MathRoundWhole(950);
    assert MathRound(9.5 * 100.0) == 950;
  }

  /** The texts the session below types read as the numbers they spell. */
  lemma SessionInputs()
    ensures ParseDecimal("9.0") == Some(9.0)
    ensures ParseDecimal("2.0") == Some(2.0)
    ensures ParseDecimal("20") == Some(20.0)
    ensures ParseDecimal("9") == Some(9.0)
  {
    assert DotIndex("9.0") == 1 && DotIndex("2.0") == 1;
    assert "9.0"[..1] == "9" && "9.0"[2..] == "0";
    assert "2.0"[..1] == "2" && "2.0"[2..] == "0";
    assert "9"[..0] == "" && "2"[..0] == "" && "0"[..0] == "";
    assert DotIndex("20") == 2 && "20"[..2] == "20" && "20"[..1] == "2";
    assert DotIndex("9") == 1 && "9"[..1] == "9";
  }

  // ---------------------------------------------------------------------------
  // The component

  /** What pressing Calculate reports; each stands for one of the component's
      notifications. */
  datatype Outcome =
    | ParseError    // either field does not read as a number
    | CalciumRange  // calcium outside [5, 15] mg/dL
    | AlbuminRange  // albumin outside [1, 7] g/dL
    | Calculated    // a new result is shown

  class Calculator {
    /** The calcium field as typed. */
    var calcium: string
    /** The albumin field as typed. */
    var albumin: string
    /** The shown corrected calcium, or None while there is none. */
    var correctedCalcium: Option<string>

    /** The only results ever shown are ones a successful calculation makes. */
    ghost predicate Valid()
      reads this
    {
      correctedCalcium.Some? ==> ShowsPlausible(correctedCalcium.value)
    }

    /** Both fields start empty and no result is shown. */
    constructor ()
      ensures Valid()
      ensures calcium == "" && albumin == "" && correctedCalcium == None
    {
      calcium := "";
      albumin := "";
      correctedCalcium := None;
    }

    /** Typing into the calcium field stores the text unchecked. */
    method SetCalcium(text: string)
      requires Valid()
      modifies this
      ensures Valid()
      ensures calcium == text
      ensures albumin == old(albumin) && correctedCalcium == old(correctedCalcium)
    {
      calcium := text;
    }

    /** Typing into the albumin field stores the text unchecked. */
    method SetAlbumin(text: string)
      requires Valid()
      modifies this
      ensures Valid()
      ensures albumin == text
      ensures calcium == old(calcium) && correctedCalcium == old(correctedCalcium)
    {
      albumin := text;
    }

    /** Pressing Calculate, with `parse` reading a field as a number (`None`
        for NaN). The checks run in order: both fields must read as numbers,
        then calcium must be in range, then albumin; the first that fails is
        reported and nothing changes. Only when all pass is a new result shown.
        The fields themselves are never changed. */
    method Calculate(parse: string -> Option<real>) returns (outcome: Outcome)
      requires Valid()
      modifies this
      ensures Valid()
      ensures calcium == old(calcium) && albumin == old(albumin)
      ensures outcome == ParseError <==> parse(calcium).None? || parse(albumin).None?
      ensures outcome == CalciumRange <==>
        parse(calcium).Some? && parse(albumin).Some? && !CalciumInRange(parse(calcium).value)
      ensures outcome == AlbuminRange <==>
        parse(calcium).Some? && parse(albumin).Some? && CalciumInRange(parse(calcium).value)
        && !AlbuminInRange(parse(albumin).value)
      ensures outcome == Calculated <==>
        parse(calcium).Some? && parse(albumin).Some? && CalciumInRange(parse(calcium).value)
        && AlbuminInRange(parse(albumin).value)
      ensures outcome == Calculated ==>
        correctedCalcium == Some(ResultText(parse(calcium).value, parse(albumin).value))
      ensures outcome != Calculated ==> correctedCalcium == old(correctedCalcium)
    {
      var calciumValue := parse(calcium);
      var albuminValue := parse(albumin);

      if calciumValue.None? || albuminValue.None? {
        return ParseError;
      }

      if calciumValue.value < CalciumMin || calciumValue.value > CalciumMax {
        return CalciumRange;
      }

      if albuminValue.value < AlbuminMin || albuminValue.value > AlbuminMax {
        return AlbuminRange;
      }

      var result := Corrected(calciumValue.value, albuminValue.value);
      var roundedResult := Round2(result);
      correctedCalcium := Some(ToFixed2(roundedResult));
      ResultPlausible(calciumValue.value, albuminValue.value);
      return Calculated;
    }

    /** Pressing Reset empties both fields and removes the result. */
    method Reset()
      requires Valid()
      modifies this
      ensures Valid()
      ensures calcium == "" && albumin == "" && correctedCalcium == None
    {
      calcium := "";
      albumin := "";
      correctedCalcium := None;
    }
  }

  /** A session with the calculator, reading fields with `ParseDecimal`: a
      result, then a rejected calculation that keeps it, then Reset. */
  method Session() {
    var c := new Calculator();
    var o := c.Calculate(ParseDecimal);
    assert o == ParseError && c.correctedCalcium == None;

    c.SetCalcium("9.0");
    c.SetAlbumin("2.0");
    SessionInputs();
    o := c.Calculate(ParseDecimal);
    LowAlbuminExample();
    assert o == Calculated && c.correctedCalcium == Some("10.60");

    c.SetCalcium("20");
    c.SetAlbumin("9");
    o := c.Calculate(ParseDecimal);
    assert o == CalciumRange && c.correctedCalcium == Some("10.60");

    c.Reset();
    assert c.calcium == "" && c.albumin == "" && c.correctedCalcium == None;
  }
}
