/** Assembly of credit card records: each field is either the caller's
    fixed value or a random draw, and `quantity` records are pushed in
    iteration order. */
module Details {
  import opened JsNumber
  import opened Luhn
  import opened Cards

  /** The brand selector: `'random'` or one brand. */
  datatype Selector<T> = Random | Fixed(value: T)

  /** `CreditCardDetails`. */
  datatype CreditCardDetails = CreditCardDetails(
    brand: Brand,
    number: string,
    cvv: string,
    expMonth: string,
    expYear: string,
    cardHolderName: string)

  /** The random values one iteration draws: the index `getRandomElement`
      picks, the random digits `generateCardNumber` consumes, the faker CVV
      text, `Math.floor(Math.random() * 12)`, `Math.floor(Math.random() * 11)`
      and the faker full name.  Draws that a fixed selector makes
      unnecessary are ignored. */
  datatype Draw = Draw(
    brandIndex: int,
    rolls: seq<Digit>,
    fakerCvv: string,
    monthIndex: int,
    yearIndex: int,
    fullName: string)

  /** The ranges `Math.floor(Math.random() * n)` stays in. */
  predicate ValidDraw(d: Draw) {
    0 <= d.brandIndex < |Brands| && 0 <= d.monthIndex < 12 && 0 <= d.yearIndex < 11
  }

  /** The selector value that asks for a random field. */
  const RandomText := "random"

  /** `s.padStart(target, fill)` for a one-character `fill`. */
  function PadStart(s: string, target: nat, fill: char): (r: string)
    ensures |r| == if |s| >= target then |s| else target
    ensures r[|r| - |s|..] == s
    ensures forall i :: 0 <= i < |r| - |s| ==> r[i] == fill
  {
    if |s| >= target then s else seq(target - |s|, _ => fill) + s
  }

  /** The brand of one record: the fixed one, or `getRandomElement(brands)`. */
  function SelectBrand(brand: Selector<Brand>, brandIndex: int): (b: Brand)
    requires 0 <= brandIndex < |Brands|
    ensures brand.Fixed? ==> b == brand.value
    ensures brand.Random? ==> b in Brands && b == Brands[brandIndex]
  {
    match brand
    case Random => Brands[brandIndex]
    case Fixed(b) => b
  }

  /** The CVV of one record: the caller's text as given, or `generateCVV`. */
  function SelectCvv(cvv: string, brand: Brand, fakerCvv: string): (r: string)
    ensures cvv != RandomText ==> r == cvv
    ensures cvv == RandomText ==> r == GenerateCvv(brand, fakerCvv)
    ensures cvv == RandomText ==> |r| <= CvvLength(brand) && r <= fakerCvv
    ensures cvv == RandomText && |fakerCvv| >= CvvLength(brand) ==> |r| == CvvLength(brand)
    ensures cvv == RandomText && |fakerCvv| < CvvLength(brand) ==> r == fakerCvv
  {
    if cvv == RandomText then GenerateCvv(brand, fakerCvv) else cvv
  }

  /** The expiry month of one record: a random month 1..12 as two digits,
      or the caller's text zero-padded to two characters. */
  function SelectMonth(expMonth: string, monthIndex: int): (r: string)
    requires 0 <= monthIndex < 12
    ensures expMonth == RandomText ==>
              |r| == 2 && IsDigits(r) && DecimalValue(r) == monthIndex + 1 && 1 <= DecimalValue(r) <= 12
    ensures expMonth != RandomText && |expMonth| >= 2 ==> r == expMonth
    ensures expMonth != RandomText && |expMonth| == 1 ==> r == ['0'] + expMonth
    ensures expMonth != RandomText && |expMonth| == 0 ==> r == "00"
  {
    if expMonth == RandomText then
      var m := monthIndex + 1;
      var s := NatToString(m);
      assert m < 10 ==> |s| == 1;
      assert m >= 10 ==> |NatToString(m / 10)| == 1;
      var r := PadStart(s, 2, '0');
      assert |s| == 1 ==> r == ['0'] + s && r[..1] == ['0'];
      r
    else
      var r := PadStart(expMonth, 2, '0');
      assert |expMonth| == 1 ==> r == r[..1] + r[1..];
      r
  }

  /** The expiry year of one record: a random year 2024..2034, or the
      caller's text unchanged. */
  function SelectYear(expYear: string, yearIndex: int): (r: string)
    requires 0 <= yearIndex < 11
    ensures expYear == RandomText ==>
              |r| == 4 && IsDigits(r) && DecimalValue(r) == 2024 + yearIndex && 2024 <= DecimalValue(r) <= 2034
    ensures expYear != RandomText ==> r == expYear
  {
    if expYear == RandomText then
      FourDigits(yearIndex + 2024);
      NatToString(yearIndex + 2024)
    else
      expYear
  }

  /** What the source promises of a record built from these selectors:
      fixed values pass through, random ones stay in range, and the number
      fits its brand and passes the Luhn check. */
  predicate RecordFits(
    brand: Selector<Brand>, cvv: string, expMonth: string, expYear: string, draw: Draw, c: CreditCardDetails)
  {
    && (brand.Fixed? ==> c.brand == brand.value)
    && c.brand in Brands
    && |c.number| == (if c.brand == AmericanExpress then 15 else 16)
    && c.number[0] == Prefix(c.brand)
    && LuhnValid(c.number)
    && (cvv != RandomText ==> c.cvv == cvv)
    && (cvv == RandomText ==> |c.cvv| <= CvvLength(c.brand) && c.cvv <= draw.fakerCvv)
    && (cvv == RandomText && |draw.fakerCvv| >= CvvLength(c.brand) ==> |c.cvv| == CvvLength(c.brand))
    && (cvv == RandomText && |draw.fakerCvv| < CvvLength(c.brand) ==> c.cvv == draw.fakerCvv)
    && (expMonth != RandomText && |expMonth| >= 2 ==> c.expMonth == expMonth)
    && (expMonth != RandomText && |expMonth| == 1 ==> c.expMonth == ['0'] + expMonth)
    && (expMonth != RandomText && |expMonth| == 0 ==> c.expMonth == "00")
    && (expMonth == RandomText ==>
          |c.expMonth| == 2 && IsDigits(c.expMonth) && 1 <= DecimalValue(c.expMonth) <= 12)
    && (expYear != RandomText ==> c.expYear == expYear)
    && (expYear == RandomText ==>
          |c.expYear| == 4 && IsDigits(c.expYear) && 2024 <= DecimalValue(c.expYear) <= 2034)
    && c.cardHolderName == draw.fullName
  }

  /** One iteration of the loop: the record pushed, or `None` when the
      random digits supplied for the card number run out. */
  function MakeDetails(brand: Selector<Brand>, cvv: string, expMonth: string, expYear: string, draw: Draw)
    : (r: Option<CreditCardDetails>)
    requires ValidDraw(draw)
  {
    var selected := SelectBrand(brand, draw.brandIndex);
    match GenerateCardNumber(selected, draw.rolls)
    case None => None
    case Some(number) =>
      Some(CreditCardDetails(
        selected,
        number,
        SelectCvv(cvv, selected, draw.fakerCvv),
        SelectMonth(expMonth, draw.monthIndex),
        SelectYear(expYear, draw.yearIndex),
        draw.fullName))
  }

  /** Every record built fits its selectors and draws. */
  lemma MakeDetailsFits(brand: Selector<Brand>, cvv: string, expMonth: string, expYear: string, draw: Draw)
    requires ValidDraw(draw)
    ensures var r := MakeDetails(brand, cvv, expMonth, expYear, draw);
            r.Some? ==> RecordFits(brand, cvv, expMonth, expYear, draw, r.value)
  {
  }

  /** A record is missing only when its card number could not be found in
      the random digits supplied for it. */
  lemma MakeDetailsFailsOnlyWithoutNumber(
    brand: Selector<Brand>, cvv: string, expMonth: string, expYear: string, draw: Draw)
    requires ValidDraw(draw)
    ensures MakeDetails(brand, cvv, expMonth, expYear, draw).None? <==>
            GenerateCardNumber(SelectBrand(brand, draw.brandIndex), draw.rolls).None?
  {
  }

  /** How often `for (let i = 0; i < quantity; i++)` runs: `quantity`
      when positive, and never for 0, a negative number or NaN. */
  function Iterations(quantity: Num): (n: nat)
    ensures forall i: nat :: Less(Int(i), quantity) <==> i < n
  {
    match quantity
    case NaN => 0
    case Int(q) => if q > 0 then q else 0
  }

  /** `generateCreditCardDetails`: pushes one record per iteration, with
      `draws[i]` the random values of iteration `i`.  `None` when some
      iteration's random digits run out before a Luhn-valid number. */
  method GenerateCreditCardDetails(
    brand: Selector<Brand>, cvv: string, expMonth: string, expYear: string, quantity: Num, draws: seq<Draw>)
    returns (results: Option<seq<CreditCardDetails>>)
    requires Iterations(quantity) <= |draws|
    requires forall i :: 0 <= i < |draws| ==> ValidDraw(draws[i])
    ensures results.Some? <==>
              forall i :: 0 <= i < Iterations(quantity) ==> MakeDetails(brand, cvv, expMonth, expYear, draws[i]).Some?
    ensures results.Some? ==> |results.value| == Iterations(quantity)
    ensures results.Some? ==>
              forall i :: 0 <= i < |results.value| ==>
                MakeDetails(brand, cvv, expMonth, expYear, draws[i]) == Some(results.value[i])
  {
    // `i < quantity` holds exactly while `i < n`.
    var n := Iterations(quantity);
    var pushed: seq<CreditCardDetails> := [];
    var i := 0;
    while i < n
      invariant 0 <= i <= n
      invariant |pushed| == i
      invariant forall k :: 0 <= k < i ==> MakeDetails(brand, cvv, expMonth, expYear, draws[k]) == Some(pushed[k])
    {
      var record := MakeDetails(brand, cvv, expMonth, expYear, draws[i]);
      if record.None? {
        return None;
      }
      pushed := pushed + [record.value];
      i := i + 1;
    }
    results := Some(pushed);
  }
}
