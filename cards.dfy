/** Card brands, card-number generation with the Luhn retry, and the
    random CVV. */
module Cards {
  import opened JsNumber
  import opened Luhn

  datatype Option<T> = None | Some(value: T)

  /** `CreditCardBrand`. */
  datatype Brand = Visa | Mastercard | AmericanExpress | Discover | JCB | DinersClub | UnionPay

  /** `brands`: the list a random brand is drawn from. */
  const Brands: seq<Brand> := [Visa, Mastercard, AmericanExpress, Discover, JCB, DinersClub, UnionPay]

  /** The list holds every brand, each once. */
  lemma BrandsListsEachBrandOnce()
    ensures |Brands| == 7
    ensures forall b: Brand :: b in Brands
    ensures forall i, j :: 0 <= i < j < |Brands| ==> Brands[i] != Brands[j]
  {
    forall b: Brand
      ensures b in Brands
    {
      match b
      case Visa => assert Brands[0] == b;
      case Mastercard => assert Brands[1] == b;
      case AmericanExpress => assert Brands[2] == b;
      case Discover => assert Brands[3] == b;
      case JCB => assert Brands[4] == b;
      case DinersClub => assert Brands[5] == b;
      case UnionPay => assert Brands[6] == b;
    }
  }

  /** The prefix table: the first digit of every number of a brand. */
  function Prefix(brand: Brand): char {
    match brand
    case Visa => '4'
    case Mastercard => '5'
    case AmericanExpress => '3'
    case Discover => '6'
    case JCB => '3'
    case DinersClub => '3'
    case UnionPay => '6'
  }

  /** How many random digits follow the prefix. */
  function TailLength(brand: Brand): nat {
    if brand == AmericanExpress then 14 else 15
  }

  /** `.join('')` of random digits. */
  function Join(ds: seq<Digit>): (s: string)
    ensures |s| == |ds| && IsDigits(s)
    ensures forall i :: 0 <= i < |ds| ==> DigitValue(s[i]) == ds[i]
  {
    seq(|ds|, i requires 0 <= i < |ds| => DigitChar(ds[i]))
  }

  /** One attempt: the prefix followed by the tail's digits. */
  function Candidate(brand: Brand, tail: seq<Digit>): string {
    [Prefix(brand)] + Join(tail)
  }

  /** The candidates the retry builds, in order, when the random digits
      `rolls` are consumed `TailLength(brand)` at a time. */
  function Attempts(brand: Brand, rolls: seq<Digit>): (cs: seq<string>)
    ensures |cs| == |rolls| / TailLength(brand)
    ensures forall k :: 0 <= k < |cs| ==>
              |cs[k]| == TailLength(brand) + 1 && IsDigits(cs[k]) && cs[k][0] == Prefix(brand)
    decreases |rolls|
  {
    var n := TailLength(brand);
    if |rolls| < n then [] else [Candidate(brand, rolls[..n])] + Attempts(brand, rolls[n..])
  }

  /** `generateCardNumber(brand)`, where `rolls` are the successive values
      of `Math.floor(Math.random() * 10)`.  Each attempt takes the next
      `TailLength(brand)` of them and the function retries until the Luhn
      check passes; `None` when the supplied digits run out first. */
  function GenerateCardNumber(brand: Brand, rolls: seq<Digit>): (r: Option<string>)
    ensures r.Some? ==> |r.value| == (if brand == AmericanExpress then 15 else 16)
    ensures r.Some? ==> r.value[0] == Prefix(brand)
    ensures r.Some? ==> IsDigits(r.value) && LuhnValid(r.value)
    decreases |rolls|
  {
    var n := TailLength(brand);
    if |rolls| < n then
      None
    else
      var number := Candidate(brand, rolls[..n]);
      if LuhnValid(number) then Some(number) else GenerateCardNumber(brand, rolls[n..])
  }

  /** The position of the first Luhn-valid string in `cs`, or `|cs|` when
      there is none. */
  function FirstValidIndex(cs: seq<string>): (k: nat)
    ensures k <= |cs|
    ensures forall j :: 0 <= j < k ==> !LuhnValid(cs[j])
    ensures k < |cs| ==> LuhnValid(cs[k])
  {
    if cs == [] then 0 else if LuhnValid(cs[0]) then 0 else 1 + FirstValidIndex(cs[1..])
  }

  /** The retry returns the first Luhn-valid candidate among the attempts,
      and gives up only when no attempt passes. */
  lemma {:induction false} GenerateIsFirstValid(brand: Brand, rolls: seq<Digit>)
    ensures var cs := Attempts(brand, rolls);
            var k := FirstValidIndex(cs);
            GenerateCardNumber(brand, rolls) == if k < |cs| then Some(cs[k]) else None
    decreases |rolls|
  {
    var n := TailLength(brand);
    if |rolls| >= n {
      var cs := Attempts(brand, rolls);
      assert cs[1..] == Attempts(brand, rolls[n..]);
      GenerateIsFirstValid(brand, rolls[n..]);
    }
  }

  /** A single attempt succeeds for exactly one of the ten possible last
      digits, whatever the digits before it: the retry always can succeed. */
  lemma OneLastDigitInTenSucceeds(brand: Brand, rolls: seq<Digit>)
    requires |rolls| + 1 == TailLength(brand)
    ensures forall d: Digit ::
              GenerateCardNumber(brand, rolls + [d]).Some? <==> d == CheckDigit(Candidate(brand, rolls))
  {
    var p := Candidate(brand, rolls);
    forall d: Digit
      ensures GenerateCardNumber(brand, rolls + [d]).Some? <==> d == CheckDigit(p)
    {
      var ds := rolls + [d];
      assert ds[..TailLength(brand)] == ds;
      assert ds[TailLength(brand)..] == [];
      assert Candidate(brand, ds) == p + [DigitChar(d)];
      CheckDigitCompletes(p, DigitChar(d));
    }
  }

  /** The CVV length of a brand. */
  function CvvLength(brand: Brand): nat {
    if brand == AmericanExpress then 4 else 3
  }

  /** `generateCVV(brand)`: the text `fakerCvv` from the faker library cut
      by `slice(0, length)`. */
  function GenerateCvv(brand: Brand, fakerCvv: string): (r: string)
    ensures |r| <= (if brand == AmericanExpress then 4 else 3)
    ensures r <= fakerCvv
    ensures |fakerCvv| >= CvvLength(brand) ==> |r| == CvvLength(brand)
    ensures |fakerCvv| < CvvLength(brand) ==> r == fakerCvv
  {
    if |fakerCvv| <= CvvLength(brand) then fakerCvv else fakerCvv[..CvvLength(brand)]
  }
}
