# Fake credit card generator: Luhn-valid numbers and card records

This project models the generation logic of a browser tool that produces
fake credit card records for testing. Its core has three parts:

- `luhnCheck`: the mod-10 check-digit test of ISO/IEC 7812-1, Annex B.
- `generateCardNumber`: a brand's prefix digit followed by 14 random digits
  (American Express) or 15 (every other brand). It retries until the Luhn
  test passes.
- `generateCreditCardDetails`: a loop that pushes `quantity` records. In each
  record the brand, CVV, expiry month and expiry year are either the caller's
  fixed value or a random draw.

The modules follow the parts of the source file:

- `JsNumber` (jsnumber.dfy): the JavaScript numbers this code meets, an
  integer or NaN, and their decimal strings (`parseInt` of one character,
  `String(n)`).
- `Luhn` (luhn.dfy): `luhnCheck` as a loop method. It is proved equal to a
  recursive right-to-left sum, `LuhnSum`. Lemmas give the sum's bounds, a
  positional definition that agrees with it, the check digit, single-digit
  error detection and two known vectors.
- `Cards` (cards.dfy): the brands, the prefix table, the generator with its
  retry, and `generateCVV`.
- `Details` (details.dfy): `padStart`, the per-field selection, one record,
  and the loop that pushes `quantity` records.

Randomness is an input:

- Each value of `Math.floor(Math.random() * n)` is a caller-supplied integer
  in `0..n-1`.
- The random digits of the card number are a stream. Each attempt consumes
  the next 14 or 15 of them, in the order `Array.from` draws them.
- The texts that the faker library returns (CVV, full name) are opaque
  strings.

Behaviour of the code that the model keeps:

- A `quantity` of 0, a negative number or NaN runs the loop zero times, so
  no records are returned.
- A random CVV is the faker text cut to at most 4 characters (American
  Express) or 3. A shorter faker text is kept whole.
- A fixed month is only zero-padded. A fixed CVV and a fixed year pass
  through unchecked.
- A string with a character that is not a digit is rejected by `luhnCheck`.
  `parseInt` yields NaN for that character, and NaN makes the sum fail the
  `% 10 === 0` test.

## Model

| member | source | states |
|---|---|---|
| `JsNumber.ParseDigit` | components/component/component.tsx:44 | `parseInt` of one character is NaN exactly when the character is not a decimal digit; otherwise it is that digit's value 0..9 |
| `JsNumber.NatToString` | components/component/component.tsx:66-67 | `String(n)` is a non-empty digit string with no leading zero whose decimal value is `n` |
| `JsNumber.FourDigits` | components/component/component.tsx:67 | every year 1000..9999, so every random year, prints as exactly four characters |
| `Luhn.SumFrom` | components/component/component.tsx:41-51 | each digit contributes 0..9, so the running sum stays between 0 and 9 times the number of digits processed |
| `Luhn.LuhnCheck` | components/component/component.tsx:40-53 | the loop accepts `num` exactly when every character is a digit and the right-to-left sum (rightmost digit not doubled, doubling alternating leftwards, 9 taken off a doubled value above 9) is divisible by 10 |
| `Luhn.SumFromConcat` | components/component/component.tsx:43-50 | the sum splits over a concatenation; a left digit's doubling depends only on how many digits stand to its right |
| `Luhn.LuhnSumCons` | components/component/component.tsx:43-50 | the digit the loop adds next, on the left, contributes its value doubled exactly when an odd number of digits were processed before it |
| `Luhn.LuhnSumIsPositional` | components/component/component.tsx:43-50 | the toggling-flag sum equals the positional rule: a digit is doubled exactly when its distance from the right end is odd |
| `Luhn.EmptyAndZeroAreValid` | components/component/component.tsx:41-52 | the empty string and "0" have sum 0 and are accepted |
| `Luhn.KnownValidVector` | components/component/component.tsx:40-53 | "4532015112830366" is accepted |
| `Luhn.KnownInvalidVector` | components/component/component.tsx:40-53 | "4532015112830367" is rejected |
| `Luhn.CheckDigitCompletes` | components/component/component.tsx:40-53 | for every digit string, exactly one of the ten digits appended on the right makes it Luhn-valid |
| `Luhn.ContributionInjective` | components/component/component.tsx:45-48 | different digits on the same position contribute different amounts |
| `Luhn.RemaindersDiffer` | components/component/component.tsx:52 | two different digits added to the same sum cannot both give a multiple of 10 |
| `Luhn.SumSplitAt` | components/component/component.tsx:43-50 | the sum is one digit's contribution plus a part that does not depend on that digit |
| `Luhn.DetectsSingleDigitError` | components/component/component.tsx:40-53 | changing any single digit of an accepted number gives a number the check rejects |
| `Cards.BrandsListsEachBrandOnce` | components/component/component.tsx:10-21 | `brands` lists all seven brands, each once |
| `Cards.Join` | components/component/component.tsx:35 | joining random digits gives a digit string of the same length whose characters are those digits |
| `Cards.Attempts` | components/component/component.tsx:35-37 | every candidate the retry builds starts with the brand's prefix, has 15 (American Express) or 16 characters and is all digits; the stream yields one candidate per 14 or 15 digits |
| `Cards.GenerateCardNumber` | components/component/component.tsx:25-38 | a returned number starts with the brand's prefix (Visa 4, Mastercard 5, American Express, JCB and Diners Club 3, Discover and UnionPay 6), has length 15 for American Express and 16 otherwise, is all digits and passes the Luhn check |
| `Cards.FirstValidIndex` | components/component/component.tsx:37 | the position of the first Luhn-valid candidate: all candidates before it fail the check |
| `Cards.GenerateIsFirstValid` | components/component/component.tsx:37 | the retry returns the first candidate that passes the Luhn check, and gives up only when none passes |
| `Cards.OneLastDigitInTenSucceeds` | components/component/component.tsx:35-37 | whatever the first random digits of an attempt, exactly one of the ten possible last digits makes it succeed, so the retry can always succeed |
| `Cards.GenerateCvv` | components/component/component.tsx:55-58 | the random CVV is a prefix of the faker text with at most 4 characters for American Express and at most 3 otherwise: exactly that many when the text is long enough, and the whole text when it is shorter |
| `Details.PadStart` | components/component/component.tsx:66 | `padStart` returns the input when it is long enough, and otherwise pads it on the left with the fill character up to the target length |
| `Details.SelectBrand` | components/component/component.tsx:63 | a fixed brand is used as given; `'random'` gives the element of `brands` at the drawn index |
| `Details.SelectCvv` | components/component/component.tsx:65 | a fixed CVV is returned unchanged; `'random'` gives `generateCVV` of the selected brand: a prefix of the faker text of exactly the brand's CVV length, or the whole text when it is shorter |
| `Details.SelectMonth` | components/component/component.tsx:66 | a random month is two digits with value 1..12; a fixed month of two or more characters is unchanged, one character gains a leading '0', and the empty string becomes "00" |
| `Details.SelectYear` | components/component/component.tsx:67 | a random year is four digits with value 2024..2034; a fixed year is returned unchanged |
| `Details.MakeDetailsFits` | components/component/component.tsx:62-77 | every record pushed has a brand from `brands` (the fixed one when fixed), a Luhn-valid number of the brand's prefix and length, a fixed CVV unchanged or a random one cut from the faker text, a fixed month zero-padded ("00" for the empty text) or a random one 1..12, a fixed or random 2024..2034 year, and the faker name |
| `Details.MakeDetailsFailsOnlyWithoutNumber` | components/component/component.tsx:64 | a record is missing only when no Luhn-valid number could be built from the random digits given for it |
| `Details.Iterations` | components/component/component.tsx:62 | `i < quantity` holds for a natural `i` exactly when `i` is below the loop's iteration count: `quantity` when positive, 0 for 0, a negative number or NaN |
| `Details.GenerateCreditCardDetails` | components/component/component.tsx:60-79 | exactly `quantity` records when `quantity` is positive and none for 0, a negative number or NaN; record `i` is the one built from iteration `i`'s draws, in iteration order |

## Left out

- The React component `Component` (components/component/component.tsx:82-602) is not part of this model. It holds the state hooks, handlers, tabs, selects and markup.
- `parseInt(selectedQuantity)` in the click handler (line 111) is UI code. `quantity` is an input that is either an integer or NaN.
- `Math.random` is not modelled. Each `Math.floor(Math.random() * n)` is a caller-supplied integer in `0..n-1`, checked by `ValidDraw`, or a `Digit` in the stream. Uniformity and independence of the draws are not modelled.
- `faker.finance.creditCardCVV()` and `faker.person.fullName()` are foreign library calls. Their texts are opaque inputs; only the `slice(0, length)` bound on the CVV is modelled.
- Cards.GenerateCardNumber: the source retries without bound. The model takes a finite stream of random digits and returns `None` when the stream runs out before a Luhn-valid candidate. `Cards.OneLastDigitInTenSucceeds` shows that every attempt can succeed.
- Details.GenerateCreditCardDetails: returns `None` when some record's random digits run out, a case the source never reaches because it keeps drawing.
- The `brand as CreditCardBrand` cast for arbitrary strings is unchecked TypeScript. The brand selector is a datatype: `'random'` or one of the seven brands.
- Strings are sequences of characters, not UTF-16 code units. `padStart` and `slice` count characters.
