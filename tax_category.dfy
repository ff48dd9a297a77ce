/**
 * Tax category resolution (`get_tax_category_id`, `get_tax_category_name`).
 * The source matches the rate with Ruby's `case`, so a rate may be a number
 * (compared numerically: 21 and 21.0 are the same) or a percentage string
 * (compared exactly: "21%" matches, "21.0%" does not).
 */
module TaxCategory {

  datatype Rate = Num(value: real) | Str(text: string)

  /** One `when n, "n%"` arm of the case expression. */
  predicate Arm(rate: Rate, n: real, percent: string) {
    rate == Num(n) || rate == Str(percent)
  }

  predicate IsZero(rate: Rate) { Arm(rate, 0.0, "0%") }
  predicate IsSix(rate: Rate) { Arm(rate, 6.0, "6%") }
  predicate IsTwelve(rate: Rate) { Arm(rate, 12.0, "12%") }
  predicate IsTwentyOne(rate: Rate) { Arm(rate, 21.0, "21%") }

  function CategoryId(rate: Rate): string {
    if IsZero(rate) then "Z"
    else if IsSix(rate) then "S"
    else if IsTwelve(rate) then "S"
    else if IsTwentyOne(rate) then "S"
    else "Z"
  }

  function CategoryName(rate: Rate): string {
    if IsZero(rate) then "00"
    else if IsSix(rate) then "01"
    else if IsTwelve(rate) then "02"
    else if IsTwentyOne(rate) then "03"
    else "00"
  }

  /** Standard category "S" is given to exactly the rates 6, 12 and 21; everything else, 0 and unknown rates alike, is "Z". */
  lemma StandardExactly(rate: Rate)
    ensures CategoryId(rate) == "S" <==> IsSix(rate) || IsTwelve(rate) || IsTwentyOne(rate)
    ensures CategoryId(rate) == "S" || CategoryId(rate) == "Z"
  {
  }

  /** The Belgian category name is "00" exactly for the zero-rated category, and otherwise tells 6, 12 and 21 apart. */
  lemma NameRefinesId(rate: Rate)
    ensures CategoryName(rate) == "00" <==> CategoryId(rate) == "Z"
    ensures CategoryName(rate) == "01" <==> IsSix(rate)
    ensures CategoryName(rate) == "02" <==> IsTwelve(rate)
    ensures CategoryName(rate) == "03" <==> IsTwentyOne(rate)
  {
  }

  /** The mapping table, numbers and strings alike, with 99 as an unknown rate. */
  lemma Table()
    ensures CategoryId(Num(0.0)) == "Z" && CategoryName(Num(0.0)) == "00"
    ensures CategoryId(Num(6.0)) == "S" && CategoryName(Num(6.0)) == "01"
    ensures CategoryId(Num(12.0)) == "S" && CategoryName(Num(12.0)) == "02"
    ensures CategoryId(Num(21.0)) == "S" && CategoryName(Num(21.0)) == "03"
    ensures CategoryId(Num(99.0)) == "Z" && CategoryName(Num(99.0)) == "00"
    ensures CategoryId(Str("0%")) == "Z" && CategoryName(Str("0%")) == "00"
    ensures CategoryId(Str("21%")) == "S" && CategoryName(Str("21%")) == "03"
    ensures CategoryId(Str("21.0%")) == "Z" && CategoryName(Str("21.0%")) == "00"
  {
  }
}
