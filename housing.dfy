/**
 * The derived fields of Housing/models.py: `Rentals.save` and `HousingAffordability.save`, each a
 * guarded quotient that falls back to 0 when its divisor is 0. The related Property's price is a
 * parameter.
 */
module Housing {

  const MonthsPerYear: real := 12.0

  /** `a / b if b != 0 else 0`. */
  function GuardedRatio(numerator: real, divisor: real): (q: real)
    ensures divisor != 0.0 ==> q * divisor == numerator
    ensures divisor == 0.0 ==> q == 0.0
  {
    if divisor != 0.0 then numerator / divisor else 0.0
  }

  class Rental {
    var monthlyRent: real
    var annualRent: real
    var priceToRentRatio: real

    constructor (monthlyRent: real)
      ensures this.monthlyRent == monthlyRent && annualRent == 0.0 && priceToRentRatio == 0.0
    {
      this.monthlyRent := monthlyRent;
      annualRent, priceToRentRatio := 0.0, 0.0;
    }

    /** `Rentals.save`, with the price of the rented property. */
    method Save(propertyPrice: real)
      modifies this
      ensures annualRent == old(monthlyRent) * MonthsPerYear
      ensures priceToRentRatio == GuardedRatio(propertyPrice, annualRent)
      ensures monthlyRent == old(monthlyRent)
    {
      annualRent := monthlyRent * MonthsPerYear;
      priceToRentRatio := if annualRent != 0.0 then propertyPrice / annualRent else 0.0;
    }
  }

  /**
   * The price-to-rent ratio is the number of years of rent the price buys; a property rented for
   * nothing gets ratio 0.
   */
  lemma PriceIsRatioYearsOfRent(monthlyRent: real, propertyPrice: real)
    ensures monthlyRent != 0.0 ==> GuardedRatio(propertyPrice, monthlyRent * MonthsPerYear) * (monthlyRent * MonthsPerYear) == propertyPrice
    ensures monthlyRent == 0.0 ==> GuardedRatio(propertyPrice, monthlyRent * MonthsPerYear) == 0.0
  {
  }

  class HousingAffordability {
    var medianIncome: real
    var medianExpenditure: real
    var medianHousePrice: real
    var medianDisposableIncome: real
    var affordabilityIndex: real

    constructor (medianIncome: real, medianExpenditure: real, medianHousePrice: real)
      ensures this.medianIncome == medianIncome && this.medianExpenditure == medianExpenditure
      ensures this.medianHousePrice == medianHousePrice
      ensures medianDisposableIncome == 0.0 && affordabilityIndex == 0.0
    {
      this.medianIncome, this.medianExpenditure, this.medianHousePrice := medianIncome, medianExpenditure, medianHousePrice;
      medianDisposableIncome, affordabilityIndex := 0.0, 0.0;
    }

    /** `HousingAffordability.save`. */
    method Save()
      modifies this
      ensures affordabilityIndex == GuardedRatio(old(medianHousePrice), old(medianIncome))
      ensures medianDisposableIncome + old(medianExpenditure) == old(medianIncome)
      ensures medianIncome == old(medianIncome) && medianExpenditure == old(medianExpenditure)
      ensures medianHousePrice == old(medianHousePrice)
    {
      affordabilityIndex := if medianIncome != 0.0 then medianHousePrice / medianIncome else 0.0;
      medianDisposableIncome := medianIncome - medianExpenditure;
    }
  }

  /** A higher price against the same positive income gives a higher affordability index. */
  lemma AffordabilityMonotone(price1: real, price2: real, income: real)
    requires income > 0.0 && price1 <= price2
    ensures GuardedRatio(price1, income) <= GuardedRatio(price2, income)
  {
    var q1 := GuardedRatio(price1, income);
    var q2 := GuardedRatio(price2, income);
    assert (q2 - q1) * income == price2 - price1;
    NonNegativeFactor(q2 - q1, income);
  }

  lemma NonNegativeFactor(x: real, d: real)
    requires d > 0.0 && x * d >= 0.0
    ensures x >= 0.0
  {
  }
}
