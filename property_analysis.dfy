/**
 * The money figures the property analysis view computes from a property
 * record: vacancy loss, effective income, monthly and total expenses, the
 * itemised expense rows and the implied mortgage payment. Rent and income are
 * monthly; expense items are annual, shown per month.
 */
module PropertyAnalysis {
  import opened MockData

  /** Vacancy loss per month: the rent times the vacancy rate. */
  function VacancyLoss(r: RentalInfo): (loss: real)
    ensures 0.0 <= r.vacancyRate <= 1.0 && r.estimatedRent >= 0.0 ==> 0.0 <= loss <= r.estimatedRent
  {
    var loss := r.estimatedRent * r.vacancyRate;
    assert r.estimatedRent - loss == r.estimatedRent * (1.0 - r.vacancyRate);
    loss
  }

  /**
   * Effective income per month: rent plus other income less the vacancy loss.
   * With a rate between 0 and 1 and no negative inputs it lies between the
   * other income alone and the full rent plus other income.
   */
  function EffectiveIncome(r: RentalInfo): (income: real)
    ensures income + VacancyLoss(r) == r.estimatedRent + r.otherIncome
    ensures 0.0 <= r.vacancyRate <= 1.0 && r.estimatedRent >= 0.0 && r.otherIncome >= 0.0 ==>
              r.otherIncome <= income <= r.estimatedRent + r.otherIncome
  {
    r.estimatedRent + r.otherIncome - VacancyLoss(r)
  }

  /** The "Monthly Expenses" figure: every item but the capex reserve, per month. */
  function MonthlyExpenses(e: Expenses): (m: real)
    ensures 12.0 * m == OperatingExpenses(e)
  {
    (e.propertyTax + e.insurance + e.maintenance + e.propertyManagement + e.utilities + e.hoa + e.other) / 12.0
  }

  /** The "Total Expenses" figure: every item including the capex reserve, per month. */
  function TotalExpenses(e: Expenses): (t: real)
    ensures 12.0 * t == OperatingExpenses(e) + e.capexReserve
  {
    (e.propertyTax + e.insurance + e.maintenance + e.propertyManagement + e.utilities + e.hoa + e.other
      + e.capexReserve) / 12.0
  }

  /** The five itemised rows the view lists: tax, insurance, maintenance, management, capex; per month. */
  function ExpenseRows(e: Expenses): (rows: seq<real>)
    ensures |rows| == 5
    ensures rows[0] == e.propertyTax / 12.0 && rows[1] == e.insurance / 12.0
    ensures rows[2] == e.maintenance / 12.0 && rows[3] == e.propertyManagement / 12.0
    ensures rows[4] == e.capexReserve / 12.0
  {
    [e.propertyTax / 12.0, e.insurance / 12.0, e.maintenance / 12.0, e.propertyManagement / 12.0,
     e.capexReserve / 12.0]
  }

  function Sum(xs: seq<real>): real
  {
    if xs == [] then 0.0 else xs[0] + Sum(xs[1..])
  }

  /** The payment the view shows as the mortgage: monthly operating income less monthly cash flow. */
  function MortgagePayment(c: CashFlow): (p: real)
    ensures p + c.monthlyCashFlow == c.netOperatingIncomeMonthly
  {
    c.netOperatingIncomeMonthly - c.monthlyCashFlow
  }

  /** Total Expenses is Monthly Expenses plus a twelfth of the capex reserve. */
  lemma TotalIsMonthlyPlusReserve(e: Expenses)
    ensures TotalExpenses(e) == MonthlyExpenses(e) + e.capexReserve / 12.0
  {
  }

  /**
   * The five rows add up to the total shown beneath them exactly when the
   * items without a row (utilities, HOA, other) add up to nothing.
   */
  lemma RowsSumToTotalIff(e: Expenses)
    ensures Sum(ExpenseRows(e)) == TotalExpenses(e) <==> e.utilities + e.hoa + e.other == 0.0
  {
    var rows := ExpenseRows(e);
    assert rows[4..][1..] == [];
    assert Sum(rows[4..]) == rows[4];
    assert rows[3..][1..] == rows[4..];
    assert Sum(rows[3..]) == rows[3] + rows[4];
    assert rows[2..][1..] == rows[3..];
    assert Sum(rows[2..]) == rows[2] + rows[3] + rows[4];
    assert rows[1..][1..] == rows[2..];
    assert Sum(rows[1..]) == rows[1] + rows[2] + rows[3] + rows[4];
    assert Sum(rows) == (e.propertyTax + e.insurance + e.maintenance + e.propertyManagement + e.capexReserve) / 12.0;
  }

  /**
   * Net operating income from the inputs is twelve times the effective income
   * less the monthly expenses: the view's two figures are the two halves of it.
   */
  lemma NoiIsTwelveMonthsOfIncomeLessExpenses(d: PropertyDetail)
    ensures NoiFromInputs(d) == 12.0 * (EffectiveIncome(d.rental) - MonthlyExpenses(d.expenses))
  {
    var r := d.rental;
    assert 12.0 * r.estimatedRent * (1.0 - r.vacancyRate) == 12.0 * (r.estimatedRent - r.estimatedRent * r.vacancyRate);
  }

  /**
   * On the fixture record: total expenses 13956 / 12 = 1163 a month,
   * monthly expenses 1033, effective income 2470, their difference the stored
   * monthly operating income 1437, and an implied mortgage of 1117.
   */
  lemma FixtureFigures()
    ensures TotalExpenses(MockPropertyData.expenses) == 1163.0
    ensures MonthlyExpenses(MockPropertyData.expenses) == 1033.0
    ensures EffectiveIncome(MockPropertyData.rental) == 2470.0
    ensures EffectiveIncome(MockPropertyData.rental) - MonthlyExpenses(MockPropertyData.expenses)
            == MockPropertyData.cashFlow.netOperatingIncomeMonthly
    ensures MortgagePayment(MockPropertyData.cashFlow) == 1117.0
    ensures Sum(ExpenseRows(MockPropertyData.expenses)) == TotalExpenses(MockPropertyData.expenses)
  {
    RowsSumToTotalIff(MockPropertyData.expenses);
  }
}
