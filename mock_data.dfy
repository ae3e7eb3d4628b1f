/**
 * The fixture records of the development build: three property listings and
 * one fully described property, with the consistency facts that hold of them.
 * Money amounts and rates are reals.
 */
module MockData {
  import opened Wrappers

  datatype Address = Address(
    street: string,
    city: string,
    state: string,
    zip: string,
    latitude: Option<real>,
    longitude: Option<real>)

  datatype FinancialSummary = FinancialSummary(capRate: real, cashFlow: real, cashOnCashReturn: real)

  /** One entry of the property list. */
  datatype Listing = Listing(
    propertyId: string,
    address: Address,
    price: real,
    bedrooms: int,
    bathrooms: int,
    squareFeet: int,
    summary: FinancialSummary,
    aiScore: int)

  datatype PurchaseInfo = PurchaseInfo(
    askingPrice: real,
    estimatedMarketValue: real,
    estimatedRehabCost: real,
    closingCosts: real,
    downPaymentPercent: real,
    loanInterestRate: real,
    loanTermYears: int,
    purchaseClosingDate: string)

  /** Monthly rent and other income; rates are fractions. */
  datatype RentalInfo = RentalInfo(
    estimatedRent: real,
    otherIncome: real,
    vacancyRate: real,
    managementFeePercent: real)

  /** Annual dollar amounts. */
  datatype Expenses = Expenses(
    propertyTax: real,
    insurance: real,
    maintenance: real,
    propertyManagement: real,
    utilities: real,
    hoa: real,
    other: real,
    capexReserve: real)

  datatype CashFlow = CashFlow(
    monthlyCashFlow: real,
    annualCashFlow: real,
    netOperatingIncomeMonthly: real,
    netOperatingIncomeAnnual: real,
    debtServiceCoverageRatio: real)

  datatype ReturnMetrics = ReturnMetrics(
    capRate: real,
    cashOnCashReturn: real,
    fiveYearRoi: real,
    annualizedRoi: real,
    internalRateOfReturn: real)

  datatype Trends = Trends(oneYear: real, threeYear: real, fiveYear: real)

  datatype Appreciation = Appreciation(oneYear: real, threeYear: real, fiveYear: real, confidence: string)

  datatype MarketData = MarketData(
    neighborhood: string,
    averagePrice: real,
    averageRent: real,
    vacancyRate: real,
    priceTrends: Trends,
    rentTrends: Trends,
    predictedAppreciation: Appreciation)

  /** The full description of one property, as the detail route returns it. */
  datatype PropertyDetail = PropertyDetail(
    propertyId: string,
    address: Address,
    propertyType: string,
    price: real,
    bedrooms: int,
    bathrooms: int,
    squareFeet: int,
    yearBuilt: int,
    lotSize: real,
    purchase: PurchaseInfo,
    rental: RentalInfo,
    expenses: Expenses,
    aiScore: int,
    riskScore: real,
    opportunityScore: real,
    cashFlow: CashFlow,
    returnMetrics: ReturnMetrics,
    market: MarketData)

  function AnytownAddress(street: string): Address
  {
    Address(street, "Anytown", "CA", "90210", None, None)
  }

  /** `mockProperties`, in declaration order. */
  const MockProperties: seq<Listing> := [
    Listing("prop_12345", AnytownAddress("123 Main St"), 450000.0, 3, 2, 1850,
            FinancialSummary(0.052, 320.0, 0.043), 94),
    Listing("prop_23456", AnytownAddress("456 Oak Ave"), 325000.0, 2, 1, 1200,
            FinancialSummary(0.078, 450.0, 0.065), 91),
    Listing("prop_34567", AnytownAddress("789 Pine St"), 550000.0, 4, 3, 2400,
            FinancialSummary(0.048, 280.0, 0.038), 87)
  ]

  /** `mockPropertyData`. */
  const MockPropertyData: PropertyDetail := PropertyDetail(
    "prop_12345",
    Address("123 Main St", "Anytown", "CA", "90210", Some(34.0522), Some(-118.2437)),
    "single_family",
    450000.0, 3, 2, 1850, 1985, 0.25,
    PurchaseInfo(450000.0, 465000.0, 15000.0, 4500.0, 0.2, 0.0425, 30, "2023-07-15"),
    RentalInfo(2600.0, 0.0, 0.05, 0.08),
    Expenses(5400.0, 1800.0, 2700.0, 2496.0, 0.0, 0.0, 0.0, 1560.0),
    94, 2.1, 8.7,
    CashFlow(320.0, 3840.0, 1437.0, 17244.0, 1.28),
    ReturnMetrics(0.052, 0.043, 0.412, 0.071, 0.092),
    MarketData("Downtown", 475000.0, 2550.0, 0.04,
               Trends(0.058, 0.142, 0.237),
               Trends(0.042, 0.112, 0.186),
               Appreciation(0.045, 0.12, 0.18, "high")))

  /** The annual operating expenses the records count against income: every item but the capex reserve. */
  function OperatingExpenses(e: Expenses): real
  {
    e.propertyTax + e.insurance + e.maintenance + e.propertyManagement + e.utilities + e.hoa + e.other
  }

  /** Annual net operating income from the rental inputs and the expense items. */
  function NoiFromInputs(d: PropertyDetail): real
  {
    12.0 * d.rental.estimatedRent * (1.0 - d.rental.vacancyRate)
      + 12.0 * d.rental.otherIncome
      - OperatingExpenses(d.expenses)
  }

  /** A listing's stated physical invariants: a positive price and no negative room counts. */
  predicate SaneListing(p: Listing)
  {
    p.price > 0.0 && p.bedrooms >= 0 && p.bathrooms >= 0
  }

  /** The three listing ids are pairwise distinct. */
  lemma FixtureIdsDistinct()
    ensures forall i, j :: 0 <= i < j < |MockProperties| ==>
              MockProperties[i].propertyId != MockProperties[j].propertyId
  {
  }

  /** Every listing is in Anytown, and the scores fall strictly down the list (94, 91, 87). */
  lemma FixtureCitiesAndScores()
    ensures forall i :: 0 <= i < |MockProperties| ==> MockProperties[i].address.city == "Anytown"
    ensures forall i, j :: 0 <= i < j < |MockProperties| ==>
              MockProperties[i].aiScore > MockProperties[j].aiScore
  {
  }

  /** Prices are positive and room counts non-negative, in the list and in the detail record. */
  lemma FixturesSane()
    ensures forall i :: 0 <= i < |MockProperties| ==> SaneListing(MockProperties[i])
    ensures MockPropertyData.price > 0.0
    ensures MockPropertyData.bedrooms >= 0 && MockPropertyData.bathrooms >= 0
  {
  }

  /** The flat management expense is the monthly rent times twelve times the fee rate (2496). */
  lemma ManagementFeeMatchesRate()
    ensures MockPropertyData.expenses.propertyManagement ==
            MockPropertyData.rental.estimatedRent * 12.0 * MockPropertyData.rental.managementFeePercent
  {
  }

  /**
   * The stored annual net operating income (17244) is effective gross income
   * less every expense item except the capex reserve; counting the reserve too
   * would give a different figure.
   */
  lemma NoiMatchesInputs()
    ensures MockPropertyData.cashFlow.netOperatingIncomeAnnual == NoiFromInputs(MockPropertyData)
    ensures MockPropertyData.cashFlow.netOperatingIncomeAnnual !=
            NoiFromInputs(MockPropertyData) - MockPropertyData.expenses.capexReserve
  {
  }

  /** Annual figures are twelve monthly ones. */
  lemma AnnualIsTwelveMonthly()
    ensures MockPropertyData.cashFlow.netOperatingIncomeAnnual ==
            12.0 * MockPropertyData.cashFlow.netOperatingIncomeMonthly
    ensures MockPropertyData.cashFlow.annualCashFlow == 12.0 * MockPropertyData.cashFlow.monthlyCashFlow
  {
  }

  /** The first listing summarises the detail record: same id, price, rooms, score and return figures. */
  lemma SummaryAgreesWithDetail()
    ensures MockProperties[0].propertyId == MockPropertyData.propertyId
    ensures MockProperties[0].price == MockPropertyData.price
    ensures MockProperties[0].bedrooms == MockPropertyData.bedrooms
    ensures MockProperties[0].bathrooms == MockPropertyData.bathrooms
    ensures MockProperties[0].squareFeet == MockPropertyData.squareFeet
    ensures MockProperties[0].aiScore == MockPropertyData.aiScore
    ensures MockProperties[0].summary.capRate == MockPropertyData.returnMetrics.capRate
    ensures MockProperties[0].summary.cashFlow == MockPropertyData.cashFlow.monthlyCashFlow
    ensures MockProperties[0].summary.cashOnCashReturn == MockPropertyData.returnMetrics.cashOnCashReturn
  {
  }

  /**
   * The stored cap rate is a literal, not net operating income over price:
   * 17244 / 450000 is below 0.039, while the record says 0.052.
   */
  lemma StoredCapRateIsNotNoiOverPrice()
    ensures MockPropertyData.cashFlow.netOperatingIncomeAnnual / MockPropertyData.price < 0.039
    ensures MockPropertyData.returnMetrics.capRate > 0.05
  {
  }
}
