/** The pricing engine of the plan page: the base price from a rate table chosen by billing
    interval and client type, the overage charged in whole bundles, the trial override, and the
    fixed renewal-preview table with its 5% tax. Amounts are whole dollars, except the preview and
    invoice amounts, which are cents so that the tax is exact. */
module Pricing {

  datatype BillingInterval = Monthly | Yearly | Custom

  /** Resources included with a client type; the resource sliders start here and reach five times it. */
  datatype Tier = Tier(students: int, teachers: int, admins: int)

  /** The tier base: a reseller partner includes more of each resource than a direct institution. */
  function TierBase(isReseller: bool): Tier
  {
    if isReseller then Tier(2000, 50, 10) else Tier(500, 20, 2)
  }

  /** Extra students are sold per hundred, extra teachers per five, extra admins one by one. */
  const StudentBundle: int := 100
  const TeacherBundle: int := 5

  /** The rates of one billing interval. */
  datatype RateTable = RateTable(
    campusStarter: int, institutionPro: int, enterpriseElite: int,
    resellerBase: int, student: int, teacher: int, admin: int)

  /** Monthly billing has its own rates; every other interval, Custom included, uses the yearly ones. */
  function Rates(interval: BillingInterval): RateTable
  {
    var isMonthly := interval == Monthly;
    RateTable(
      if isMonthly then 120 else 1200,
      if isMonthly then 240 else 2400,
      if isMonthly then 500 else 5000,
      if isMonthly then 350 else 3500,
      if isMonthly then 5 else 50,
      if isMonthly then 5 else 50,
      if isMonthly then 10 else 100)
  }

  /** The rate of a plan group; a group the table does not know is priced as Campus Starter. */
  function GroupRate(rates: RateTable, planGroup: string): int
  {
    if planGroup == "Campus Starter" then rates.campusStarter
    else if planGroup == "Institution Pro" then rates.institutionPro
    else if planGroup == "Enterprise Elite" then rates.enterpriseElite
    else rates.campusStarter
  }

  /** A reseller pays the flat reseller rate whatever the plan group. */
  function BasePrice(interval: BillingInterval, planGroup: string, isReseller: bool): int
  {
    if isReseller then Rates(interval).resellerBase else GroupRate(Rates(interval), planGroup)
  }

  /** Units above the included base, never negative. */
  function Extra(limit: int, base: int): nat
  {
    if limit > base then limit - base else 0
  }

  /** The number of whole bundles of size d needed to cover n units: enough bundles, and one
      fewer would not be enough. */
  function CeilDiv(n: nat, d: int): (q: nat)
    requires d > 0
    ensures q * d >= n
    ensures q * d < n + d
  {
    var q := (n + d - 1) / d;
    assert n + d - 1 == q * d + (n + d - 1) % d;
    q
  }

  /** What the pricing engine reads: the plan being configured. */
  datatype PlanConfig = PlanConfig(
    interval: BillingInterval, planGroup: string, isReseller: bool,
    studentLimit: int, teacherLimit: int, adminLimit: int, isTrial: bool)

  datatype PricingBreakdown = PricingBreakdown(
    basePrice: int, studentCost: int, teacherCost: int, adminCost: int,
    total: int, futureRenewalPrice: int,
    extraStudents: int, extraTeachers: int, extraAdmins: int,
    intervalLabel: string)

  /** The cost breakdown of a plan. A trial costs nothing now, but the renewal price it forecasts
      is still the full subtotal. */
  function GetPricingBreakdown(c: PlanConfig): (r: PricingBreakdown)
    ensures r.extraStudents >= 0 && r.extraTeachers >= 0 && r.extraAdmins >= 0
    ensures r.basePrice > 0 && r.studentCost >= 0 && r.teacherCost >= 0 && r.adminCost >= 0
    ensures r.futureRenewalPrice == r.basePrice + r.studentCost + r.teacherCost + r.adminCost
    ensures c.isTrial ==> r.total == 0
    ensures !c.isTrial ==> r.total == r.futureRenewalPrice
    ensures 0 <= r.total <= r.futureRenewalPrice
  {
    var rates := Rates(c.interval);
    var limits := TierBase(c.isReseller);
    var basePrice := BasePrice(c.interval, c.planGroup, c.isReseller);
    var extraStudents := Extra(c.studentLimit, limits.students);
    var extraTeachers := Extra(c.teacherLimit, limits.teachers);
    var extraAdmins := Extra(c.adminLimit, limits.admins);
    var studentCost := CeilDiv(extraStudents, StudentBundle) * rates.student;
    var teacherCost := CeilDiv(extraTeachers, TeacherBundle) * rates.teacher;
    var adminCost := extraAdmins * rates.admin;
    var subtotal := basePrice + studentCost + teacherCost + adminCost;
    PricingBreakdown(
      basePrice, studentCost, teacherCost, adminCost,
      if c.isTrial then 0 else subtotal, subtotal,
      extraStudents, extraTeachers, extraAdmins,
      if c.interval == Monthly then "/mo" else "/yr")
  }

  /** The bundle count is the least that covers the extra units. */
  lemma CeilDivIsLeast(n: nat, d: int, k: nat)
    requires d > 0
    requires k * d >= n
    ensures CeilDiv(n, d) <= k
  {
    var q := CeilDiv(n, d);
    assert (q - k - 1) * d == q * d - k * d - d;
    NegativeProductFactor(q - k - 1, d);
  }

  /** Arithmetic helper for CeilDivIsLeast: a product with a positive factor is negative only
      when the other factor is. */
  lemma NegativeProductFactor(x: int, d: int)
    requires d > 0
    requires x * d < 0
    ensures x < 0
  {
  }

  /** More units never need fewer bundles. */
  lemma CeilDivMonotone(m: nat, n: nat, d: int)
    requires d > 0
    requires m <= n
    ensures CeilDiv(m, d) <= CeilDiv(n, d)
  {
    CeilDivIsLeast(m, d, CeilDiv(n, d));
  }

  /** One or a hundred extra students cost one bundle, a hundred and one cost two; one to five
      extra teachers cost one bundle, six cost two. */
  lemma BundleRounding()
    ensures CeilDiv(0, StudentBundle) == 0
    ensures CeilDiv(1, StudentBundle) == 1 && CeilDiv(100, StudentBundle) == 1
    ensures CeilDiv(101, StudentBundle) == 2
    ensures CeilDiv(1, TeacherBundle) == 1 && CeilDiv(5, TeacherBundle) == 1
    ensures CeilDiv(6, TeacherBundle) == 2
  {
  }

  /** The base-price rules: the reseller flat rate overrides the plan group, an unknown group is
      priced as Campus Starter, and every interval other than Monthly uses the yearly rates. */
  lemma BasePriceRules(interval: BillingInterval, planGroup: string, isReseller: bool)
    ensures isReseller ==> BasePrice(interval, planGroup, isReseller) == (if interval == Monthly then 350 else 3500)
    ensures planGroup !in {"Campus Starter", "Institution Pro", "Enterprise Elite"} ==>
              BasePrice(interval, planGroup, isReseller) == BasePrice(interval, "Campus Starter", isReseller)
    ensures interval != Monthly ==>
              BasePrice(interval, planGroup, isReseller) == BasePrice(Yearly, planGroup, isReseller)
    ensures !isReseller && planGroup == "Institution Pro" ==>
              BasePrice(interval, planGroup, isReseller) == (if interval == Monthly then 240 else 2400)
    ensures !isReseller && planGroup == "Enterprise Elite" ==>
              BasePrice(interval, planGroup, isReseller) == (if interval == Monthly then 500 else 5000)
  {
  }

  /** A Custom interval is priced and labelled exactly as a yearly one. */
  lemma CustomBilledAsYearly(c: PlanConfig)
    ensures GetPricingBreakdown(c.(interval := Custom)) == GetPricingBreakdown(c.(interval := Yearly))
    ensures GetPricingBreakdown(c.(interval := Custom)).intervalLabel == "/yr"
    ensures GetPricingBreakdown(c.(interval := Monthly)).intervalLabel == "/mo"
  {
  }

  /** Every yearly rate is ten times the monthly one, so a yearly plan costs ten monthly plans. */
  lemma YearlyIsTenMonths(c: PlanConfig)
    requires c.interval != Monthly
    ensures GetPricingBreakdown(c).futureRenewalPrice ==
              10 * GetPricingBreakdown(c.(interval := Monthly)).futureRenewalPrice
  {
  }

  /** For a reseller the plan group plays no part in the price. */
  lemma ResellerIgnoresPlanGroup(c: PlanConfig, otherGroup: string)
    requires c.isReseller
    ensures GetPricingBreakdown(c) == GetPricingBreakdown(c.(planGroup := otherGroup))
  {
  }

  /** Raising any resource limit, other things equal, never lowers a cost or the renewal price. */
  lemma CostsMonotone(c: PlanConfig, d: PlanConfig)
    requires d == c.(studentLimit := d.studentLimit, teacherLimit := d.teacherLimit, adminLimit := d.adminLimit)
    requires c.studentLimit <= d.studentLimit
    requires c.teacherLimit <= d.teacherLimit
    requires c.adminLimit <= d.adminLimit
    ensures GetPricingBreakdown(c).studentCost <= GetPricingBreakdown(d).studentCost
    ensures GetPricingBreakdown(c).teacherCost <= GetPricingBreakdown(d).teacherCost
    ensures GetPricingBreakdown(c).adminCost <= GetPricingBreakdown(d).adminCost
    ensures GetPricingBreakdown(c).futureRenewalPrice <= GetPricingBreakdown(d).futureRenewalPrice
  {
    var base := TierBase(c.isReseller);
    CeilDivMonotone(Extra(c.studentLimit, base.students), Extra(d.studentLimit, base.students), StudentBundle);
    CeilDivMonotone(Extra(c.teacherLimit, base.teachers), Extra(d.teacherLimit, base.teachers), TeacherBundle);
  }

  /** How the overage is charged: each extra is the part of the limit above the tier base, or zero;
      students and teachers are charged per started bundle, admins one by one. */
  lemma OverageRules(c: PlanConfig)
    ensures var r := GetPricingBreakdown(c); var base := TierBase(c.isReseller);
            r.extraStudents == (if c.studentLimit > base.students then c.studentLimit - base.students else 0) &&
            r.extraTeachers == (if c.teacherLimit > base.teachers then c.teacherLimit - base.teachers else 0) &&
            r.extraAdmins == (if c.adminLimit > base.admins then c.adminLimit - base.admins else 0)
    ensures var r := GetPricingBreakdown(c); var rates := Rates(c.interval);
            r.studentCost == CeilDiv(r.extraStudents, StudentBundle) * rates.student &&
            r.teacherCost == CeilDiv(r.extraTeachers, TeacherBundle) * rates.teacher &&
            r.adminCost == r.extraAdmins * rates.admin
  {
  }

  /** The limits are inside what the resource sliders allow: from the tier base to five times it. */
  predicate WithinSliderRange(c: PlanConfig)
  {
    var base := TierBase(c.isReseller);
    base.students <= c.studentLimit <= 5 * base.students &&
    base.teachers <= c.teacherLimit <= 5 * base.teachers &&
    base.admins <= c.adminLimit <= 5 * base.admins
  }

  /** At the tier base nothing is extra, and the subtotal is the base price. */
  lemma AtTierBaseNoExtras(c: PlanConfig)
    requires c.studentLimit == TierBase(c.isReseller).students
    requires c.teacherLimit == TierBase(c.isReseller).teachers
    requires c.adminLimit == TierBase(c.isReseller).admins
    ensures WithinSliderRange(c)
    ensures GetPricingBreakdown(c).extraStudents == 0 && GetPricingBreakdown(c).studentCost == 0
    ensures GetPricingBreakdown(c).extraTeachers == 0 && GetPricingBreakdown(c).teacherCost == 0
    ensures GetPricingBreakdown(c).extraAdmins == 0 && GetPricingBreakdown(c).adminCost == 0
    ensures GetPricingBreakdown(c).futureRenewalPrice == GetPricingBreakdown(c).basePrice
  {
  }

  /** Inside the slider range each extra is at most four times the included base, so the overage
      of a plan is bounded: at most 80 student bundles, 40 teacher bundles and 40 extra admins. */
  lemma SliderRangeBoundsOverage(c: PlanConfig)
    requires WithinSliderRange(c)
    ensures GetPricingBreakdown(c).extraStudents <= 4 * TierBase(c.isReseller).students
    ensures GetPricingBreakdown(c).extraTeachers <= 4 * TierBase(c.isReseller).teachers
    ensures GetPricingBreakdown(c).extraAdmins <= 4 * TierBase(c.isReseller).admins
    ensures GetPricingBreakdown(c).studentCost <= 80 * Rates(c.interval).student
    ensures GetPricingBreakdown(c).teacherCost <= 40 * Rates(c.interval).teacher
  {
    var base := TierBase(c.isReseller);
    var extraS := Extra(c.studentLimit, base.students);
    var extraT := Extra(c.teacherLimit, base.teachers);
    CeilDivIsLeast(extraS, StudentBundle, if c.isReseller then 80 else 20);
    CeilDivIsLeast(extraT, TeacherBundle, if c.isReseller then 40 else 16);
  }

  /** Worked example: Campus Starter, yearly, direct, at the base limits costs 1200 with no extras. */
  lemma CampusStarterAtBase()
    ensures var r := GetPricingBreakdown(PlanConfig(Yearly, "Campus Starter", false, 500, 20, 2, false));
            r.total == 1200 && r.studentCost == 0 && r.teacherCost == 0 && r.adminCost == 0
  {
  }

  /** Worked example: the same plan with 550 students has 50 extra students, charged as one
      bundle at 50, for a total of 1250. */
  lemma CampusStarterExtraStudents()
    ensures var r := GetPricingBreakdown(PlanConfig(Yearly, "Campus Starter", false, 550, 20, 2, false));
            r.extraStudents == 50 && r.studentCost == 50 && r.total == 1250
  {
  }

  /** The renewal preview's subtotal by duration: a fixed table, not the pricing engine. Any
      duration other than the first three is priced as two years. */
  function DurationPrice(duration: string): int
  {
    if duration == "1 Month" then 120
    else if duration == "6 Months" then 650
    else if duration == "1 Year" then 1200
    else 2200
  }

  /** Preview totals in cents. */
  datatype PreviewTotals = PreviewTotals(subtotalCents: int, taxCents: int, totalCents: int)

  /** The invoice preview: the duration's price, 5% tax on it, and their sum, which is exactly
      105% of the price. */
  function GetPreviewTotals(duration: string): (p: PreviewTotals)
    ensures p.subtotalCents == 100 * DurationPrice(duration)
    ensures 20 * p.taxCents == p.subtotalCents
    ensures p.totalCents == p.subtotalCents + p.taxCents
    ensures p.totalCents == 105 * DurationPrice(duration)
  {
    var baseVal := DurationPrice(duration);
    PreviewTotals(baseVal * 100, baseVal * 5, baseVal * 105)
  }

  /** The preview table: totals of 126.00, 682.50, 1260.00 and 2310.00, the last for two years
      and for any duration the table does not name. */
  lemma PreviewTotalsTable(duration: string)
    ensures GetPreviewTotals("1 Month").totalCents == 12600
    ensures GetPreviewTotals("6 Months").totalCents == 68250
    ensures GetPreviewTotals("1 Year").totalCents == 126000
    ensures GetPreviewTotals("2 Years").totalCents == 231000
    ensures duration !in {"1 Month", "6 Months", "1 Year"} ==> GetPreviewTotals(duration).totalCents == 231000
  {
  }
}
