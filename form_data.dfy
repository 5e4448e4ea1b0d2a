/** The form record of the manufacturing prediction page: 25 text fields, all
    of which hold the raw string the user typed or selected. */
module FormModel {

  /** The names of the 25 fields of the form record, in declaration order. */
  datatype Field =
    | CompanyName | IndustryType | CompanySize | OperatingYears
    | MonthlyOutput | ProductionCapacity | CapacityUtilization
    | ProductionEfficiency | DefectRate | ReworkRate | CustomerSatisfaction
    | ReturnRate | MonthlyRevenue | ProductionCost | ProfitMargin
    | OperationalCost | EmployeeCount | MachineHours | DowntimeHours
    | MaintenanceFreq | MarketDemand | CompetitionLevel | EconomicCondition
    | Seasonality | AdditionalNotes

  datatype FormData = FormData(
    companyName: string,
    industryType: string,
    companySize: string,
    operatingYears: string,
    monthlyOutput: string,
    productionCapacity: string,
    capacityUtilization: string,
    productionEfficiency: string,
    defectRate: string,
    reworkRate: string,
    customerSatisfaction: string,
    returnRate: string,
    monthlyRevenue: string,
    productionCost: string,
    profitMargin: string,
    operationalCost: string,
    employeeCount: string,
    machineHours: string,
    downtimeHours: string,
    maintenanceFreq: string,
    marketDemand: string,
    competitionLevel: string,
    economicCondition: string,
    seasonality: string,
    additionalNotes: string)
  {
    /** The value of field `f`. */
    function Get(f: Field): string {
      match f
      case CompanyName => companyName
      case IndustryType => industryType
      case CompanySize => companySize
      case OperatingYears => operatingYears
      case MonthlyOutput => monthlyOutput
      case ProductionCapacity => productionCapacity
      case CapacityUtilization => capacityUtilization
      case ProductionEfficiency => productionEfficiency
      case DefectRate => defectRate
      case ReworkRate => reworkRate
      case CustomerSatisfaction => customerSatisfaction
      case ReturnRate => returnRate
      case MonthlyRevenue => monthlyRevenue
      case ProductionCost => productionCost
      case ProfitMargin => profitMargin
      case OperationalCost => operationalCost
      case EmployeeCount => employeeCount
      case MachineHours => machineHours
      case DowntimeHours => downtimeHours
      case MaintenanceFreq => maintenanceFreq
      case MarketDemand => marketDemand
      case CompetitionLevel => competitionLevel
      case EconomicCondition => economicCondition
      case Seasonality => seasonality
      case AdditionalNotes => additionalNotes
    }

    /** The record with field `f` replaced by `v`: `{ ...prev, [f]: v }`. */
    function With(f: Field, v: string): (d: FormData)
      ensures d.Get(f) == v
      ensures forall g :: g != f ==> d.Get(g) == Get(g)
    {
      match f
      case CompanyName => this.(companyName := v)
      case IndustryType => this.(industryType := v)
      case CompanySize => this.(companySize := v)
      case OperatingYears => this.(operatingYears := v)
      case MonthlyOutput => this.(monthlyOutput := v)
      case ProductionCapacity => this.(productionCapacity := v)
      case CapacityUtilization => this.(capacityUtilization := v)
      case ProductionEfficiency => this.(productionEfficiency := v)
      case DefectRate => this.(defectRate := v)
      case ReworkRate => this.(reworkRate := v)
      case CustomerSatisfaction => this.(customerSatisfaction := v)
      case ReturnRate => this.(returnRate := v)
      case MonthlyRevenue => this.(monthlyRevenue := v)
      case ProductionCost => this.(productionCost := v)
      case ProfitMargin => this.(profitMargin := v)
      case OperationalCost => this.(operationalCost := v)
      case EmployeeCount => this.(employeeCount := v)
      case MachineHours => this.(machineHours := v)
      case DowntimeHours => this.(downtimeHours := v)
      case MaintenanceFreq => this.(maintenanceFreq := v)
      case MarketDemand => this.(marketDemand := v)
      case CompetitionLevel => this.(competitionLevel := v)
      case EconomicCondition => this.(economicCondition := v)
      case Seasonality => this.(seasonality := v)
      case AdditionalNotes => this.(additionalNotes := v)
    }
  }

  /** The record the page starts with and `resetForm` restores: every field "". */
  function Blank(): (d: FormData)
    ensures forall f :: d.Get(f) == ""
  {
    FormData("", "", "", "", "", "", "", "", "", "", "", "", "", "",
             "", "", "", "", "", "", "", "", "", "", "")
  }

  /** Two records that agree on every field are the same record. */
  lemma {:induction false} Extensionality(d: FormData, e: FormData)
    requires forall f :: d.Get(f) == e.Get(f)
    ensures d == e
  {
    assert d.companyName == e.companyName by { assert d.Get(CompanyName) == e.Get(CompanyName); }
    assert d.industryType == e.industryType by { assert d.Get(IndustryType) == e.Get(IndustryType); }
    assert d.companySize == e.companySize by { assert d.Get(CompanySize) == e.Get(CompanySize); }
    assert d.operatingYears == e.operatingYears by { assert d.Get(OperatingYears) == e.Get(OperatingYears); }
    assert d.monthlyOutput == e.monthlyOutput by { assert d.Get(MonthlyOutput) == e.Get(MonthlyOutput); }
    assert d.productionCapacity == e.productionCapacity by { assert d.Get(ProductionCapacity) == e.Get(ProductionCapacity); }
    assert d.capacityUtilization == e.capacityUtilization by { assert d.Get(CapacityUtilization) == e.Get(CapacityUtilization); }
    assert d.productionEfficiency == e.productionEfficiency by { assert d.Get(ProductionEfficiency) == e.Get(ProductionEfficiency); }
    assert d.defectRate == e.defectRate by { assert d.Get(DefectRate) == e.Get(DefectRate); }
    assert d.reworkRate == e.reworkRate by { assert d.Get(ReworkRate) == e.Get(ReworkRate); }
    assert d.customerSatisfaction == e.customerSatisfaction by { assert d.Get(CustomerSatisfaction) == e.Get(CustomerSatisfaction); }
    assert d.returnRate == e.returnRate by { assert d.Get(ReturnRate) == e.Get(ReturnRate); }
    assert d.monthlyRevenue == e.monthlyRevenue by { assert d.Get(MonthlyRevenue) == e.Get(MonthlyRevenue); }
    assert d.productionCost == e.productionCost by { assert d.Get(ProductionCost) == e.Get(ProductionCost); }
    assert d.profitMargin == e.profitMargin by { assert d.Get(ProfitMargin) == e.Get(ProfitMargin); }
    assert d.operationalCost == e.operationalCost by { assert d.Get(OperationalCost) == e.Get(OperationalCost); }
    assert d.employeeCount == e.employeeCount by { assert d.Get(EmployeeCount) == e.Get(EmployeeCount); }
    assert d.machineHours == e.machineHours by { assert d.Get(MachineHours) == e.Get(MachineHours); }
    assert d.downtimeHours == e.downtimeHours by { assert d.Get(DowntimeHours) == e.Get(DowntimeHours); }
    assert d.maintenanceFreq == e.maintenanceFreq by { assert d.Get(MaintenanceFreq) == e.Get(MaintenanceFreq); }
    assert d.marketDemand == e.marketDemand by { assert d.Get(MarketDemand) == e.Get(MarketDemand); }
    assert d.competitionLevel == e.competitionLevel by { assert d.Get(CompetitionLevel) == e.Get(CompetitionLevel); }
    assert d.economicCondition == e.economicCondition by { assert d.Get(EconomicCondition) == e.Get(EconomicCondition); }
    assert d.seasonality == e.seasonality by { assert d.Get(Seasonality) == e.Get(Seasonality); }
    assert d.additionalNotes == e.additionalNotes by { assert d.Get(AdditionalNotes) == e.Get(AdditionalNotes); }
  }

  /** Writing a field with the value it already holds changes nothing. */
  lemma {:induction false} WithSameValue(d: FormData, f: Field)
    ensures d.With(f, d.Get(f)) == d
  {
    Extensionality(d.With(f, d.Get(f)), d);
  }

  /** The last write to a field wins. */
  lemma {:induction false} WithOverwrite(d: FormData, f: Field, v: string, w: string)
    ensures d.With(f, v).With(f, w) == d.With(f, w)
  {
    var a := d.With(f, v);
    var b := a.With(f, w);
    var c := d.With(f, w);
    forall h ensures b.Get(h) == c.Get(h) {
      if h != f {
        assert b.Get(h) == a.Get(h) == d.Get(h);
      }
    }
    Extensionality(b, c);
  }
}
