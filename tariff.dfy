/** The rate card of the quotation builder: one flat or per-unit rate per
    named charge. It is a plain configuration value, handed to the pricing
    functions as a parameter, so that rates can change without touching the
    pricing logic. */
module Tariffs {

  datatype Tariff = Tariff(
    // Common to both modes
    customClearance: real,          // flat, per quotation
    gateMechanical: real,           // per trailer
    gateHydraulic: real,            // per trailer
    // MAFI mode
    handlingOption1: real,          // per metric ton (direct handling)
    handlingOption2: real,          // per metric ton (double handling)
    lashingCharges: real,           // per metric ton
    lashingManpowerPerMafi: real,   // per mafi unit
    surveyPerMafi: real,            // per mafi unit
    tugMasterPerMafi: real,         // per mafi unit
    // BBK mode
    bbkHandlingPerCbm: real,        // per cubic metre
    bbkSurveyLumpsum: real,         // flat
    bbkPortPermission: real,        // flat
    bbkSecurityPerShiftPerson: real // per person per shift
  ) {
    /** Every rate is non-negative: the condition under which no charge can be negative. */
    predicate NonNegative() {
      customClearance >= 0.0 && gateMechanical >= 0.0 && gateHydraulic >= 0.0 &&
      handlingOption1 >= 0.0 && handlingOption2 >= 0.0 && lashingCharges >= 0.0 &&
      lashingManpowerPerMafi >= 0.0 && surveyPerMafi >= 0.0 && tugMasterPerMafi >= 0.0 &&
      bbkHandlingPerCbm >= 0.0 && bbkSurveyLumpsum >= 0.0 && bbkPortPermission >= 0.0 &&
      bbkSecurityPerShiftPerson >= 0.0
    }
  }

  /** The rates the application ships with. */
  const Default: Tariff := Tariff(
    customClearance := 20000.0,
    gateMechanical := 600.0,
    gateHydraulic := 2000.0,
    handlingOption1 := 900.0,
    handlingOption2 := 1800.0,
    lashingCharges := 1100.0,
    lashingManpowerPerMafi := 3000.0,
    surveyPerMafi := 2500.0,
    tugMasterPerMafi := 8800.0,
    bbkHandlingPerCbm := 175.0,
    bbkSurveyLumpsum := 2500.0,
    bbkPortPermission := 2500.0,
    bbkSecurityPerShiftPerson := 850.0
  )
}
