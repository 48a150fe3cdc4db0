/** The pricing engine of the quotation builder: the quantities derived once
    from the form (volume, clearance, gate charge) and the per-mode charges and
    totals, each a pure function of a tariff and a request. */
module Pricing {
  import opened Tariffs

  /** A shipping mode the user can select. */
  datatype Mode = Mafi | Bbk

  /** The two entries of the trailer-type selector, as displayed. */
  const MechanicalTrailer: string := "Mechanical Trailer (<50 MT & <12 m)"
  const HydraulicTrailer: string := "Hydraulic Axle Trailer (>50 MT & >14 m)"

  /** One snapshot of the input form. Dimensions are in metres, weight in
      metric tons; `modes` is the multiselect list, in selection order. The
      security counts are those of the BBK section (0 when it is not shown). */
  datatype Request = Request(
    length: real,
    width: real,
    height: real,
    weight: real,
    trailers: nat,
    mafis: nat,
    modes: seq<Mode>,
    trailerType: string,
    includeClearance: bool,
    securityPersons: nat,
    securityShifts: nat
  ) {
    /** Dimensions and weight are non-negative (the form itself does not enforce it). */
    predicate NonNegativeCargo() {
      length >= 0.0 && width >= 0.0 && height >= 0.0 && weight >= 0.0
    }
  }

  predicate StartsWith(s: string, prefix: string) {
    |prefix| <= |s| && s[..|prefix|] == prefix
  }

  /** The mechanical gate rate applies to a trailer type that starts with "Mechanical". */
  predicate IsMechanical(trailerType: string) {
    StartsWith(trailerType, "Mechanical")
  }

  // ---------------------------------------------------------------------
  // Shared derivations
  // ---------------------------------------------------------------------

  /** Cargo volume in cubic metres. */
  function Volume(req: Request): real {
    req.length * req.width * req.height
  }

  function ClearanceCharge(t: Tariff, included: bool): real {
    if included then t.customClearance else 0.0
  }

  function GateRate(t: Tariff, trailerType: string): real {
    if IsMechanical(trailerType) then t.gateMechanical else t.gateHydraulic
  }

  function GateCharge(t: Tariff, req: Request): real {
    GateRate(t, req.trailerType) * req.trailers as real
  }

  // ---------------------------------------------------------------------
  // MAFI mode
  // ---------------------------------------------------------------------

  /** The charges of a MAFI quotation. The two handling options are
      alternatives: each option total is the shared subtotal plus one of them. */
  datatype MafiCharges = MafiCharges(
    clearance: real,
    gate: real,
    handling1: real,
    handling2: real,
    lashing: real,
    lashingManpower: real,
    survey: real,
    tugMaster: real
  ) {
    /** The charges common to both options. */
    function CommonTotal(): real {
      clearance + gate + lashing + lashingManpower + survey + tugMaster
    }

    function Option1Total(): real {
      CommonTotal() + handling1
    }

    function Option2Total(): real {
      CommonTotal() + handling2
    }
  }

  function MafiChargesOf(t: Tariff, req: Request): MafiCharges {
    MafiCharges(
      clearance := ClearanceCharge(t, req.includeClearance),
      gate := GateCharge(t, req),
      handling1 := t.handlingOption1 * req.weight,
      handling2 := t.handlingOption2 * req.weight,
      lashing := t.lashingCharges * req.weight,
      lashingManpower := t.lashingManpowerPerMafi * req.mafis as real,
      survey := t.surveyPerMafi * req.mafis as real,
      tugMaster := t.tugMasterPerMafi * req.mafis as real
    )
  }

  // ---------------------------------------------------------------------
  // BBK mode
  // ---------------------------------------------------------------------

  /** The charges of a BBK (break-bulk) quotation, priced by volume. */
  datatype BbkCharges = BbkCharges(
    clearance: real,
    gate: real,
    handling: real,
    survey: real,
    portPermission: real,
    security: real
  ) {
    function Total(): real {
      clearance + gate + handling + survey + portPermission + security
    }
  }

  function BbkChargesOf(t: Tariff, req: Request): BbkCharges {
    BbkCharges(
      clearance := ClearanceCharge(t, req.includeClearance),
      gate := GateCharge(t, req),
      handling := t.bbkHandlingPerCbm * Volume(req),
      survey := t.bbkSurveyLumpsum,
      portPermission := t.bbkPortPermission,
      security := t.bbkSecurityPerShiftPerson * req.securityPersons as real * req.securityShifts as real
    )
  }

  // ---------------------------------------------------------------------
  // Properties
  // ---------------------------------------------------------------------

  /** The mechanical entry of the selector gets the mechanical rate, the
      hydraulic entry the hydraulic one; any text that begins with
      "Mechanical" gets the mechanical rate, whatever follows. */
  lemma TrailerOptionsSelectRates(t: Tariff, suffix: string)
    ensures IsMechanical(MechanicalTrailer) && !IsMechanical(HydraulicTrailer)
    ensures GateRate(t, MechanicalTrailer) == t.gateMechanical
    ensures GateRate(t, HydraulicTrailer) == t.gateHydraulic
    ensures GateRate(t, "Mechanical" + suffix) == t.gateMechanical
  {
    assert HydraulicTrailer[0] == 'H';
    assert ("Mechanical" + suffix)[..10] == "Mechanical";
  }

  /** Choosing another trailer type replaces the gate charge by the new rate
      times the trailer count and leaves every other charge of both modes as it was. */
  lemma TrailerTypeOnlyChangesGate(t: Tariff, req: Request, trailerType: string)
    ensures MafiChargesOf(t, req.(trailerType := trailerType))
         == MafiChargesOf(t, req).(gate := GateRate(t, trailerType) * req.trailers as real)
    ensures BbkChargesOf(t, req.(trailerType := trailerType))
         == BbkChargesOf(t, req).(gate := GateRate(t, trailerType) * req.trailers as real)
  {
  }

  /** The clearance charge is the tariff's when the flag is set and 0
      otherwise; turning the flag off lowers the MAFI subtotal, both MAFI
      option totals and the BBK total each by exactly the tariff's clearance. */
  lemma ClearanceToggle(t: Tariff, req: Request)
    ensures MafiChargesOf(t, req.(includeClearance := true)).clearance == t.customClearance
    ensures MafiChargesOf(t, req.(includeClearance := false)).clearance == 0.0
    ensures BbkChargesOf(t, req.(includeClearance := true)).clearance == t.customClearance
    ensures BbkChargesOf(t, req.(includeClearance := false)).clearance == 0.0
    ensures MafiChargesOf(t, req.(includeClearance := true)).CommonTotal()
         == MafiChargesOf(t, req.(includeClearance := false)).CommonTotal() + t.customClearance
    ensures MafiChargesOf(t, req.(includeClearance := true)).Option1Total()
         == MafiChargesOf(t, req.(includeClearance := false)).Option1Total() + t.customClearance
    ensures MafiChargesOf(t, req.(includeClearance := true)).Option2Total()
         == MafiChargesOf(t, req.(includeClearance := false)).Option2Total() + t.customClearance
    ensures BbkChargesOf(t, req.(includeClearance := true)).Total()
         == BbkChargesOf(t, req.(includeClearance := false)).Total() + t.customClearance
  {
  }

  /** The two MAFI options differ from the common subtotal, and from each
      other, only by their handling term. The first clause only unfolds the
      subtotal into the six shared charges, the per-mafi rates gathered. */
  lemma MafiOptionsDifferOnlyInHandling(t: Tariff, req: Request)
    ensures var c := MafiChargesOf(t, req);
      c.CommonTotal() == ClearanceCharge(t, req.includeClearance) + GateCharge(t, req)
        + t.lashingCharges * req.weight
        + (t.lashingManpowerPerMafi + t.surveyPerMafi + t.tugMasterPerMafi) * req.mafis as real
    ensures var c := MafiChargesOf(t, req);
      c.Option1Total() - c.CommonTotal() == t.handlingOption1 * req.weight &&
      c.Option2Total() - c.CommonTotal() == t.handlingOption2 * req.weight
    ensures var c := MafiChargesOf(t, req);
      c.Option2Total() - c.Option1Total() == (t.handlingOption2 - t.handlingOption1) * req.weight
  {
  }

  /** Security is rate times persons times shifts, so nothing is charged when
      either count is 0, and it grows linearly in each count. */
  lemma BbkSecurityIsPerPersonPerShift(t: Tariff, req: Request)
    ensures req.securityPersons == 0 || req.securityShifts == 0 ==> BbkChargesOf(t, req).security == 0.0
    ensures BbkChargesOf(t, req.(securityPersons := req.securityPersons + 1)).security
         == BbkChargesOf(t, req).security + t.bbkSecurityPerShiftPerson * req.securityShifts as real
    ensures BbkChargesOf(t, req.(securityShifts := req.securityShifts + 1)).security
         == BbkChargesOf(t, req).security + t.bbkSecurityPerShiftPerson * req.securityPersons as real
  {
    var r := t.bbkSecurityPerShiftPerson;
    var p := req.securityPersons as real;
    var s := req.securityShifts as real;
    assert r * (p + 1.0) * s == r * p * s + r * s;
    assert r * p * (s + 1.0) == r * p * s + r * p;
  }

  /** Survey and port permission are flat: they do not depend on the cargo,
      the counts or any other input. */
  lemma BbkFlatFeesIgnoreCargo(t: Tariff, req1: Request, req2: Request)
    ensures BbkChargesOf(t, req1).survey == BbkChargesOf(t, req2).survey == t.bbkSurveyLumpsum
    ensures BbkChargesOf(t, req1).portPermission == BbkChargesOf(t, req2).portPermission == t.bbkPortPermission
  {
  }

  /** BBK handling is priced per cubic metre of length times width times
      height: scaling any one dimension by k scales the handling charge by k. */
  lemma BbkHandlingScalesWithEachDimension(t: Tariff, req: Request, k: real)
    ensures BbkChargesOf(t, req.(length := k * req.length)).handling == k * BbkChargesOf(t, req).handling
    ensures BbkChargesOf(t, req.(width := k * req.width)).handling == k * BbkChargesOf(t, req).handling
    ensures BbkChargesOf(t, req.(height := k * req.height)).handling == k * BbkChargesOf(t, req).handling
  {
    var r, l, w, h := t.bbkHandlingPerCbm, req.length, req.width, req.height;
    assert r * ((k * l) * w * h) == k * (r * (l * w * h));
    assert r * (l * (k * w) * h) == k * (r * (l * w * h));
    assert r * (l * w * (k * h)) == k * (r * (l * w * h));
  }

  /** With non-negative rates and cargo, no charge and no total is negative:
      the engine only multiplies and adds. */
  lemma ChargesNonNegative(t: Tariff, req: Request)
    requires t.NonNegative() && req.NonNegativeCargo()
    ensures var c := MafiChargesOf(t, req);
      c.clearance >= 0.0 && c.gate >= 0.0 && c.handling1 >= 0.0 && c.handling2 >= 0.0 &&
      c.lashing >= 0.0 && c.lashingManpower >= 0.0 && c.survey >= 0.0 && c.tugMaster >= 0.0 &&
      0.0 <= c.CommonTotal() <= c.Option1Total() && c.CommonTotal() <= c.Option2Total()
    ensures var b := BbkChargesOf(t, req);
      b.clearance >= 0.0 && b.gate >= 0.0 && b.handling >= 0.0 && b.survey >= 0.0 &&
      b.portPermission >= 0.0 && b.security >= 0.0 && b.Total() >= 0.0
  {
    var lw := req.length * req.width;
    assert lw >= 0.0;
    assert Volume(req) == lw * req.height >= 0.0;
    assert req.securityPersons as real * req.securityShifts as real >= 0.0;
  }

  /** The worked MAFI example: a 12.5 x 4.0 x 4.5 m, 30 MT cargo on one
      mechanical trailer and one mafi, clearance included, at the default rates. */
  lemma DefaultMafiExample(req: Request)
    requires req.length == 12.5 && req.width == 4.0 && req.height == 4.5 && req.weight == 30.0
    requires req.trailers == 1 && req.mafis == 1 && req.trailerType == MechanicalTrailer
    requires req.includeClearance
    ensures Volume(req) == 225.0
    ensures MafiChargesOf(Default, req) == MafiCharges(20000.0, 600.0, 27000.0, 54000.0, 33000.0, 3000.0, 2500.0, 8800.0)
    ensures MafiChargesOf(Default, req).CommonTotal() == 67900.0
    ensures MafiChargesOf(Default, req).Option1Total() == 94900.0
    ensures MafiChargesOf(Default, req).Option2Total() == 121900.0
  {
    TrailerOptionsSelectRates(Default, "");
  }

  /** The same cargo in BBK mode with one security person for one shift. */
  lemma DefaultBbkExample(req: Request)
    requires req.length == 12.5 && req.width == 4.0 && req.height == 4.5
    requires req.trailers == 1 && req.trailerType == MechanicalTrailer && req.includeClearance
    requires req.securityPersons == 1 && req.securityShifts == 1
    ensures BbkChargesOf(Default, req) == BbkCharges(20000.0, 600.0, 39375.0, 2500.0, 2500.0, 850.0)
    ensures BbkChargesOf(Default, req).Total() == 65825.0
  {
    TrailerOptionsSelectRates(Default, "");
  }
}
