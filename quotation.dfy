/** The quotation itself: for each selected mode, its table of line items
    (built as the application builds it, a conditional clearance row followed
    by the fixed rows) and its totals; a warning when no mode is selected. */
module Quotation {
  import opened Tariffs
  import opened Pricing
  import opened LineItems

  datatype Option<T> = None | Some(value: T)

  /** The MAFI section: its table and the shared subtotal and both option totals. */
  datatype MafiQuote = MafiQuote(rows: seq<LineItem>, commonTotal: real, option1Total: real, option2Total: real)

  /** The BBK section: its table and its one total. */
  datatype BbkQuote = BbkQuote(rows: seq<LineItem>, total: real)

  /** What the page shows: a section per selected mode, or the warning. */
  datatype Quote = Quote(mafi: Option<MafiQuote>, bbk: Option<BbkQuote>, warning: bool)

  const ClearanceSerial: string := "1"
  const MafiFixedSerials: seq<string> := ["2", "3A", "3B", "4", "5", "6", "7"]
  const BbkFixedSerials: seq<string> := ["2", "3", "4", "5", "6"]

  /** Serial numbers of the two alternative MAFI handling rows. */
  const Option1Serial: string := "3A"
  const Option2Serial: string := "3B"

  /** The serial numbers a table must carry: "1" only with clearance, then the fixed ones. */
  function ExpectedSerials(includeClearance: bool, fixed: seq<string>): seq<string> {
    (if includeClearance then [ClearanceSerial] else []) + fixed
  }

  /** What the MAFI table holds: serial numbers "1" (only with clearance),
      "2", "3A", "3B", "4", "5", "6", "7"; amounts clearance (only when
      included), gate, handling option 1, handling option 2, lashing, lashing
      manpower, survey and tug master, in that order. Leaving out the two
      handling rows, the amounts add up to the shared subtotal; keeping one of
      them gives that option's total. With non-negative rates and cargo no
      amount is negative. */
  predicate MafiTable(t: Tariff, req: Request, rows: seq<LineItem>) {
    var c := MafiChargesOf(t, req);
    && Serials(rows) == ExpectedSerials(req.includeClearance, MafiFixedSerials)
    && Amounts(rows) == (if req.includeClearance then [t.customClearance] else [])
         + [c.gate, c.handling1, c.handling2, c.lashing, c.lashingManpower, c.survey, c.tugMaster]
    && SumExcluding(rows, {Option1Serial, Option2Serial}) == c.CommonTotal()
    && SumExcluding(rows, {Option2Serial}) == c.Option1Total()
    && SumExcluding(rows, {Option1Serial}) == c.Option2Total()
    && (t.NonNegative() && req.NonNegativeCargo() ==> forall i :: 0 <= i < |rows| ==> rows[i].amount >= 0.0)
  }

  /** What the BBK table holds: serial numbers "1" (only with clearance),
      "2" to "6"; amounts clearance (only when included), gate, handling,
      survey, port permission and security, in that order, adding up to the
      BBK total. With non-negative rates and cargo no amount is negative. */
  predicate BbkTable(t: Tariff, req: Request, rows: seq<LineItem>) {
    var b := BbkChargesOf(t, req);
    && Serials(rows) == ExpectedSerials(req.includeClearance, BbkFixedSerials)
    && Amounts(rows) == (if req.includeClearance then [t.customClearance] else [])
         + [b.gate, b.handling, b.survey, b.portPermission, b.security]
    && Total(rows) == b.Total()
    && (t.NonNegative() && req.NonNegativeCargo() ==> forall i :: 0 <= i < |rows| ==> rows[i].amount >= 0.0)
  }

  /** The MAFI table, as the application builds it: the clearance row only
      when the flag is set, then gate, the two handling options, lashing,
      lashing manpower, survey and tug master. */
  method BuildMafiRows(t: Tariff, req: Request) returns (rows: seq<LineItem>)
    ensures MafiTable(t, req, rows)
    ensures |rows| == if req.includeClearance then 8 else 7
    ensures ClearanceSerial in Serials(rows) <==> req.includeClearance
  {
    var c := MafiChargesOf(t, req);
    rows := [];
    if req.includeClearance {
      rows := rows + [LineItem(ClearanceSerial, "Custom clearance charges", c.clearance)];
    }
    var fixed := [
      LineItem("2", "Cargo gate IN/OUT – " + req.trailerType, c.gate),
      LineItem(Option1Serial, "Option 1 – Direct Handling (Rs 900 / MT)", c.handling1),
      LineItem(Option2Serial, "Option 2 – Double Handling (Rs 1800 / MT)", c.handling2),
      LineItem("4", "Lashing charges (Rs 1100 / MT)", c.lashing),
      LineItem("5", "Lashing manpower (per Mafi)", c.lashingManpower),
      LineItem("6", "Survey (per Mafi)", c.survey),
      LineItem("7", "Tug master (per Mafi)", c.tugMaster)
    ];
    ghost var prefix := rows;
    rows := rows + fixed;
    SumExcludingAppend(prefix, fixed, {Option1Serial, Option2Serial});
    SumExcludingAppend(prefix, fixed, {Option2Serial});
    SumExcludingAppend(prefix, fixed, {Option1Serial});
    SumExcludingSeven(fixed, {Option1Serial, Option2Serial});
    SumExcludingSeven(fixed, {Option2Serial});
    SumExcludingSeven(fixed, {Option1Serial});
    if t.NonNegative() && req.NonNegativeCargo() {
      ChargesNonNegative(t, req);
    }
  }

  /** The BBK table: the clearance row only when the flag is set, then gate,
      handling, survey, port permission and security. */
  method BuildBbkRows(t: Tariff, req: Request) returns (rows: seq<LineItem>)
    ensures BbkTable(t, req, rows)
    ensures |rows| == if req.includeClearance then 6 else 5
    ensures ClearanceSerial in Serials(rows) <==> req.includeClearance
  {
    var b := BbkChargesOf(t, req);
    rows := [];
    if req.includeClearance {
      rows := rows + [LineItem(ClearanceSerial, "Custom clearance charges", b.clearance)];
    }
    var fixed := [
      LineItem("2", "Cargo gate IN/OUT – " + req.trailerType, b.gate),
      LineItem("3", "BBK handling (Rs 175 / CBM)", b.handling),
      LineItem("4", "Survey charges (W/M – Lumpsum)", b.survey),
      LineItem("5", "Port permission charges (one time)", b.portPermission),
      LineItem("6", "Security charges (Rs 850 per person per shift)", b.security)
    ];
    ghost var prefix := rows;
    rows := rows + fixed;
    SumExcludingAppend(prefix, fixed, {});
    SumExcludingFive(fixed, {});
    assert Serials(rows) == ExpectedSerials(req.includeClearance, BbkFixedSerials);
    if t.NonNegative() && req.NonNegativeCargo() {
      ChargesNonNegative(t, req);
    }
  }

  /** One evaluation of the page for a snapshot of the form: the MAFI section
      exactly when MAFI is selected, the BBK section exactly when BBK is
      selected, and the warning exactly when nothing is selected. Each section
      carries its totals and its table: every amount in its fixed row, and
      every total the sum of the table's amounts. The form only accepts at least one trailer and one mafi. */
  method Evaluate(t: Tariff, req: Request) returns (q: Quote)
    requires req.trailers >= 1 && req.mafis >= 1
    ensures q.mafi.Some? <==> Mafi in req.modes
    ensures q.bbk.Some? <==> Bbk in req.modes
    ensures q.warning <==> req.modes == []
    ensures q.warning ==> q.mafi.None? && q.bbk.None?
    ensures q.mafi.Some? ==>
      var m, c := q.mafi.value, MafiChargesOf(t, req);
      m.commonTotal == c.CommonTotal() && m.option1Total == c.Option1Total() && m.option2Total == c.Option2Total() &&
      MafiTable(t, req, m.rows)
    ensures q.bbk.Some? ==>
      var b := q.bbk.value;
      b.total == BbkChargesOf(t, req).Total() && BbkTable(t, req, b.rows)
  {
    q := Quote(None, None, false);
    if Mafi in req.modes {
      var c := MafiChargesOf(t, req);
      var rows := BuildMafiRows(t, req);
      q := q.(mafi := Some(MafiQuote(rows, c.CommonTotal(), c.Option1Total(), c.Option2Total())));
    }
    if Bbk in req.modes {
      var rows := BuildBbkRows(t, req);
      q := q.(bbk := Some(BbkQuote(rows, BbkChargesOf(t, req).Total())));
    }
    if |req.modes| == 0 {
      q := q.(warning := true);
    }
  }
}
