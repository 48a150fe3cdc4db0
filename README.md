# Quotation builder pricing engine

A Dafny model of the pricing logic of the "Success Shipping Services –
Quotation Builder" page (`app.py`). From a snapshot of the input form —
cargo length, width, height and weight, trailer and mafi counts, the selected
shipping modes, the gate trailer type, the custom-clearance checkbox and the
BBK security persons and shifts — the page derives the cargo volume, the
optional custom-clearance charge and the gate charge. It then prices each
selected mode against a rate card:

- MAFI mode: a table of line items and two quoted totals, one per handling option.
- BBK (break-bulk) mode: a table and one total.

When no mode is selected, the page shows a warning instead.

Files and modules:

- `tariff.dfy` (`Tariffs`): the rate card as a datatype, with the shipped rates as `Default`.
- `pricing.dfy` (`Pricing`): the form snapshot (`Request`), the shared derivations, the MAFI and BBK charges and totals as pure functions, and lemmas about them.
- `line_items.dfy` (`LineItems`): table rows (serial number, description, amount) and sums over a table's amount column, optionally skipping some serial numbers.
- `quotation.dfy` (`Quotation`): the two row-building methods, which start from an empty list, append the clearance row when the checkbox is set, then extend with the fixed rows. It also holds `Evaluate`, one evaluation of the whole page.

Money, dimensions and weight are `real` (exact arithmetic). Trailer, mafi and
security counts are `nat`. The rate card is a parameter of every operation.
The trailer type stays the selector's text, and the mechanical gate rate
applies exactly when that text starts with "Mechanical", as in the source.

## Model

| member | source | states |
|---|---|---|
| `Pricing.TrailerOptionsSelectRates` | app.py:123-126 | Both selector entries get their own gate rate. Any text beginning with "Mechanical" gets the mechanical rate. |
| `Pricing.TrailerTypeOnlyChangesGate` | app.py:123-128 | A different trailer type makes the gate charge the new rate times the trailer count. Every other MAFI and BBK charge is unchanged. |
| `Pricing.ClearanceToggle` | app.py:121 | Clearance is the tariff's flat value when the checkbox is set, 0 otherwise. Unticking it lowers the MAFI subtotal, both MAFI option totals and the BBK total each by exactly that value. |
| `Pricing.MafiOptionsDifferOnlyInHandling` | app.py:148-166 | The MAFI subtotal is clearance + gate + lashing + lashing manpower + survey + tug master. Each option total exceeds it by exactly its handling rate times the weight. Option 2 minus option 1 is (rate 2 − rate 1) × weight. |
| `Pricing.BbkSecurityIsPerPersonPerShift` | app.py:213-217 | BBK security is 0 when persons or shifts is 0. One more person adds rate × shifts; one more shift adds rate × persons. |
| `Pricing.BbkFlatFeesIgnoreCargo` | app.py:211-212 | BBK survey and port permission equal the tariff's lump sums for every request. |
| `Pricing.BbkHandlingScalesWithEachDimension` | app.py:119-210 | The volume is length × width × height, and BBK handling is priced per cubic metre of it: scaling any one dimension by k scales the handling charge by k. |
| `Pricing.ChargesNonNegative` | app.py:146-226 | With non-negative rates, dimensions and weight, every MAFI and BBK charge and total is non-negative. Each option total is at least the subtotal. |
| `Pricing.DefaultMafiExample` | app.py:41-64 | At the shipped rates, a 12.5 × 4.0 × 4.5 m, 30 MT cargo on one mechanical trailer and one mafi with clearance has volume 225 and the listed MAFI charges. The totals are 67900 (subtotal), 94900 (option 1) and 121900 (option 2). |
| `Pricing.DefaultBbkExample` | app.py:208-226 | The same cargo in BBK mode, with one security person for one shift at the shipped rates, has handling 39375 and total 65825. |
| `LineItems.SumExcludingAppend` | app.py:171-184 | Table sums, skipping any set of serial numbers, distribute over a conditional append followed by an extend. |
| `Quotation.BuildMafiRows` | app.py:171-184 | The MAFI serial column is "1" (only when clearance is included) then "2","3A","3B","4","5","6","7", so 8 rows or 7. The amount column is clearance (when included), gate, handling 1, handling 2, lashing, lashing manpower, survey, tug master. Amounts without "3A"/"3B" sum to the subtotal; adding "3A" gives option 1 and adding "3B" instead gives option 2. Amounts are non-negative for non-negative rates and cargo. |
| `Quotation.BuildBbkRows` | app.py:231-242 | The BBK serial column is "1" (only when clearance is included) then "2" to "6", so 6 rows or 5. The amount column is clearance (when included), gate, handling, survey, port permission, security. It sums to the BBK total and is non-negative for non-negative rates and cargo. |
| `Quotation.Evaluate` | app.py:146-258 | The MAFI section is present iff MAFI is selected, and the BBK section iff BBK is selected. The warning appears iff nothing is selected, and then there is no section. Each section's totals are the pricing totals. Its table meets the same contract as the row builders (`MafiTable`, `BbkTable`): each serial number and each amount is in its fixed row, the totals are sums of the amounts, and amounts are non-negative for non-negative rates and cargo. |

## Left out

- The page layout, header, footer, logo loading and base64 encoding, metrics, tables and success/info boxes: presentation and file I/O with no pricing logic.
- The input widgets: the form snapshot is the `Request` parameter. Their `min_value=1` bound on the trailer and mafi counts is a precondition of `Quotation.Evaluate`. The persons and shifts bound (`min_value=0`) is the type `nat`. Length, width, height and weight have no bound on the form, so non-negativity appears only as a lemma hypothesis.
- The security persons and shifts default to 0 when BBK is not selected. In the model they are always fields of `Request`, and only the BBK section reads them.
- Floating-point rounding and the `,.0f` / `.2f` number formatting: amounts are exact reals.
- Descriptions that interpolate numbers (the mafi count, the volume, the persons and shifts) are fixed labels in the model. The gate row keeps its trailer-type text. No contract states the description column.
- The pandas DataFrame that renders the rows: the table is a `seq<LineItem>`.
