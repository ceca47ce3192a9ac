# Property registration and public listing — a Dafny model

This project models the two pieces of the real-estate brokerage front end
that hold logic of their own:

- **The property-registration dialog** (`PropertyAddModal.tsx`, module
  `PropertyAdd`). A broker fills in a draft: customer, address, transaction
  type (`SALE`, `DEPOSIT` or `MONTHLY`), amounts, areas and descriptive fields.
  The submit button stays disabled until the draft passes a rule.
  - Every type needs an address, a net area and a total area.
  - `SALE` needs a price, `DEPOSIT` a deposit, `MONTHLY` a deposit and a
    monthly rent.
  - Any amount that is filled in must pass the numeric check, whatever the type.

  The dialog's state is a class. Its methods change the transaction type,
  reset the draft, apply a geocoding answer to the coordinates, and build and
  post the payload. The gate (`Disabled`) and the payload (`Payload`) are pure
  functions of a `Draft` value. `Disabled` is proved equivalent to a
  rule-table definition (`Violations`: a required field missing, or a filled
  amount that is not numeric).
- **The public listing table** (`PublicPropertyTable.tsx`, module
  `PropertyTable`). The table keeps a page index, a page size and a unit
  switch. It shows `list[page*size .. page*size+size]` with JavaScript's
  clamping. The pagination count is always the full list length. The area
  column reads in m², or divided by 3.3 and rounded to one decimal in pyeong
  (평). A missing building name or description shows as `-`.
  - The model proves that pages are contiguous and ordered, that they never
    overlap, and that together they cover the list.
  - It proves that a page at or beyond `ceil(n/size)` is empty and then shows
    the single "no data" row.
  - It proves that the rounding is exactly `toFixed(1)`'s nearest-tenth rule.

Some behaviours of the code are worth stating plainly, because a reader might
expect otherwise:
- The gate does not check that the address was geocoded, and it does not check
  the category.
- A filled-in amount that is not numeric blocks every type. For example, a
  leftover non-numeric price blocks a `MONTHLY` draft (`LeftoverNonNumericBlocks`).
- Amounts are posted as the strings typed, not as numbers.
- Geocoding answers have no cache, no query normalisation and no staleness
  check. The last answer with a candidate wins (`LastAnswerWins`).
- Price, deposit and monthly rent have no `-` fallback. A missing one makes the
  row's `toLocaleString()` call throw during the component's render. The whole
  component then fails, table and pagination bar alike, and the model renders
  it as `Crashed`.
- The gate yields a verdict only, with no per-field reasons. `Violations` is
  the model's own reference definition.

External inputs become parameters:
- The numeric check `isNumberOrNumericString` is passed as `isNumeric: string -> bool`.
- The HTTP status of the create request is `status: Option<int>`.
- The geocoding provider's candidate list is `documents: seq<GeoDocument>`.

## Model

| member | source | states |
|---|---|---|
| `PropertyAdd.Disabled` | src/pages/PrivatePropertyListPage/PropertyAddButtonList/PropertyAddModal/PropertyAddModal.tsx:109-119 | the button is disabled exactly when the draft has a violation: a field its type requires is null or empty, or a filled amount fails the numeric check |
| `PropertyAdd.RequiredFields` | src/pages/PrivatePropertyListPage/PropertyAddButtonList/PropertyAddModal/PropertyAddModal.tsx:110-116 | address, net area and total area are required for every transaction type |
| `PropertyAdd.GateByType` | src/pages/PrivatePropertyListPage/PropertyAddButtonList/PropertyAddModal/PropertyAddModal.tsx:109-119 | a missing address, net area or total area always disables; SALE is enabled iff price present, DEPOSIT iff deposit present, MONTHLY iff deposit and monthly rent present, each with every filled amount numeric |
| `PropertyAdd.LeftoverNonNumericBlocks` | src/pages/PrivatePropertyListPage/PropertyAddButtonList/PropertyAddModal/PropertyAddModal.tsx:117-119 | a filled, non-numeric price, deposit or monthly rent disables the button under every transaction type |
| `PropertyAdd.GateIgnoresOtherFields` | src/pages/PrivatePropertyListPage/PropertyAddButtonList/PropertyAddModal/PropertyAddModal.tsx:109-119 | two drafts that agree on address, type, areas and the three amounts get the same verdict; customer, category, coordinates, floor, dates and details never matter |
| `PropertyAdd.SwitchTypeKeepsSubmittable` | src/pages/PrivatePropertyListPage/PropertyAddButtonList/PropertyAddModal/PropertyAddModal.tsx:109-119 | a submittable draft stays submittable after a type switch when the new type's amounts are already filled, because switching clears nothing |
| `PropertyAdd.ResetDraft` | src/pages/PrivatePropertyListPage/PropertyAddButtonList/PropertyAddModal/PropertyAddModal.tsx:121-138 | after a reset the draft equals the initial state, except customer, address, coordinate query, dong, road name, detail address and both contract dates, which keep their values |
| `PropertyAdd.ResetIdempotent` | src/pages/PrivatePropertyListPage/PropertyAddButtonList/PropertyAddModal/PropertyAddModal.tsx:121-138 | resetting twice equals resetting once; the initial draft is a fixed point of reset |
| `PropertyAdd.ResetBlocks` | src/pages/PrivatePropertyListPage/PropertyAddButtonList/PropertyAddModal/PropertyAddModal.tsx:121-138 | a reset draft cannot be submitted, because its net area is missing |
| `PropertyAdd.ApplyGeocode` | src/pages/PrivatePropertyListPage/PropertyAddButtonList/PropertyAddModal/PropertyAddModal.tsx:155-161 | when the first candidate has an address, longitude and latitude become its x and y; otherwise the draft is unchanged (coordinates are not cleared); nothing but the coordinates ever changes |
| `PropertyAdd.LastAnswerWins` | src/pages/PrivatePropertyListPage/PropertyAddButtonList/PropertyAddModal/PropertyAddModal.tsx:145-163 | of two answers applied in arrival order, the later one decides the coordinates when it has a candidate, else the earlier one stands; which address either answer was for plays no part |
| `PropertyAdd.GeocodeKeepsGate` | src/pages/PrivatePropertyListPage/PropertyAddButtonList/PropertyAddModal/PropertyAddModal.tsx:155-161 | applying a geocoding answer never changes whether the button is disabled |
| `PropertyAdd.Payload` | src/pages/PrivatePropertyListPage/PropertyAddButtonList/PropertyAddModal/PropertyAddModal.tsx:69-92 | the posted address splits into the base address followed by the detail address ("null" in front when there is no base address); amounts, areas, type, category, coordinates, customer, dong, road name, the three dates, pets, floor, elevator, construction year, parking capacity and details are passed through unconverted |
| `PropertyAdd.SubmittedAddressStartsWithBase` | src/pages/PrivatePropertyListPage/PropertyAddButtonList/PropertyAddModal/PropertyAddModal.tsx:68-119 | through an enabled button the posted address starts with the chosen base address and is non-empty |
| `PropertyAdd.PropertyAddModal.constructor` | src/pages/PrivatePropertyListPage/PropertyAddButtonList/PropertyAddModal/PropertyAddModal.tsx:37-66 | the dialog starts with every field null, an empty detail address, type SALE, category APARTMENT, no pets and no elevator |
| `PropertyAdd.PropertyAddModal.ChangeType` | src/pages/PrivatePropertyListPage/PropertyAddButtonList/PropertyAddModal/PropertyAddModal.tsx:254 | only the type changes; price, deposit and monthly rent keep their values |
| `PropertyAdd.PropertyAddModal.ResetPropertyData` | src/pages/PrivatePropertyListPage/PropertyAddButtonList/PropertyAddModal/PropertyAddModal.tsx:121-138 | the new state is the reset of the old one |
| `PropertyAdd.PropertyAddModal.CloseModal` | src/pages/PrivatePropertyListPage/PropertyAddButtonList/PropertyAddModal/PropertyAddModal.tsx:140-143 | closing the dialog resets the draft |
| `PropertyAdd.PropertyAddModal.ApplyGeocodeResponse` | src/pages/PrivatePropertyListPage/PropertyAddButtonList/PropertyAddModal/PropertyAddModal.tsx:155-162 | the new state is the old one with the geocoding answer applied |
| `PropertyAdd.PropertyAddModal.ClickSubmit` | src/pages/PrivatePropertyListPage/PropertyAddButtonList/PropertyAddModal/PropertyAddModal.tsx:68-95 | runs only on a draft the gate lets through (the button is disabled otherwise, line 451); posts the payload of the current draft, whose address starts with the chosen base address and is non-empty; the draft is not changed |
| `PropertyAdd.PropertyAddModal.ReceiveCreateResponse` | src/pages/PrivatePropertyListPage/PropertyAddButtonList/PropertyAddModal/PropertyAddModal.tsx:96-106 | when the reply arrives, a 201 status resets the draft as it is at that moment, and any other outcome leaves it untouched |
| `PropertyTable.Slice` | src/pages/PublicPropertyListPage/PublicPropertyTable/PublicPropertyTable.tsx:50-53 | `slice(start, end)` has `max(0, min(end, n) - start)` elements, and element `i` is `s[start + i]` |
| `PropertyTable.Displayed` | src/pages/PublicPropertyListPage/PublicPropertyTable/PublicPropertyTable.tsx:50-53 | a page has `min(rowsPerPage, max(0, n - page*rowsPerPage))` rows, and row `i` is list row `page*rowsPerPage + i` |
| `PropertyTable.EmptyPageIff` | src/pages/PublicPropertyListPage/PublicPropertyTable/PublicPropertyTable.tsx:50-53 | for a positive page size, a page is empty exactly when its index is at least `ceil(n/rowsPerPage)` |
| `PropertyTable.PagesThroughIsPrefix` | src/pages/PublicPropertyListPage/PublicPropertyTable/PublicPropertyTable.tsx:50-53 | pages 0 to k-1 concatenated are exactly the first `min(n, k*rowsPerPage)` rows: contiguous, in order, no gap |
| `PropertyTable.PagesCoverList` | src/pages/PublicPropertyListPage/PublicPropertyTable/PublicPropertyTable.tsx:50-53 | all non-empty pages together are the whole list, in order |
| `PropertyTable.RowShownOnItsPage` | src/pages/PublicPropertyListPage/PublicPropertyTable/PublicPropertyTable.tsx:50-53 | list row x appears on page `x / rowsPerPage` at offset `x % rowsPerPage` |
| `PropertyTable.ShownRowOnNoOtherPage` | src/pages/PublicPropertyListPage/PublicPropertyTable/PublicPropertyTable.tsx:50-53 | the row at offset i of page p is list row `p*rowsPerPage + i`, whose page and offset are p and i again, so no two pages share a row |
| `PropertyTable.ToFixedTenths` | src/pages/PublicPropertyListPage/PublicPropertyTable/PublicPropertyTable.tsx:27-29 | `toFixed(1)` gives the tenth nearest to the value, a tie going away from zero |
| `PropertyTable.FormatArea` | src/pages/PublicPropertyListPage/PublicPropertyTable/PublicPropertyTable.tsx:24-30 | exclusive area first, supply area second; metric shows the stored values unconverted, otherwise each is shown in pyeong within half a tenth of area / 3.3 |
| `PropertyTable.NinetyNineSquareMetresIsThirtyPyeong` | src/pages/PublicPropertyListPage/PublicPropertyTable/PublicPropertyTable.tsx:24-30 | 99 m² reads as 30.0 pyeong |
| `PropertyTable.Placeholder` | src/pages/PublicPropertyListPage/PublicPropertyTable/PublicPropertyTable.tsx:94-97 | a missing building name or description shows as "-", a present one (even empty) as itself |
| `PropertyTable.RenderRow` | src/pages/PublicPropertyListPage/PublicPropertyTable/PublicPropertyTable.tsx:89-118 | a row renders iff price, deposit and monthly rent are all present; then it carries the item's id, category and amounts, the dash fallbacks, the formatted area, the platform and both timestamps |
| `PropertyTable.RenderRows` | src/pages/PublicPropertyListPage/PublicPropertyTable/PublicPropertyTable.tsx:88-119 | mapping the page succeeds iff every row renders, giving one rendered row per item in the same order |
| `PropertyTable.Render` | src/pages/PublicPropertyListPage/PublicPropertyTable/PublicPropertyTable.tsx:88-145 | the whole component crashes exactly when a shown item lacks an amount; otherwise the pagination count is the full list length, the body is the single "no data" row exactly when the page is empty, and otherwise has one row per shown item |
| `PropertyTable.UnitSwitchKeepsRows` | src/pages/PublicPropertyListPage/PublicPropertyTable/PublicPropertyTable.tsx:88-118 | switching units crashes under one unit exactly when under the other, and otherwise keeps the count, the kind of body and the ids of the rows shown |
| `PropertyTable.PublicPropertyTable.constructor` | src/pages/PublicPropertyListPage/PublicPropertyTable/PublicPropertyTable.tsx:21-33 | the table starts in square metres on page 0 with 10 rows per page |
| `PropertyTable.PublicPropertyTable.ToggleUnit` | src/pages/PublicPropertyListPage/PublicPropertyTable/PublicPropertyTable.tsx:35-37 | the unit flag flips; page and page size are unchanged |
| `PropertyTable.PublicPropertyTable.ChangePage` | src/pages/PublicPropertyListPage/PublicPropertyTable/PublicPropertyTable.tsx:39-41 | only the page changes |
| `PropertyTable.PublicPropertyTable.ChangeRowsPerPage` | src/pages/PublicPropertyListPage/PublicPropertyTable/PublicPropertyTable.tsx:43-48 | the page size is set and the page goes back to 0; the view is the "no data" row with the full count exactly when the list is empty or the size is 0 |
| `PropertyTable.ToggleUnitTwice` | src/pages/PublicPropertyListPage/PublicPropertyTable/PublicPropertyTable.tsx:35-37 | toggling the unit twice restores the flag and the whole rendered table |

## Left out

- The geocoding request is not modelled: the HTTP call to the provider, its authorisation header, and the effect that fires it when the address changes (`PropertyAddModal.tsx:145-154, 163`). Only the rule for applying an answer is modelled.
- The click and the reply to the create request are separate steps (`ClickSubmit`, then `ReceiveCreateResponse`). Edits and further clicks can happen between them. The model does not track how many requests are in flight, or which reply belongs to which click.
- The network calls are not modelled: the POST to `/properties`, the GET of `/customers` and the customer option list it fills. `alert`, `console.log`, and the parent's `fetchPropertyData` and close callbacks are left out as well. These are I/O; the outcome of the POST is a parameter of `ReceiveCreateResponse`.
- The helper `isNumberOrNumericString` is not part of this model. It is a parameter of the gate.
- The `useInput` hook and the `DaumPost` address picker are not part of this model. The field edits they perform are plain writes to one field and have no method of their own.
- Date-picker values (Dayjs) are abstracted to an integer day. `Number(...)` on the parking-capacity input, and the NaN it can produce, is abstracted to an optional integer.
- React state updates are batched and applied at the next render. The model applies each setter call in order, at once. A handler may write a field twice: on a 201 reply the reset runs twice, once through the close handler and once directly. Every write is a constant, though, so the end state is the same as with batching.
- The component's many state hooks are gathered in one record-valued field (`draft`) of the class. Each setter call is one update of that record.
- Text rendering is not modelled: `toLocaleString()` with the ` 원` suffix, `toLocaleDateString()`, the string form of a JavaScript number in the area column, and the `m²` / `평` suffixes. The area cell carries its unit in its constructor and its value as a number.
- JavaScript floating point is not modelled. `/ 3.3` and `toFixed(1)` are computed on exact reals, so values within one binary rounding error of a tie may round differently, and a tiny negative value's `-0.0` is not distinguished.
- `parseInt` in `handleChangeRowsPerPage` is not modelled: the new page size arrives as a number. Page and page size are natural numbers, so `slice` is modelled for non-negative bounds only.
- The listing page passes an empty list to the table (`PublicPropertyListPage.tsx:87`). The model takes any list.
- MUI layout, headers and labels, the rows-per-page options `[5, 10]`, the sign-in page, route guards, the admin page and the name input are outside this model.
