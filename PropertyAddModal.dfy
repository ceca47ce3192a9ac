/**
  The property-registration dialog: the draft a broker fills in, the rule that
  keeps its submit button disabled, and the state operations around it
  (switching the transaction type, resetting, applying a geocoding answer and
  building the payload that is posted).
*/
module PropertyAdd {
  import opened Wrappers

  /** The transaction type of a draft. */
  datatype EstateType = Sale | Deposit | Monthly

  /** The property categories offered by the category radio group. */
  datatype Category = OneRoom | TwoRoom | Apartment | Villa | House | Officetel | Commercial

  /** A calendar day chosen in a date picker; the date library's value is not modelled. */
  type Day = int

  /** One coordinate as the geocoding provider returns it (a decimal string). */
  type Coordinate = string

  /** A snapshot of every piece of form state the dialog keeps. */
  datatype Draft = Draft(
    customerUid: Option<int>,
    address: Option<string>,
    addressForCoord: Option<string>,
    dong: Option<string>,
    roadName: Option<string>,
    extraAddress: string,
    deposit: Option<string>,
    monthlyRent: Option<string>,
    price: Option<string>,
    estateType: EstateType,
    longitude: Option<Coordinate>,
    latitude: Option<Coordinate>,
    contractStartDate: Option<Day>,
    contractEndDate: Option<Day>,
    moveInDate: Option<Day>,
    realCategory: Category,
    petsAllowed: bool,
    floor: Option<string>,
    hasElevator: bool,
    constructionYear: Option<string>,
    parkingCapacity: Option<int>,
    netArea: Option<string>,
    totalArea: Option<string>,
    details: Option<string>)

  /** The state the dialog starts in. */
  const InitialDraft: Draft := Draft(
    None, None, None, None, None, "",
    None, None, None, Sale,
    None, None, None, None, None,
    Apartment, false, None, false, None, None,
    None, None, None)

  /** The string the type radio group stores for each transaction type. */
  function TypeName(t: EstateType): string {
    match t
    case Sale => "SALE"
    case Deposit => "DEPOSIT"
    case Monthly => "MONTHLY"
  }

  /** JavaScript truthiness of a `string | null`: neither null nor the empty string. */
  predicate Present(o: Option<string>) {
    o.Some? && o.value != ""
  }

  /** A present value that fails the numeric check. */
  predicate NonNumeric(o: Option<string>, isNumeric: string -> bool) {
    Present(o) && !isNumeric(o.value)
  }

  // ---------------------------------------------------------------------------
  // The submit gate and the rule table it is checked against
  // ---------------------------------------------------------------------------

  /** The fields the submit gate looks at. */
  datatype GateField = AddressField | NetAreaField | TotalAreaField | PriceField | DepositField | MonthlyRentField

  /** Why a draft cannot be submitted. */
  datatype Violation = Missing(field: GateField) | NotNumeric(field: GateField)

  const MonetaryFields: set<GateField> := {PriceField, DepositField, MonthlyRentField}

  function FieldValue(d: Draft, f: GateField): Option<string> {
    match f
    case AddressField => d.address
    case NetAreaField => d.netArea
    case TotalAreaField => d.totalArea
    case PriceField => d.price
    case DepositField => d.deposit
    case MonthlyRentField => d.monthlyRent
  }

  /** The fields that must be present for each transaction type. */
  function RequiredFields(t: EstateType): (fs: set<GateField>)
    ensures {AddressField, NetAreaField, TotalAreaField} <= fs
  {
    {AddressField, NetAreaField, TotalAreaField} +
    match t
    case Sale => {PriceField}
    case Deposit => {DepositField}
    case Monthly => {DepositField, MonthlyRentField}
  }

  /**
    Every reason the draft is not submittable: a required field that is absent,
    and a monetary field that is present but not numeric, whatever the type.
  */
  function Violations(d: Draft, isNumeric: string -> bool): set<Violation> {
    (set f | f in RequiredFields(d.estateType) && !Present(FieldValue(d, f)) :: Missing(f)) +
    (set f | f in MonetaryFields && NonNumeric(FieldValue(d, f), isNumeric) :: NotNumeric(f))
  }

  /**
    `isSubmitButtonDisabled`. The numeric check of the monetary strings is
    supplied by the caller, since its definition is not part of this model.
  */
  function Disabled(d: Draft, isNumeric: string -> bool): (r: bool)
    ensures r <==> Violations(d, isNumeric) != {}
  {
    DisabledMatchesViolations(d, isNumeric);
    GateExpr(d, isNumeric)
  }

  /** The disjunction behind `isSubmitDisabled`, in the component's order. */
  predicate GateExpr(d: Draft, isNumeric: string -> bool) {
    !Present(d.address) ||
    !Present(Some(TypeName(d.estateType))) ||
    !Present(d.netArea) ||
    !Present(d.totalArea) ||
    (d.estateType == Sale && !Present(d.price)) ||
    (d.estateType == Deposit && !Present(d.deposit)) ||
    (d.estateType == Monthly && (!Present(d.monthlyRent) || !Present(d.deposit))) ||
    NonNumeric(d.price, isNumeric) ||
    NonNumeric(d.monthlyRent, isNumeric) ||
    NonNumeric(d.deposit, isNumeric)
  }

  /** Helper for Disabled: the disjunction holds exactly when a violation exists. */
  lemma DisabledMatchesViolations(d: Draft, isNumeric: string -> bool)
    ensures GateExpr(d, isNumeric) <==> Violations(d, isNumeric) != {}
  {
    var v := Violations(d, isNumeric);
    if GateExpr(d, isNumeric) {
      var f: GateField;
      if !Present(d.address) {
        f := AddressField;
      } else if !Present(d.netArea) {
        f := NetAreaField;
      } else if !Present(d.totalArea) {
        f := TotalAreaField;
      } else if d.estateType == Sale && !Present(d.price) {
        f := PriceField;
      } else if d.estateType != Sale && !Present(d.deposit) {
        f := DepositField;
      } else if d.estateType == Monthly && !Present(d.monthlyRent) {
        f := MonthlyRentField;
      } else {
        f := if NonNumeric(d.price, isNumeric) then PriceField
             else if NonNumeric(d.monthlyRent, isNumeric) then MonthlyRentField
             else DepositField;
        assert NotNumeric(f) in v;
      }
      assert Missing(f) in v || NotNumeric(f) in v;
    }
  }

  /** The three fields every type requires. */
  predicate CommonPresent(d: Draft) {
    Present(d.address) && Present(d.netArea) && Present(d.totalArea)
  }

  /** No monetary field holds a present, non-numeric value. */
  predicate MoneyNumericWhenPresent(d: Draft, isNumeric: string -> bool) {
    !NonNumeric(d.price, isNumeric) && !NonNumeric(d.deposit, isNumeric) && !NonNumeric(d.monthlyRent, isNumeric)
  }

  /** The gate, read per transaction type. */
  lemma GateByType(d: Draft, isNumeric: string -> bool)
    ensures !CommonPresent(d) ==> Disabled(d, isNumeric)
    ensures d.estateType == Sale ==>
      (!Disabled(d, isNumeric) <==> CommonPresent(d) && Present(d.price) && MoneyNumericWhenPresent(d, isNumeric))
    ensures d.estateType == Deposit ==>
      (!Disabled(d, isNumeric) <==> CommonPresent(d) && Present(d.deposit) && MoneyNumericWhenPresent(d, isNumeric))
    ensures d.estateType == Monthly ==>
      (!Disabled(d, isNumeric) <==>
        CommonPresent(d) && Present(d.deposit) && Present(d.monthlyRent) && MoneyNumericWhenPresent(d, isNumeric))
  {
  }

  /** A leftover non-numeric monetary value blocks submission whatever the current type. */
  lemma LeftoverNonNumericBlocks(d: Draft, isNumeric: string -> bool, f: GateField)
    requires f in MonetaryFields && NonNumeric(FieldValue(d, f), isNumeric)
    ensures forall t :: Disabled(d.(estateType := t), isNumeric)
  {
    forall t ensures Disabled(d.(estateType := t), isNumeric) {
      assert NotNumeric(f) in Violations(d.(estateType := t), isNumeric);
    }
  }

  /** The part of a draft the gate reads. */
  function GateView(d: Draft): (Option<string>, EstateType, Option<string>, Option<string>, Option<string>, Option<string>, Option<string>) {
    (d.address, d.estateType, d.netArea, d.totalArea, d.price, d.deposit, d.monthlyRent)
  }

  /**
    Customer, category, coordinates, floor, dates and the other descriptive
    fields never change the verdict.
  */
  lemma GateIgnoresOtherFields(d1: Draft, d2: Draft, isNumeric: string -> bool)
    requires GateView(d1) == GateView(d2)
    ensures Disabled(d1, isNumeric) == Disabled(d2, isNumeric)
  {
  }

  /**
    Switching type loses no input: a submittable draft stays submittable under
    any type whose own monetary fields are already present.
  */
  lemma SwitchTypeKeepsSubmittable(d: Draft, t: EstateType, isNumeric: string -> bool)
    requires !Disabled(d, isNumeric)
    requires forall f :: f in RequiredFields(t) && f in MonetaryFields ==> Present(FieldValue(d, f))
    ensures !Disabled(d.(estateType := t), isNumeric)
  {
    GateByType(d, isNumeric);
    GateByType(d.(estateType := t), isNumeric);
  }

  // ---------------------------------------------------------------------------
  // Reset, geocoding, payload
  // ---------------------------------------------------------------------------

  /**
    `resetPropertyData`: the draft after the reset. It equals the initial state
    except on the fields the reset does not touch.
  */
  function ResetDraft(d: Draft): (r: Draft)
    ensures r == InitialDraft.(
      customerUid := d.customerUid,
      address := d.address,
      addressForCoord := d.addressForCoord,
      dong := d.dong,
      roadName := d.roadName,
      extraAddress := d.extraAddress,
      contractStartDate := d.contractStartDate,
      contractEndDate := d.contractEndDate)
  {
    d.(
      deposit := None,
      monthlyRent := None,
      price := None,
      estateType := Sale,
      longitude := None,
      latitude := None,
      moveInDate := None,
      realCategory := Apartment,
      petsAllowed := false,
      floor := None,
      hasElevator := false,
      constructionYear := None,
      parkingCapacity := None,
      netArea := None,
      totalArea := None,
      details := None)
  }

  /** Resetting twice is resetting once, and the initial draft is already reset. */
  lemma ResetIdempotent(d: Draft)
    ensures ResetDraft(ResetDraft(d)) == ResetDraft(d)
    ensures ResetDraft(InitialDraft) == InitialDraft
  {
  }

  /** A reset draft cannot be submitted: its net area is gone. */
  lemma ResetBlocks(d: Draft, isNumeric: string -> bool)
    ensures Disabled(ResetDraft(d), isNumeric)
    ensures Missing(NetAreaField) in Violations(ResetDraft(d), isNumeric)
  {
  }

  /** The address part of one geocoding candidate. */
  datatype GeoAddress = GeoAddress(x: Coordinate, y: Coordinate)

  /** One candidate of a geocoding answer; its address part may be missing. */
  datatype GeoDocument = GeoDocument(address: Option<GeoAddress>)

  /** `documents[0]?.address`: the address of the first candidate, if there is one. */
  function FirstAddress(documents: seq<GeoDocument>): Option<GeoAddress> {
    if |documents| > 0 then documents[0].address else None
  }

  /**
    Applying a geocoding answer: the coordinates become the first candidate's
    `x`/`y` when that candidate has an address, and nothing else changes.
  */
  function ApplyGeocode(d: Draft, documents: seq<GeoDocument>): (r: Draft)
    ensures r.(longitude := d.longitude, latitude := d.latitude) == d
    ensures |documents| > 0 && documents[0].address.Some? ==>
      r.longitude == Some(documents[0].address.value.x) && r.latitude == Some(documents[0].address.value.y)
    ensures (|documents| == 0 || documents[0].address.None?) ==> r == d
  {
    match FirstAddress(documents)
    case Some(a) => d.(longitude := Some(a.x), latitude := Some(a.y))
    case None => d
  }

  /**
    Answers are applied in arrival order with no staleness check: the later
    answer wins when it has a candidate, otherwise the earlier one stands.
  */
  lemma LastAnswerWins(d: Draft, earlier: seq<GeoDocument>, later: seq<GeoDocument>)
    ensures ApplyGeocode(ApplyGeocode(d, earlier), later) ==
      if FirstAddress(later).Some? then ApplyGeocode(d, later) else ApplyGeocode(d, earlier)
  {
  }

  /** Coordinates are not part of the gate, so a geocoding answer never flips it. */
  lemma GeocodeKeepsGate(d: Draft, documents: seq<GeoDocument>, isNumeric: string -> bool)
    ensures Disabled(ApplyGeocode(d, documents), isNumeric) == Disabled(d, isNumeric)
  {
    GateIgnoresOtherFields(ApplyGeocode(d, documents), d, isNumeric);
  }

  /** The object posted to the create-property endpoint. */
  datatype PropertyPayload = PropertyPayload(
    customerUid: Option<int>,
    address: string,
    dong: Option<string>,
    roadName: Option<string>,
    deposit: Option<string>,
    monthlyRent: Option<string>,
    price: Option<string>,
    estateType: EstateType,
    longitude: Option<Coordinate>,
    latitude: Option<Coordinate>,
    contractStartDate: Option<Day>,
    contractEndDate: Option<Day>,
    moveInDate: Option<Day>,
    realCategory: Category,
    petsAllowed: bool,
    floor: Option<string>,
    hasElevator: bool,
    constructionYear: Option<string>,
    parkingCapacity: Option<int>,
    netArea: Option<string>,
    totalArea: Option<string>,
    details: Option<string>)

  /** JavaScript's string conversion of a `string | null` inside `+`. */
  function JsText(o: Option<string>): string {
    o.GetOr("null")
  }

  /**
    `propertyDataToSubmit`: the stored address is the base address followed by
    the detail address; every other field, the monetary strings included, is
    passed through unconverted, and `addressForCoord` is not sent.
  */
  function Payload(d: Draft): (p: PropertyPayload)
    ensures d.address.Some? ==>
      |p.address| == |d.address.value| + |d.extraAddress| &&
      p.address[..|d.address.value|] == d.address.value &&
      p.address[|d.address.value|..] == d.extraAddress
    ensures d.address.None? ==> p.address == "null" + d.extraAddress
    ensures p.price == d.price && p.deposit == d.deposit && p.monthlyRent == d.monthlyRent
    ensures p.netArea == d.netArea && p.totalArea == d.totalArea
    ensures p.estateType == d.estateType && p.realCategory == d.realCategory
    ensures p.longitude == d.longitude && p.latitude == d.latitude
    ensures p.customerUid == d.customerUid && p.dong == d.dong && p.roadName == d.roadName
    ensures p.contractStartDate == d.contractStartDate && p.contractEndDate == d.contractEndDate
    ensures p.moveInDate == d.moveInDate
    ensures p.petsAllowed == d.petsAllowed && p.floor == d.floor && p.hasElevator == d.hasElevator
    ensures p.constructionYear == d.constructionYear && p.parkingCapacity == d.parkingCapacity
    ensures p.details == d.details
  {
    PropertyPayload(
      d.customerUid,
      JsText(d.address) + d.extraAddress,
      d.dong,
      d.roadName,
      d.deposit,
      d.monthlyRent,
      d.price,
      d.estateType,
      d.longitude,
      d.latitude,
      d.contractStartDate,
      d.contractEndDate,
      d.moveInDate,
      d.realCategory,
      d.petsAllowed,
      d.floor,
      d.hasElevator,
      d.constructionYear,
      d.parkingCapacity,
      d.netArea,
      d.totalArea,
      d.details)
  }

  /**
    Through an enabled button the posted address always starts with the chosen
    base address, so the "null" prefix of an absent address cannot be sent, and
    it is never empty.
  */
  lemma SubmittedAddressStartsWithBase(d: Draft, isNumeric: string -> bool)
    requires !Disabled(d, isNumeric)
    ensures d.address.Some? && d.address.value <= Payload(d).address
    ensures |Payload(d).address| > 0
  {
    GateByType(d, isNumeric);
  }

  /**
    The dialog component. Its pieces of state are gathered in one record-valued
    field; each setter call of the component is one update of that record.
  */
  class PropertyAddModal {
    var draft: Draft

    /** The initial values of the component state. */
    constructor ()
      ensures draft == InitialDraft
    {
      draft := InitialDraft;
    }

    /** The type radio group: only the type changes; entered amounts stay. */
    method ChangeType(t: EstateType)
      modifies this
      ensures draft == old(draft).(estateType := t)
      ensures draft.price == old(draft.price) && draft.deposit == old(draft.deposit)
      ensures draft.monthlyRent == old(draft.monthlyRent)
    {
      draft := draft.(estateType := t);
    }

    /** `resetPropertyData`: sixteen setter calls in the source's order. */
    method ResetPropertyData()
      modifies this
      ensures draft == ResetDraft(old(draft))
    {
      draft := draft.(deposit := None);
      draft := draft.(monthlyRent := None);
      draft := draft.(price := None);
      draft := draft.(estateType := Sale);
      draft := draft.(longitude := None);
      draft := draft.(latitude := None);
      draft := draft.(moveInDate := None);
      draft := draft.(realCategory := Apartment);
      draft := draft.(petsAllowed := false);
      draft := draft.(floor := None);
      draft := draft.(hasElevator := false);
      draft := draft.(constructionYear := None);
      draft := draft.(parkingCapacity := None);
      draft := draft.(netArea := None);
      draft := draft.(totalArea := None);
      draft := draft.(details := None);
    }

    /** `handleModalClose`: closing the dialog resets the draft. */
    method CloseModal()
      modifies this
      ensures draft == ResetDraft(old(draft))
    {
      ResetPropertyData();
    }

    /** The success handler of the geocoding request. */
    method ApplyGeocodeResponse(documents: seq<GeoDocument>)
      modifies this
      ensures draft == ApplyGeocode(old(draft), documents)
    {
      var result := FirstAddress(documents);
      if result.Some? {
        draft := draft.(longitude := Some(result.value.x));
        draft := draft.(latitude := Some(result.value.y));
      }
    }

    /**
      `handleClickSubmitButton`: builds the payload from the current draft and
      posts it. The button is disabled while the gate is closed, so the handler
      runs only on a submittable draft. The click changes nothing; the reply
      arrives later, through ReceiveCreateResponse.
    */
    method ClickSubmit(isNumeric: string -> bool) returns (payload: PropertyPayload)
      requires !Disabled(draft, isNumeric)
      ensures payload == Payload(draft)
      ensures draft.address.Some? && draft.address.value <= payload.address
      ensures |payload.address| > 0
    {
      payload := Payload(draft);
      SubmittedAddressStartsWithBase(draft, isNumeric);
    }

    /**
      The fulfilment handler of the create request, run when the reply arrives,
      on the draft as it is then. `status` is the HTTP status of a fulfilled
      request, `None` a rejected one. On 201 the dialog closes and the draft is
      reset (once by the close, once directly); otherwise nothing changes.
    */
    method ReceiveCreateResponse(status: Option<int>)
      modifies this
      ensures draft == if status == Some(201) then ResetDraft(old(draft)) else old(draft)
    {
      if status == Some(201) {
        CloseModal();
        ResetPropertyData();
        ResetIdempotent(old(draft));
      }
    }
  }
}
