/** The create/edit form (src/pages/AddProperty.tsx): the form state, the
    record -> form pre-fill, the form -> record conversion, the pending
    upload list and the add/update dispatch. */
module AddPropertyPage {
  import opened Wrappers
  import opened Seqs
  import opened Text
  import opened Numbers
  import opened Registry

  /** The form's state: every input holds a string. */
  datatype FormData = FormData(
    name: string,
    address: string,
    kind: string,
    units: string,
    status: string,
    occupancy: string,
    revenue: string,
    yearBuilt: string,
    floors: string,
    totalArea: string,
    cadastre: string,
    owners: string,
    manager: string,
    fiscalType: string,
    municipalValue: string,
    marketValue: string,
    lastMaintenance: string,
    heatingType: string,
    roofType: string,
    roofDate: string)

  /** `keyof FormData`. */
  datatype FormKey =
    | NameInput | AddressInput | TypeInput | UnitsInput | StatusInput | OccupancyInput
    | RevenueInput | YearBuiltInput | FloorsInput | TotalAreaInput | CadastreInput
    | OwnersInput | ManagerInput | FiscalTypeInput | MunicipalValueInput | MarketValueInput
    | LastMaintenanceInput | HeatingTypeInput | RoofTypeInput | RoofDateInput

  function Input(form: FormData, k: FormKey): string {
    match k
    case NameInput => form.name
    case AddressInput => form.address
    case TypeInput => form.kind
    case UnitsInput => form.units
    case StatusInput => form.status
    case OccupancyInput => form.occupancy
    case RevenueInput => form.revenue
    case YearBuiltInput => form.yearBuilt
    case FloorsInput => form.floors
    case TotalAreaInput => form.totalArea
    case CadastreInput => form.cadastre
    case OwnersInput => form.owners
    case ManagerInput => form.manager
    case FiscalTypeInput => form.fiscalType
    case MunicipalValueInput => form.municipalValue
    case MarketValueInput => form.marketValue
    case LastMaintenanceInput => form.lastMaintenance
    case HeatingTypeInput => form.heatingType
    case RoofTypeInput => form.roofType
    case RoofDateInput => form.roofDate
  }

  /** `{ ...prev, [field]: value }`: the named input takes the value, every
      other input keeps its content. */
  function WithInput(form: FormData, k: FormKey, v: string): (r: FormData)
    ensures Input(r, k) == v
    ensures forall j :: j != k ==> Input(r, j) == Input(form, j)
  {
    match k
    case NameInput => form.(name := v)
    case AddressInput => form.(address := v)
    case TypeInput => form.(kind := v)
    case UnitsInput => form.(units := v)
    case StatusInput => form.(status := v)
    case OccupancyInput => form.(occupancy := v)
    case RevenueInput => form.(revenue := v)
    case YearBuiltInput => form.(yearBuilt := v)
    case FloorsInput => form.(floors := v)
    case TotalAreaInput => form.(totalArea := v)
    case CadastreInput => form.(cadastre := v)
    case OwnersInput => form.(owners := v)
    case ManagerInput => form.(manager := v)
    case FiscalTypeInput => form.(fiscalType := v)
    case MunicipalValueInput => form.(municipalValue := v)
    case MarketValueInput => form.(marketValue := v)
    case LastMaintenanceInput => form.(lastMaintenance := v)
    case HeatingTypeInput => form.(heatingType := v)
    case RoofTypeInput => form.(roofType := v)
    case RoofDateInput => form.(roofDate := v)
  }

  /** The form of a new record: status "disponible", occupancy and revenue
      "0", every other input empty. */
  const InitialForm: FormData := FormData(
    name := "", address := "", kind := "", units := "", status := "disponible",
    occupancy := "0", revenue := "0", yearBuilt := "", floors := "", totalArea := "",
    cadastre := "", owners := "", manager := "", fiscalType := "", municipalValue := "",
    marketValue := "", lastMaintenance := "", heatingType := "", roofType := "", roofDate := "")

  /** `amount?.replace(/[^0-9]/g, '') || ''` for an optional amount. */
  function AmountDigits(amount: Option<string>): (r: string)
    ensures AllDigits(r)
    ensures amount.None? ==> r == ""
    ensures amount.Some? ==> r == StripNonDigits(amount.value)
  {
    if amount.Some? then StripNonDigits(amount.value) else ""
  }

  /** `floors?.toString() || ''`. */
  function FloorsText(floors: Option<int>): (r: string)
    ensures floors.None? ==> r == ""
    ensures floors.Some? ==> ParseInt(r) == Int(floors.value)
    ensures floors.Some? ==> r == IntToString(floors.value)
  {
    if floors.Some? then
      ParseIntToString(floors.value);
      IntToString(floors.value)
    else ""
  }

  /** The edit pre-fill: text attributes are copied (an absent one as ""),
      numbers are written in decimal, and amounts keep only their digits. */
  function Prefill(p: Property): (form: FormData)
    ensures ParseInt(form.units) == Int(p.fields.units)
    ensures ParseInt(form.occupancy) == Int(p.fields.occupancy)
    ensures AllDigits(form.revenue) && AllDigits(form.municipalValue) && AllDigits(form.marketValue)
    ensures p.fields.floors.None? ==> form.floors == ""
    ensures p.fields.floors.Some? ==> ParseInt(form.floors) == Int(p.fields.floors.value)
    ensures form.units == IntToString(p.fields.units) && form.occupancy == IntToString(p.fields.occupancy)
    ensures form.floors == FloorsText(p.fields.floors)
    ensures form.name == p.fields.name && form.address == p.fields.address
    ensures form.kind == p.fields.kind && form.status == p.fields.status
    ensures form.revenue == StripNonDigits(p.fields.revenue)
    ensures form.municipalValue == AmountDigits(p.fields.municipalValue)
    ensures form.marketValue == AmountDigits(p.fields.marketValue)
    ensures form.yearBuilt == p.fields.yearBuilt.GetOr("") && form.totalArea == p.fields.totalArea.GetOr("")
    ensures form.cadastre == p.fields.cadastre.GetOr("") && form.owners == p.fields.owners.GetOr("")
    ensures form.manager == p.fields.manager.GetOr("") && form.fiscalType == p.fields.fiscalType.GetOr("")
    ensures form.lastMaintenance == p.fields.lastMaintenance.GetOr("") && form.heatingType == p.fields.heatingType.GetOr("")
    ensures form.roofType == p.fields.roofType.GetOr("") && form.roofDate == p.fields.roofDate.GetOr("")
  {
    var f := p.fields;
    ParseIntToString(f.units);
    ParseIntToString(f.occupancy);
    FormData(
      name := f.name,
      address := f.address,
      kind := f.kind,
      units := IntToString(f.units),
      status := f.status,
      occupancy := IntToString(f.occupancy),
      revenue := StripNonDigits(f.revenue),
      yearBuilt := f.yearBuilt.GetOr(""),
      floors := FloorsText(f.floors),
      totalArea := f.totalArea.GetOr(""),
      cadastre := f.cadastre.GetOr(""),
      owners := f.owners.GetOr(""),
      manager := f.manager.GetOr(""),
      fiscalType := f.fiscalType.GetOr(""),
      municipalValue := AmountDigits(f.municipalValue),
      marketValue := AmountDigits(f.marketValue),
      lastMaintenance := f.lastMaintenance.GetOr(""),
      heatingType := f.heatingType.GetOr(""),
      roofType := f.roofType.GetOr(""),
      roofDate := f.roofDate.GetOr(""))
  }

  /** A file chosen for upload: its name, MIME type and displayed size. */
  datatype UploadedFile = UploadedFile(name: string, mimeType: string, size: string)

  /** The document stored for an uploaded file on the day `today`
      (`new Date().toISOString().split('T')[0]` in the source). */
  function FileDocument(file: UploadedFile, today: string): (d: Document)
    ensures d.name == file.name && d.url == "#"
    ensures d.kind == Some("PDF") <==> exists i :: OccursAt(file.mimeType, "pdf", i)
    ensures d.kind == Some("PDF") || d.kind == Some("IMG")
    ensures d.size == Some(file.size) && d.date == Some(today)
  {
    ContainsSpec(file.mimeType, "pdf");
    Document(file.name, "#", Some(if Contains(file.mimeType, "pdf") then "PDF" else "IMG"), Some(file.size), Some(today))
  }

  /** `uploadedFiles.map(...)`: one document per file, in upload order. */
  function FilesToDocuments(files: seq<UploadedFile>, today: string): (docs: seq<Document>)
    ensures |docs| == |files|
    ensures forall i :: 0 <= i < |files| ==> docs[i] == FileDocument(files[i], today)
  {
    seq(|files|, i requires 0 <= i < |files| => FileDocument(files[i], today))
  }

  /** An optional amount: `input ? `$ ${parseInt(input).toLocaleString()}` : undefined`. */
  function AmountField(input: string): (r: Option<string>)
    ensures r.None? <==> input == ""
    ensures r.Some? ==> r.value == Currency(ParseInt(input))
  {
    if input != "" then Some(Currency(ParseInt(input))) else None
  }

  /** `propertyData`: the record the form submits. */
  function BuildPropertyData(form: FormData, files: seq<UploadedFile>, today: string): (f: Fields)
    ensures f.name == form.name && f.address == form.address && f.kind == form.kind && f.status == form.status
    ensures f.units != 0
    ensures Truthy(ParseInt(form.units)) ==> ParseInt(form.units) == Int(f.units)
    ensures !Truthy(ParseInt(form.units)) ==> f.units == 1
    ensures ParseInt(form.occupancy).Int? ==> f.occupancy == ParseInt(form.occupancy).value
    ensures ParseInt(form.occupancy).NaN? ==> f.occupancy == 0
    ensures f.revenue == Currency(ParseInt(if form.revenue == "" then "0" else form.revenue))
    ensures f.floors.None? <==> !Truthy(ParseInt(form.floors))
    ensures f.floors.Some? ==> ParseInt(form.floors) == Int(f.floors.value)
    ensures f.municipalValue == AmountField(form.municipalValue)
    ensures f.marketValue == AmountField(form.marketValue)
    ensures f.yearBuilt == Some(form.yearBuilt) && f.totalArea == Some(form.totalArea)
    ensures f.cadastre == Some(form.cadastre) && f.owners == Some(form.owners)
    ensures f.manager == Some(form.manager) && f.fiscalType == Some(form.fiscalType)
    ensures f.lastMaintenance == Some(form.lastMaintenance) && f.heatingType == Some(form.heatingType)
    ensures f.roofType == Some(form.roofType) && f.roofDate == Some(form.roofDate)
    ensures f.documents == Some(FilesToDocuments(files, today))
  {
    Fields(
      name := form.name,
      address := form.address,
      kind := form.kind,
      units := OrElse(ParseInt(form.units), 1),
      status := form.status,
      occupancy := OrElse(ParseInt(form.occupancy), 0),
      revenue := Currency(ParseInt(if form.revenue == "" then "0" else form.revenue)),
      yearBuilt := Some(form.yearBuilt),
      floors := if Truthy(ParseInt(form.floors)) then Some(ParseInt(form.floors).value) else None,
      totalArea := Some(form.totalArea),
      cadastre := Some(form.cadastre),
      owners := Some(form.owners),
      manager := Some(form.manager),
      fiscalType := Some(form.fiscalType),
      municipalValue := AmountField(form.municipalValue),
      marketValue := AmountField(form.marketValue),
      lastMaintenance := Some(form.lastMaintenance),
      heatingType := Some(form.heatingType),
      roofType := Some(form.roofType),
      roofDate := Some(form.roofDate),
      documents := Some(FilesToDocuments(files, today)))
  }

  /** An amount input the conversion can store and read back: empty, or a
      number that parses to a non-negative integer. */
  predicate StorableAmount(input: string) {
    input == "" || (ParseInt(input).Int? && ParseInt(input).value >= 0)
  }

  /** A revenue input the conversion can store and read back. */
  predicate StorableRevenue(input: string) {
    var x := ParseInt(if input == "" then "0" else input);
    x.Int? && x.value >= 0
  }

  lemma AmountStable(input: string)
    requires StorableAmount(input)
    ensures AmountField(AmountDigits(AmountField(input))) == AmountField(input)
  {
    if input != "" {
      var n := ParseInt(input).value;
      CurrencyRoundTrip(n);
      CurrencyDigits(n);
    }
  }

  /** A canonical digit string typed into the revenue input is exactly what
      the pre-fill shows again after saving: the stored "$ " string keeps
      the digits in order. */
  lemma RevenueDigitsRoundTrip(form: FormData, files: seq<UploadedFile>, today: string, id: string)
    requires CanonicalDigits(form.revenue)
    ensures Prefill(Property(id, BuildPropertyData(form, files, today))).revenue == form.revenue
  {
    ParseIntOfDigits(form.revenue);
    CurrencyDigits(DigitsValue(form.revenue));
    DecimalDigitsOfValue(form.revenue);
  }

  /** Saving, opening the saved record for editing and saving again without
      touching anything stores the same record, except that its documents
      are replaced by the (new, empty) upload list. */
  lemma ResubmitIsStable(form: FormData, files: seq<UploadedFile>, today: string, id: string)
    requires StorableRevenue(form.revenue)
    requires StorableAmount(form.municipalValue) && StorableAmount(form.marketValue)
    ensures var saved := BuildPropertyData(form, files, today);
            BuildPropertyData(Prefill(Property(id, saved)), [], today) == saved.(documents := Some([]))
  {
    var saved := BuildPropertyData(form, files, today);
    var again := Prefill(Property(id, saved));
    var n := ParseInt(if form.revenue == "" then "0" else form.revenue).value;
    CurrencyRoundTrip(n);
    CurrencyDigits(n);
    assert again.revenue != "";
    AmountStable(form.municipalValue);
    AmountStable(form.marketValue);
    if saved.floors.Some? {
      assert ParseInt(again.floors) == Int(saved.floors.value);
    }
  }

  /** A revenue input that `parseInt` reads as `NaN` is stored as "$ NaN";
      the next edit pre-fills it as "", which the `|| '0'` stores as "$ 0". */
  lemma ResubmitNaNRevenue(form: FormData, today: string, id: string)
    requires form.revenue != "" && ParseInt(form.revenue) == NaN
    ensures BuildPropertyData(form, [], today).revenue == "$ NaN"
    ensures BuildPropertyData(Prefill(Property(id, BuildPropertyData(form, [], today))), [], today).revenue == "$ 0"
  {
    assert Currency(NaN) == "$ NaN" by { assert "$ " + "NaN" == "$ NaN"; }
    var saved := BuildPropertyData(form, [], today);
    assert saved.revenue == Currency(NaN);
    PrefilledNaNRevenue(id, saved);
    var again := Prefill(Property(id, saved));
    assert BuildPropertyData(again, [], today).revenue == Currency(ParseInt("0"));
    ZeroRevenue();
  }

  /** The pre-fill reads a stored `Currency(NaN)` back as "". */
  lemma PrefilledNaNRevenue(id: string, saved: Fields)
    requires saved.revenue == Currency(NaN)
    ensures Prefill(Property(id, saved)).revenue == ""
  {
    CurrencyNaNDigits();
  }

  /** An amount input that `parseInt` reads as `NaN` is stored as "$ NaN"; the
      next edit pre-fills it as "", which is stored as `undefined`, not "$ 0". */
  lemma ResubmitNaNAmount(input: string)
    requires input != "" && ParseInt(input) == NaN
    ensures AmountField(input) == Some("$ NaN")
    ensures AmountField(AmountDigits(AmountField(input))) == None
  {
    assert Currency(NaN) == "$ NaN" by { assert "$ " + "NaN" == "$ NaN"; }
    CurrencyNaNDigits();
  }

  /** The empty revenue input is replaced by "0" (`formData.revenue || '0'`),
      and "0" is stored as "$ 0". */
  lemma ZeroRevenue()
    ensures Currency(ParseInt("0")) == "$ 0"
  {
    assert DigitPrefix("0") == "0";
    assert DecimalDigits(0) == "0";
  }

  /** A revenue input that parses to `n` is stored as `Currency(Int(n))`. */
  lemma StoredRevenue(form: FormData, today: string, n: int)
    requires ParseInt(form.revenue) == Int(n)
    ensures BuildPropertyData(form, [], today).revenue == Currency(Int(n))
  {
  }

  /** The pre-fill reads a stored `Currency(Int(n))` back as the digits of `|n|`. */
  lemma PrefilledRevenue(id: string, saved: Fields, n: int)
    requires saved.revenue == Currency(Int(n))
    ensures Prefill(Property(id, saved)).revenue == DecimalDigits(if n < 0 then -n else n)
  {
    CurrencyDigits(n);
  }

  /** A negative revenue keeps its sign when stored and loses it at the next
      edit: the pre-fill drops the minus sign with the other non-digits. */
  lemma ResubmitDropsSign(form: FormData, today: string, id: string, n: int)
    requires ParseInt(form.revenue) == Int(n) && n < 0
    ensures BuildPropertyData(form, [], today).revenue == Currency(Int(n))
    ensures BuildPropertyData(Prefill(Property(id, BuildPropertyData(form, [], today))), [], today).revenue == Currency(Int(-n))
  {
    StoredRevenue(form, today, n);
    var saved := BuildPropertyData(form, [], today);
    PrefilledRevenue(id, saved, n);
    var again := Prefill(Property(id, saved));
    assert ParseInt(again.revenue) == Int(-n);
    StoredRevenue(again, today, -n);
  }

  /** The route carries a record id (`if (id)`: present and non-empty). */
  predicate HasRouteId(routeId: Option<string>) {
    routeId.Some? && routeId.value != ""
  }

  /** The registry after the save: an update of the routed record with the
      whole submitted record, or an append under the new id. */
  function Submitted(ps: seq<Property>, routeId: Option<string>, data: Fields, newId: string): (r: seq<Property>)
    ensures |r| == if HasRouteId(routeId) then |ps| else |ps| + 1
    ensures forall i :: 0 <= i < |ps| ==> r[i].id == ps[i].id
    ensures !HasRouteId(routeId) ==> r[|ps|] == Property(newId, data)
  {
    if HasRouteId(routeId) then Updated(ps, routeId.value, AsPatch(data)) else ps + [Property(newId, data)]
  }

  /** Submitting a whole record as a partial replaces every attribute but the id. */
  lemma {:induction false} MergeWholeRecord(p: Property, data: Fields)
    ensures Merge(p, AsPatch(data)) == Property(p.id, data)
  {
    assert Merge(p, AsPatch(data)).fields == data;
  }

  /** Editing: every record with the routed id becomes exactly the submitted
      record under its own id, and every other record is unchanged. */
  lemma SubmitEdit(ps: seq<Property>, id: string, data: Fields, newId: string)
    requires id != ""
    ensures var r := Submitted(ps, Some(id), data, newId);
            |r| == |ps| &&
            forall i :: 0 <= i < |ps| ==> r[i] == if ps[i].id == id then Property(id, data) else ps[i]
  {
    forall i | 0 <= i < |ps| && ps[i].id == id
      ensures Merge(ps[i], AsPatch(data)) == Property(id, data)
    {
      MergeWholeRecord(ps[i], data);
    }
  }

  /** Editing without uploading leaves the record with an empty document
      list, whatever documents it had. */
  lemma EditWithoutUploadsClearsDocuments(ps: seq<Property>, id: string, form: FormData, today: string, newId: string)
    requires id != ""
    requires Find(ps, id).Some?
    ensures var r := Submitted(ps, Some(id), BuildPropertyData(form, [], today), newId);
            Find(r, id).Some? && Find(r, id).value.fields.documents == Some([])
  {
    var data := BuildPropertyData(form, [], today);
    assert FilesToDocuments([], today) == [];
    FindAfterUpdate(ps, id, AsPatch(data), id);
    MergeWholeRecord(Find(ps, id).value, data);
  }

  /** Creating: with a fresh id, the new record is appended and found again
      under that id. */
  lemma SubmitCreate(ps: seq<Property>, routeId: Option<string>, data: Fields, newId: string)
    requires !HasRouteId(routeId)
    requires forall i :: 0 <= i < |ps| ==> ps[i].id != newId
    ensures var r := Submitted(ps, routeId, data, newId);
            r[..|ps|] == ps && Find(r, newId) == Some(Property(newId, data))
  {
    CreateGetRoundTrip(ps, data, newId);
    assert (ps + [Property(newId, data)])[..|ps|] == ps;
  }

  /** The save button is enabled when no save is running and both the name
      and the address are filled in. */
  predicate CanSave(submitting: bool, form: FormData)
    ensures CanSave(submitting, form) <==>
      !submitting && Input(form, NameInput) != "" && Input(form, AddressInput) != ""
  {
    !submitting && form.name != "" && form.address != ""
  }

  /** A new form cannot be saved; typing a name and an address into any form
      makes it savable while no save is running, and a running save never is. */
  lemma TypingEnablesSave(form: FormData, name: string, address: string)
    requires name != "" && address != ""
    ensures !CanSave(false, InitialForm)
    ensures CanSave(false, WithInput(WithInput(form, NameInput, name), AddressInput, address))
    ensures !CanSave(true, form)
  {
    var named := WithInput(form, NameInput, name);
    assert Input(named, NameInput) == name;
    assert Input(WithInput(named, AddressInput, address), NameInput) == name;
  }

  /** Clearing the name or the address input disables saving, whatever the
      rest of the form holds. */
  lemma ClearingDisablesSave(form: FormData, submitting: bool)
    ensures !CanSave(submitting, WithInput(form, NameInput, ""))
    ensures !CanSave(submitting, WithInput(form, AddressInput, ""))
  {
    assert Input(WithInput(form, NameInput, ""), NameInput) == "";
    assert Input(WithInput(form, AddressInput, ""), AddressInput) == "";
  }

  /** The page's state. */
  class AddPropertyPage {
    /** The `:id` route parameter. */
    const routeId: Option<string>
    var form: FormData
    var uploadedFiles: seq<UploadedFile>
    var isSubmitting: bool

    constructor (routeId: Option<string>)
      ensures this.routeId == routeId
      ensures form == InitialForm && uploadedFiles == [] && !isSubmitting
    {
      this.routeId := routeId;
      form := InitialForm;
      uploadedFiles := [];
      isSubmitting := false;
    }

    /** The edit effect: with a route id naming a registered record, the form
        is filled from that record; otherwise it is left as it is. */
    method LoadForEdit(store: PropertyStore)
      modifies this
      ensures var found := if HasRouteId(routeId) then store.GetPropertyById(routeId.value) else None;
              form == if found.Some? then Prefill(found.value) else old(form)
      ensures uploadedFiles == old(uploadedFiles) && isSubmitting == old(isSubmitting)
    {
      if HasRouteId(routeId) {
        var property := store.GetPropertyById(routeId.value);
        if property.Some? {
          form := Prefill(property.value);
        }
      }
    }

    /** `handleInputChange`: only the named input changes. */
    method HandleInputChange(k: FormKey, v: string)
      modifies this
      ensures form == WithInput(old(form), k, v)
      ensures uploadedFiles == old(uploadedFiles) && isSubmitting == old(isSubmitting)
    {
      form := WithInput(form, k, v);
    }

    /** `handleFileUpload`: the chosen files go after the pending ones. */
    method HandleFileUpload(files: seq<UploadedFile>)
      modifies this
      ensures uploadedFiles == old(uploadedFiles) + files
      ensures form == old(form) && isSubmitting == old(isSubmitting)
    {
      uploadedFiles := uploadedFiles + files;
    }

    /** `removeFile`: drops the file at `index`; an index outside the list
        removes nothing. */
    method RemoveFile(index: int)
      modifies this
      ensures uploadedFiles == RemoveAt(old(uploadedFiles), index)
      ensures form == old(form) && isSubmitting == old(isSubmitting)
    {
      uploadedFiles := RemoveAt(uploadedFiles, index);
    }

    /** `handleSubmit`: builds the record from the form and the pending
        uploads, updates or adds it, and clears the submitting flag. The id
        of a created record is `newId`, the upload date `today`. */
    method HandleSubmit(store: PropertyStore, today: string, newId: string)
      modifies this, store
      ensures store.properties == Submitted(old(store.properties), routeId, BuildPropertyData(old(form), old(uploadedFiles), today), newId)
      ensures form == old(form) && uploadedFiles == old(uploadedFiles) && !isSubmitting
    {
      isSubmitting := true;
      var data := BuildPropertyData(form, uploadedFiles, today);
      if HasRouteId(routeId) {
        store.UpdateProperty(routeId.value, AsPatch(data));
      } else {
        store.AddProperty(data, newId);
      }
      isSubmitting := false;
    }
  }
}
