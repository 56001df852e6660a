/** The in-memory property registry: the ordered list of property records,
    seeded with four sample records, and its four operations
    (src/context/PropertyContext.tsx). */
module Registry {
  import opened Wrappers
  import opened Seqs

  /** A document reference attached to a property (`type` is named `kind`). */
  datatype Document = Document(name: string, url: string, kind: Option<string>, size: Option<string>, date: Option<string>)

  /** Every attribute of a property record except its id (`Omit<Property, 'id'>`);
      `None` is an absent or `undefined` optional attribute. */
  datatype Fields = Fields(
    name: string,
    address: string,
    kind: string,
    units: int,
    status: string,
    occupancy: int,
    revenue: string,
    yearBuilt: Option<string>,
    floors: Option<int>,
    totalArea: Option<string>,
    cadastre: Option<string>,
    owners: Option<string>,
    manager: Option<string>,
    fiscalType: Option<string>,
    municipalValue: Option<string>,
    marketValue: Option<string>,
    lastMaintenance: Option<string>,
    heatingType: Option<string>,
    roofType: Option<string>,
    roofDate: Option<string>,
    documents: Option<seq<Document>>)

  /** A property record: `{ ...fields, id }`. */
  datatype Property = Property(id: string, fields: Fields)

  /** The keys of a property record, and what reading one yields. */
  datatype Key =
    | Id | Name | Address | Type | Units | Status | Occupancy | Revenue | YearBuilt | Floors | TotalArea
    | Cadastre | Owners | Manager | FiscalType | MunicipalValue | MarketValue | LastMaintenance
    | HeatingType | RoofType | RoofDate | Documents

  datatype Value = Undefined | Str(s: string) | Num(n: int) | DocList(docs: seq<Document>)

  function OptStr(o: Option<string>): Value {
    if o.Some? then Str(o.value) else Undefined
  }

  function OptNum(o: Option<int>): Value {
    if o.Some? then Num(o.value) else Undefined
  }

  function OptDocs(o: Option<seq<Document>>): Value {
    if o.Some? then DocList(o.value) else Undefined
  }

  /** `p[k]`: the value stored under key `k`. */
  function Field(p: Property, k: Key): Value {
    var f := p.fields;
    match k
    case Id => Str(p.id)
    case Name => Str(f.name)
    case Address => Str(f.address)
    case Type => Str(f.kind)
    case Units => Num(f.units)
    case Status => Str(f.status)
    case Occupancy => Num(f.occupancy)
    case Revenue => Str(f.revenue)
    case YearBuilt => OptStr(f.yearBuilt)
    case Floors => OptNum(f.floors)
    case TotalArea => OptStr(f.totalArea)
    case Cadastre => OptStr(f.cadastre)
    case Owners => OptStr(f.owners)
    case Manager => OptStr(f.manager)
    case FiscalType => OptStr(f.fiscalType)
    case MunicipalValue => OptStr(f.municipalValue)
    case MarketValue => OptStr(f.marketValue)
    case LastMaintenance => OptStr(f.lastMaintenance)
    case HeatingType => OptStr(f.heatingType)
    case RoofType => OptStr(f.roofType)
    case RoofDate => OptStr(f.roofDate)
    case Documents => OptDocs(f.documents)
  }

  /** One key of a `Partial<Property>`: absent, or present with a value.
      For an optional attribute the value is itself optional, so
      `Put(None)` is a key present with the value `undefined`. */
  datatype Patch<T> = Keep | Put(value: T)

  function Pick<T>(e: Patch<T>, current: T): T {
    if e.Put? then e.value else current
  }

  /** `Partial<Property>`, the argument of `updateProperty`. */
  datatype PropertyPatch = PropertyPatch(
    id: Patch<string>,
    name: Patch<string>,
    address: Patch<string>,
    kind: Patch<string>,
    units: Patch<int>,
    status: Patch<string>,
    occupancy: Patch<int>,
    revenue: Patch<string>,
    yearBuilt: Patch<Option<string>>,
    floors: Patch<Option<int>>,
    totalArea: Patch<Option<string>>,
    cadastre: Patch<Option<string>>,
    owners: Patch<Option<string>>,
    manager: Patch<Option<string>>,
    fiscalType: Patch<Option<string>>,
    municipalValue: Patch<Option<string>>,
    marketValue: Patch<Option<string>>,
    lastMaintenance: Patch<Option<string>>,
    heatingType: Patch<Option<string>>,
    roofType: Patch<Option<string>>,
    roofDate: Patch<Option<string>>,
    documents: Patch<Option<seq<Document>>>)

  /** The empty partial `{}`. */
  const NoChange: PropertyPatch := PropertyPatch(
    Keep, Keep, Keep, Keep, Keep, Keep, Keep, Keep, Keep, Keep, Keep,
    Keep, Keep, Keep, Keep, Keep, Keep, Keep, Keep, Keep, Keep, Keep)

  /** A whole `Omit<Property, 'id'>` object used as a partial: every key but
      `id` is present, optional ones possibly with the value `undefined`. */
  function AsPatch(f: Fields): PropertyPatch {
    PropertyPatch(
      Keep, Put(f.name), Put(f.address), Put(f.kind), Put(f.units), Put(f.status),
      Put(f.occupancy), Put(f.revenue), Put(f.yearBuilt), Put(f.floors), Put(f.totalArea),
      Put(f.cadastre), Put(f.owners), Put(f.manager), Put(f.fiscalType), Put(f.municipalValue),
      Put(f.marketValue), Put(f.lastMaintenance), Put(f.heatingType), Put(f.roofType),
      Put(f.roofDate), Put(f.documents))
  }

  function EntryStr(e: Patch<string>): Option<Value> {
    if e.Put? then Some(Str(e.value)) else None
  }

  function EntryNum(e: Patch<int>): Option<Value> {
    if e.Put? then Some(Num(e.value)) else None
  }

  function EntryOptStr(e: Patch<Option<string>>): Option<Value> {
    if e.Put? then Some(OptStr(e.value)) else None
  }

  /** The entry of key `k` in a partial: `None` when the key is absent. */
  function PatchEntry(u: PropertyPatch, k: Key): Option<Value> {
    match k
    case Id => EntryStr(u.id)
    case Name => EntryStr(u.name)
    case Address => EntryStr(u.address)
    case Type => EntryStr(u.kind)
    case Units => EntryNum(u.units)
    case Status => EntryStr(u.status)
    case Occupancy => EntryNum(u.occupancy)
    case Revenue => EntryStr(u.revenue)
    case YearBuilt => EntryOptStr(u.yearBuilt)
    case Floors => if u.floors.Put? then Some(OptNum(u.floors.value)) else None
    case TotalArea => EntryOptStr(u.totalArea)
    case Cadastre => EntryOptStr(u.cadastre)
    case Owners => EntryOptStr(u.owners)
    case Manager => EntryOptStr(u.manager)
    case FiscalType => EntryOptStr(u.fiscalType)
    case MunicipalValue => EntryOptStr(u.municipalValue)
    case MarketValue => EntryOptStr(u.marketValue)
    case LastMaintenance => EntryOptStr(u.lastMaintenance)
    case HeatingType => EntryOptStr(u.heatingType)
    case RoofType => EntryOptStr(u.roofType)
    case RoofDate => EntryOptStr(u.roofDate)
    case Documents => if u.documents.Put? then Some(OptDocs(u.documents.value)) else None
  }

  /** `{ ...p, ...u }`: every key present in `u` takes `u`'s value (an explicit
      `undefined` included), every key absent from `u` keeps `p`'s value. */
  function Merge(p: Property, u: PropertyPatch): (r: Property)
    ensures forall k :: Field(r, k) == PatchEntry(u, k).GetOr(Field(p, k))
  {
    var f := p.fields;
    Property(
      Pick(u.id, p.id),
      Fields(
        Pick(u.name, f.name), Pick(u.address, f.address), Pick(u.kind, f.kind),
        Pick(u.units, f.units), Pick(u.status, f.status), Pick(u.occupancy, f.occupancy),
        Pick(u.revenue, f.revenue), Pick(u.yearBuilt, f.yearBuilt), Pick(u.floors, f.floors),
        Pick(u.totalArea, f.totalArea), Pick(u.cadastre, f.cadastre), Pick(u.owners, f.owners),
        Pick(u.manager, f.manager), Pick(u.fiscalType, f.fiscalType),
        Pick(u.municipalValue, f.municipalValue), Pick(u.marketValue, f.marketValue),
        Pick(u.lastMaintenance, f.lastMaintenance), Pick(u.heatingType, f.heatingType),
        Pick(u.roofType, f.roofType), Pick(u.roofDate, f.roofDate), Pick(u.documents, f.documents)))
  }

  /** `k` is the index of the first record with id `id`. */
  predicate FirstWithId(ps: seq<Property>, id: string, k: int) {
    0 <= k < |ps| && ps[k].id == id && forall j :: 0 <= j < k ==> ps[j].id != id
  }

  /** `properties.find(p => p.id === id)`: the first record with that id, or
      `None` (`undefined`) when no record has it. */
  function Find(ps: seq<Property>, id: string): (r: Option<Property>)
    ensures r.None? <==> forall i :: 0 <= i < |ps| ==> ps[i].id != id
    ensures r.Some? ==> r.value.id == id
    ensures forall k :: FirstWithId(ps, id, k) ==> r == Some(ps[k])
  {
    if ps == [] then None
    else if ps[0].id == id then Some(ps[0])
    else
      assert forall k :: FirstWithId(ps, id, k) ==> FirstWithId(ps[1..], id, k - 1);
      Find(ps[1..], id)
  }

  /** `prev.map(p => p.id === id ? { ...p, ...u } : p)`: every record with id
      `id` is merged with `u`, the others are left as they are, and the length
      and order are kept. With no record of that id nothing changes. */
  function Updated(ps: seq<Property>, id: string, u: PropertyPatch): (r: seq<Property>)
    ensures |r| == |ps|
    ensures forall i :: 0 <= i < |ps| ==> r[i] == if ps[i].id == id then Merge(ps[i], u) else ps[i]
    ensures (forall i :: 0 <= i < |ps| ==> ps[i].id != id) ==> r == ps
  {
    if ps == [] then []
    else [if ps[0].id == id then Merge(ps[0], u) else ps[0]] + Updated(ps[1..], id, u)
  }

  /** `prev.filter(p => p.id !== id)`: the records with another id, in their
      order; afterwards no record has id `id`; with no record of that id
      nothing changes. */
  function Deleted(ps: seq<Property>, id: string): (r: seq<Property>)
    ensures IsSubsequence(r, ps)
    ensures forall i :: 0 <= i < |r| ==> r[i].id != id
    ensures Find(r, id) == None
    ensures (forall i :: 0 <= i < |ps| ==> ps[i].id != id) ==> r == ps
    ensures forall x {:trigger multiset(r)[x]} :: multiset(r)[x] == if x.id != id then multiset(ps)[x] else 0
  {
    FilterMultiset(ps, OtherId(id));
    Filter(ps, OtherId(id))
  }

  /** The test `p => p.id !== id`. */
  function OtherId(id: string): Property -> bool {
    (p: Property) => p.id != id
  }

  /** Delete keeps exactly the records whose id differs. */
  lemma DeletedMembers(ps: seq<Property>, id: string, x: Property)
    ensures x in Deleted(ps, id) <==> x in ps && x.id != id
  {
    FilterMembership(ps, OtherId(id), x);
  }

  /** Appending a record leaves every earlier lookup as it was and makes the
      new record findable under its id when no earlier record has that id. */
  lemma {:induction false} FindAfterAppend(ps: seq<Property>, x: Property, id: string)
    ensures Find(ps + [x], id) == if Find(ps, id).Some? then Find(ps, id) else if x.id == id then Some(x) else None
  {
    if ps != [] {
      assert (ps + [x])[1..] == ps[1..] + [x];
      FindAfterAppend(ps[1..], x, id);
    } else {
      assert ps + [x] == [x];
    }
  }

  /** Create then get: with an id no record has, looking it up after
      `addProperty` returns the added record, its fields verbatim. */
  lemma CreateGetRoundTrip(ps: seq<Property>, fields: Fields, newId: string)
    requires forall i :: 0 <= i < |ps| ==> ps[i].id != newId
    ensures Find(ps + [Property(newId, fields)], newId) == Some(Property(newId, fields))
  {
    FindAfterAppend(ps, Property(newId, fields), newId);
  }

  /** Deleting one id changes no lookup of another id. */
  lemma {:induction false} FindAfterDelete(ps: seq<Property>, id: string, other: string)
    requires other != id
    ensures Find(Deleted(ps, id), other) == Find(ps, other)
  {
    if ps != [] {
      FindAfterDelete(ps[1..], id, other);
    }
  }

  /** Get after update: when `u` leaves the id alone, looking up the updated id
      gives the merged record, and every other lookup is unchanged. */
  lemma {:induction false} FindAfterUpdate(ps: seq<Property>, id: string, u: PropertyPatch, other: string)
    requires u.id == Keep
    ensures Find(Updated(ps, id, u), other) ==
      if other == id && Find(ps, id).Some? then Some(Merge(Find(ps, id).value, u)) else Find(ps, other)
  {
    if ps != [] {
      assert Field(Merge(ps[0], u), Id) == Field(ps[0], Id);
      FindAfterUpdate(ps[1..], id, u, other);
    }
  }

  /** No two records share an id. */
  predicate DistinctIds(ps: seq<Property>) {
    forall i, j :: 0 <= i < j < |ps| ==> ps[i].id != ps[j].id
  }

  /** Appending a record under an unused id keeps the ids distinct. */
  lemma AppendKeepsDistinct(ps: seq<Property>, fields: Fields, newId: string)
    requires DistinctIds(ps)
    requires forall i :: 0 <= i < |ps| ==> ps[i].id != newId
    ensures DistinctIds(ps + [Property(newId, fields)])
  {
  }

  /** Deleting keeps the ids distinct. */
  lemma {:induction false} DeleteKeepsDistinct(ps: seq<Property>, id: string)
    requires DistinctIds(ps)
    ensures DistinctIds(Deleted(ps, id))
  {
    if ps != [] {
      DeleteKeepsDistinct(ps[1..], id);
      var rest := Deleted(ps[1..], id);
      if ps[0].id != id {
        forall i | 0 <= i < |rest| ensures rest[i].id != ps[0].id {
          DeletedMembers(ps[1..], id, rest[i]);
          var j :| 0 <= j < |ps[1..]| && ps[1..][j] == rest[i];
          assert ps[j + 1] == rest[i];
        }
        assert Deleted(ps, id) == [ps[0]] + rest;
      }
    }
  }

  /** An update that leaves the id alone keeps every record's id, hence keeps
      the ids distinct. */
  lemma UpdateKeepsIds(ps: seq<Property>, id: string, u: PropertyPatch)
    requires u.id == Keep
    ensures forall i :: 0 <= i < |ps| ==> Updated(ps, id, u)[i].id == ps[i].id
    ensures DistinctIds(ps) ==> DistinctIds(Updated(ps, id, u))
  {
    forall i | 0 <= i < |ps| ensures Updated(ps, id, u)[i].id == ps[i].id {
      assert Field(Merge(ps[i], u), Id) == Field(ps[i], Id);
    }
  }

  /** The four sample records the registry starts with. */
  function Seeds(): seq<Property> {
    [SeedResidence(), SeedVilla(), SeedApartment(), SeedCommercial()]
  }

  function SeedResidence(): Property {
    Property("1", Fields(
      name := "Résidence Les Jardins",
      address := "123 Rue Principale, Paris",
      kind := "Immeuble",
      units := 12,
      status := "loué",
      occupancy := 100,
      revenue := "$ 12,500",
      yearBuilt := Some("2015"),
      floors := Some(5),
      totalArea := Some("1200 m²"),
      cadastre := Some("AB-123"),
      owners := Some("SCI Paris Invest"),
      manager := Some("GestionPro"),
      fiscalType := Some("Résidentiel"),
      municipalValue := Some("$ 2,500,000"),
      marketValue := Some("$ 2,800,000"),
      lastMaintenance := Some("2023-10-15"),
      heatingType := Some("Gaz naturel"),
      roofType := Some("Ardoise"),
      roofDate := Some("2018-05-20"),
      documents := Some([
        Document("Acte d'achat.pdf", "#", Some("PDF"), Some("2.3 MB"), Some("2015-03-15")),
        Document("Certificat de localisation.pdf", "#", Some("PDF"), Some("1.8 MB"), Some("2015-03-10")),
        Document("Plans architecturaux.pdf", "#", Some("PDF"), Some("5.2 MB"), Some("2015-02-20")),
        Document("Rapport d'inspection 2023.pdf", "#", Some("PDF"), Some("3.1 MB"), Some("2023-10-15"))
      ])))
  }

  function SeedVilla(): Property {
    Property("2", Fields(
      name := "Villa Moderne",
      address := "45 Avenue des Fleurs, Lyon",
      kind := "Maison",
      units := 1,
      status := "disponible",
      occupancy := 0,
      revenue := "$ 0",
      yearBuilt := Some("2020"),
      floors := Some(2),
      totalArea := Some("250 m²"),
      cadastre := Some("CD-456"),
      owners := Some("Jean Dupont"),
      manager := Some("Auto-géré"),
      fiscalType := Some("Résidentiel"),
      municipalValue := Some("$ 450,000"),
      marketValue := Some("$ 500,000"),
      lastMaintenance := Some("2024-01-10"),
      heatingType := Some("Pompe à chaleur"),
      roofType := Some("Tuiles"),
      roofDate := Some("2020-06-15"),
      documents := Some([
        Document("Contrat de vente.pdf", "#", Some("PDF"), Some("1.5 MB"), Some("2020-08-20")),
        Document("Certificat énergétique.pdf", "#", Some("PDF"), Some("800 KB"), Some("2020-07-15"))
      ])))
  }

  function SeedApartment(): Property {
    Property("3", Fields(
      name := "Appartement Centre-Ville",
      address := "78 Boulevard Central, Marseille",
      kind := "Appartement",
      units := 1,
      status := "loué",
      occupancy := 100,
      revenue := "$ 1,850",
      yearBuilt := Some("2010"),
      floors := Some(1),
      totalArea := Some("85 m²"),
      cadastre := Some("EF-789"),
      owners := Some("Marie Martin"),
      manager := Some("Agence Immobilière Plus"),
      fiscalType := Some("Résidentiel"),
      municipalValue := Some("$ 280,000"),
      marketValue := Some("$ 320,000"),
      lastMaintenance := Some("2023-09-20"),
      heatingType := Some("Électrique"),
      roofType := Some("N/A"),
      roofDate := Some("N/A"),
      documents := Some([
        Document("Bail de location.pdf", "#", Some("PDF"), Some("500 KB"), Some("2023-06-01")),
        Document("État des lieux.pdf", "#", Some("PDF"), Some("1.2 MB"), Some("2023-06-01")),
        Document("Règlement de copropriété.pdf", "#", Some("PDF"), Some("2.8 MB"), Some("2010-11-30"))
      ])))
  }

  function SeedCommercial(): Property {
    Property("4", Fields(
      name := "Immeuble Commercial",
      address := "56 Rue du Commerce, Toulouse",
      kind := "Commercial",
      units := 6,
      status := "maintenance",
      occupancy := 83,
      revenue := "$ 8,200",
      yearBuilt := Some("2005"),
      floors := Some(3),
      totalArea := Some("800 m²"),
      cadastre := Some("GH-012"),
      owners := Some("Société Commerciale XYZ"),
      manager := Some("Property Management Pro"),
      fiscalType := Some("Commercial"),
      municipalValue := Some("$ 1,800,000"),
      marketValue := Some("$ 2,100,000"),
      lastMaintenance := Some("2024-01-05"),
      heatingType := Some("Central"),
      roofType := Some("Membrane EPDM"),
      roofDate := Some("2019-04-10"),
      documents := Some([
        Document("Baux commerciaux.zip", "#", Some("ZIP"), Some("15.4 MB"), Some("2023-12-01")),
        Document("Assurance immeuble.pdf", "#", Some("PDF"), Some("1.1 MB"), Some("2024-01-01")),
        Document("Factures de maintenance.pdf", "#", Some("PDF"), Some("3.5 MB"), Some("2024-01-05"))
      ])))
  }

  /** The seed list holds four records with the distinct ids "1" to "4". */
  lemma SeedIds()
    ensures |Seeds()| == 4
    ensures Seeds()[0].id == "1" && Seeds()[1].id == "2" && Seeds()[2].id == "3" && Seeds()[3].id == "4"
    ensures DistinctIds(Seeds())
  {
  }

  /** Create a fifth record, delete the second seed, then set the status of
      the third: five records, then four without id "2", then the third seed
      with only its status changed and every other record as it was. */
  lemma SeedScenario(newId: string, fields: Fields)
    requires newId !in {"1", "2", "3", "4"}
    ensures var added := Seeds() + [Property(newId, fields)];
            var removed := Deleted(added, "2");
            var updated := Updated(removed, "3", NoChange.(status := Put("maintenance")));
            && |added| == 5
            && |removed| == 4 && Find(removed, "2") == None
            && Find(updated, "3") == Some(Property("3", SeedApartment().fields.(status := "maintenance")))
            && forall i :: 0 <= i < |updated| && i != 1 ==> updated[i] == removed[i]
  {
    SeedIds();
    ScenarioSteps(Seeds(), Property(newId, fields), NoChange.(status := Put("maintenance")));
  }

  lemma ScenarioSteps(ps: seq<Property>, x: Property, u: PropertyPatch)
    requires |ps| == 4 && ps[0].id == "1" && ps[1].id == "2" && ps[2].id == "3" && ps[3].id == "4"
    requires x.id !in {"1", "2", "3", "4"}
    requires u.id == Keep
    ensures var removed := Deleted(ps + [x], "2");
            var updated := Updated(removed, "3", u);
            && |removed| == 4 && Find(removed, "2") == None
            && Find(updated, "3") == Some(Merge(ps[2], u))
            && forall i :: 0 <= i < |updated| && i != 1 ==> updated[i] == removed[i]
  {
    ScenarioDelete(ps, x);
    var removed := [ps[0], ps[2], ps[3], x];
    ScenarioUpdate(removed, u);
    ScenarioUpdateOthers(removed, u);
  }

  /** The delete step of the scenario removes the second record only. */
  lemma ScenarioDelete(ps: seq<Property>, x: Property)
    requires |ps| == 4 && ps[0].id == "1" && ps[1].id == "2" && ps[2].id == "3" && ps[3].id == "4"
    requires x.id != "2"
    ensures Deleted(ps + [x], "2") == [ps[0], ps[2], ps[3], x]
  {
    var keep := OtherId("2");
    assert ps + [x] == [ps[0]] + ([ps[1]] + [ps[2], ps[3], x]);
    FilterConcat([ps[0]], [ps[1]] + [ps[2], ps[3], x], keep);
    FilterConcat([ps[1]], [ps[2], ps[3], x], keep);
    FilterCongruent([ps[2], ps[3], x], keep, _ => true);
  }

  /** The update step of the scenario finds the merged record under "3". */
  lemma ScenarioUpdate(rs: seq<Property>, u: PropertyPatch)
    requires |rs| == 4 && rs[0].id == "1" && rs[1].id == "3" && rs[2].id == "4" && rs[3].id != "3"
    requires u.id == Keep
    ensures Find(Updated(rs, "3", u), "3") == Some(Merge(rs[1], u))
  {
    var updated := Updated(rs, "3", u);
    assert updated[0] == rs[0] && updated[1] == Merge(rs[1], u);
    assert Merge(rs[1], u).id == "3";
    assert FirstWithId(updated, "3", 1);
  }

  /** The update step of the scenario leaves every record but the one of id "3" as it was. */
  lemma ScenarioUpdateOthers(rs: seq<Property>, u: PropertyPatch)
    requires |rs| == 4 && rs[0].id == "1" && rs[2].id == "4" && rs[3].id != "3"
    ensures forall i :: 0 <= i < 4 && i != 1 ==> Updated(rs, "3", u)[i] == rs[i]
  {
    var updated := Updated(rs, "3", u);
    assert updated[0] == rs[0] && updated[2] == rs[2] && updated[3] == rs[3];
  }

  /** The registry: the ordered list of property records of a session. */
  class PropertyStore {
    var properties: seq<Property>

    /** `useState<Property[]>(initialProperties)`. */
    constructor ()
      ensures properties == Seeds()
    {
      properties := Seeds();
    }

    /** `addProperty`: the record gets the id `newId` (`Date.now().toString()`
        in the source) and is appended after every existing record. */
    method AddProperty(fields: Fields, newId: string)
      modifies this
      ensures properties == old(properties) + [Property(newId, fields)]
    {
      properties := properties + [Property(newId, fields)];
    }

    /** `updateProperty`: merges `u` into every record with id `id`. */
    method UpdateProperty(id: string, u: PropertyPatch)
      modifies this
      ensures properties == Updated(old(properties), id, u)
    {
      properties := Updated(properties, id, u);
    }

    /** `deleteProperty`: removes every record with id `id`. */
    method DeleteProperty(id: string)
      modifies this
      ensures properties == Deleted(old(properties), id)
    {
      properties := Deleted(properties, id);
    }

    /** `getPropertyById`: reads the list and never changes it. */
    function GetPropertyById(id: string): (r: Option<Property>)
      reads this
      ensures r.None? <==> forall i :: 0 <= i < |properties| ==> properties[i].id != id
      ensures forall k :: FirstWithId(properties, id, k) ==> r == Some(properties[k])
    {
      Find(properties, id)
    }
  }
}
