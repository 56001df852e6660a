/** The documents page of one record (src/pages/PropertyDocuments.tsx): the
    not-found guard, the document list and its name search, the category
    cards and the icon of each row. */
module DocumentsPage {
  import opened Wrappers
  import opened Seqs
  import opened Text
  import opened Registry

  /** The icons a row can show. */
  datatype Icon = PdfIcon | ZipIcon | DocIcon | ImageIcon | GenericIcon

  /** `iconMap`: the document types with an icon of their own. */
  const IconMap: map<string, Icon> := map["PDF" := PdfIcon, "ZIP" := ZipIcon, "DOC" := DocIcon, "IMG" := ImageIcon]

  /** `getDocumentIcon`: the generic icon exactly for a type outside the map. */
  function DocumentIcon(kind: string): (icon: Icon)
    ensures icon == GenericIcon <==> kind !in IconMap
    ensures kind in IconMap ==> icon == IconMap[kind]
  {
    if kind in IconMap then IconMap[kind] else GenericIcon
  }

  /** `value || fallback` for an optional string: absent and "" both fall back. */
  function OrText(value: Option<string>, fallback: string): (r: string)
    ensures value.None? || value.value == "" ==> r == fallback
    ensures value.Some? && value.value != "" ==> r == value.value
  {
    if value.Some? && value.value != "" then value.value else fallback
  }

  /** One row of the documents table. */
  datatype Row = Row(icon: Icon, name: string, size: string, date: string)

  /** The row of a document: a missing or empty type is shown as a PDF, a
      missing size as "N/A", a missing date as `today` (the current date
      in the source). */
  function DocumentRow(d: Document, today: string): (row: Row)
    ensures row.name == d.name
    ensures (d.kind.None? || d.kind.value == "") ==> row.icon == PdfIcon
    ensures d.kind.Some? && d.kind.value != "" ==> row.icon == DocumentIcon(d.kind.value)
    ensures (d.size.None? || d.size.value == "") ==> row.size == "N/A"
    ensures d.size.Some? && d.size.value != "" ==> row.size == d.size.value
    ensures (d.date.None? || d.date.value == "") ==> row.date == today
    ensures d.date.Some? && d.date.value != "" ==> row.date == d.date.value
  {
    Row(DocumentIcon(OrText(d.kind, "PDF")), d.name, OrText(d.size, "N/A"), OrText(d.date, today))
  }

  /** `property.documents || []`. */
  function DocumentList(p: Property): (docs: seq<Document>)
    ensures p.fields.documents.None? ==> docs == []
    ensures p.fields.documents.Some? ==> docs == p.fields.documents.value
  {
    p.fields.documents.GetOr([])
  }

  /** The search test: the lower-cased name includes the lower-cased term. */
  predicate NameMatches(d: Document, term: string) {
    Contains(Lower(d.name), Lower(term))
  }

  function NameMatchesTerm(term: string): Document -> bool {
    d => NameMatches(d, term)
  }

  /** `filteredDocuments`: the matching documents in list order; an empty
      term keeps them all. */
  function FilteredDocuments(docs: seq<Document>, term: string): (r: seq<Document>)
    ensures IsSubsequence(r, docs) && |r| <= |docs|
    ensures forall i :: 0 <= i < |r| ==> NameMatches(r[i], term)
    ensures term == "" ==> r == docs
    ensures forall x {:trigger multiset(r)[x]} :: multiset(r)[x] == if NameMatches(x, term) then multiset(docs)[x] else 0
  {
    FilterMultiset(docs, NameMatchesTerm(term));
    Filter(docs, NameMatchesTerm(term))
  }

  /** A document is listed exactly when it is in the list and matches. */
  lemma FilteredDocumentsMembers(docs: seq<Document>, term: string, x: Document)
    ensures x in FilteredDocuments(docs, term) <==> x in docs && NameMatches(x, term)
  {
    FilterMembership(docs, NameMatchesTerm(term), x);
  }

  /** The four category tests; names are matched case-sensitively. */
  predicate IsLegal(d: Document) {
    Contains(d.name, "Acte") || Contains(d.name, "Certificat")
  }

  predicate IsPlan(d: Document) {
    Contains(d.name, "Plans") || Contains(d.name, "plan")
  }

  predicate IsContract(d: Document) {
    Contains(d.name, "Bail") || Contains(d.name, "Contrat")
  }

  predicate IsOther(d: Document) {
    !Contains(d.name, "Acte") && !Contains(d.name, "Certificat") && !Contains(d.name, "Plans")
    && !Contains(d.name, "Bail") && !Contains(d.name, "Contrat")
  }

  /** The name contains one of the five keywords the "Autres" card excludes. */
  predicate HasKeyword(d: Document) {
    Contains(d.name, "Acte") || Contains(d.name, "Certificat") || Contains(d.name, "Plans")
    || Contains(d.name, "Bail") || Contains(d.name, "Contrat")
  }

  /** The counts shown on the four category cards. */
  datatype CategoryCounts = CategoryCounts(legal: nat, plans: nat, contracts: nat, others: nat)

  function Categories(docs: seq<Document>): (c: CategoryCounts)
    ensures c.legal <= |docs| && c.plans <= |docs| && c.contracts <= |docs| && c.others <= |docs|
  {
    CategoryCounts(
      |Filter(docs, IsLegal)|, |Filter(docs, IsPlan)|,
      |Filter(docs, IsContract)|, |Filter(docs, IsOther)|)
  }

  /** "Autres" counts exactly the documents with none of the five keywords. */
  lemma OthersCount(docs: seq<Document>)
    ensures Categories(docs).others == |docs| - |Filter(docs, HasKeyword)|
  {
    FilterPartition(docs, IsOther, HasKeyword);
  }

  /** Every document is counted by at least one card. */
  lemma CategoriesCoverAll(docs: seq<Document>)
    ensures var c := Categories(docs);
            c.legal + c.plans + c.contracts + c.others >= |docs|
  {
    FilterCover4(docs, IsLegal, IsPlan, IsContract, IsOther);
  }

  /** The cards overlap: a name with the lower-case "plan" and none of the
      keywords is counted both as a plan and as "Autres". */
  lemma LowercasePlanCountedTwice(d: Document)
    requires Contains(d.name, "plan") && !HasKeyword(d)
    ensures Categories([d]) == CategoryCounts(0, 1, 0, 1)
  {
    assert IsPlan(d) && IsOther(d) && !IsLegal(d) && !IsContract(d);
  }

  /** A document named "plan" is such a name. */
  lemma PlanIsCountedTwice(d: Document)
    requires d.name == "plan"
    ensures Categories([d]) == CategoryCounts(0, 1, 0, 1)
  {
    ContainsNoLonger(d.name, "Acte");
    ContainsNoLonger(d.name, "Certificat");
    ContainsNoLonger(d.name, "Plans");
    ContainsNoLonger(d.name, "Bail");
    ContainsNoLonger(d.name, "Contrat");
    LowercasePlanCountedTwice(d);
  }

  /** What the page shows: the not-found message, or the record with its
      document total, the category counts and the rows that match the search. */
  datatype DocumentsView =
    | NotFound
    | Found(property: Property, total: nat, counts: CategoryCounts, rows: seq<Row>)

  /** The page for the route id `routeId` (`getPropertyById(id || '')`). */
  function View(ps: seq<Property>, routeId: Option<string>, term: string, today: string): (v: DocumentsView)
    ensures v.NotFound? <==> Find(ps, routeId.GetOr("")).None?
    ensures v.Found? ==> v.property == Find(ps, routeId.GetOr("")).value
    ensures v.Found? ==> v.total == |DocumentList(v.property)| && v.counts == Categories(DocumentList(v.property))
    ensures v.Found? ==> |v.rows| == |FilteredDocuments(DocumentList(v.property), term)|
    ensures v.Found? ==> forall i :: 0 <= i < |v.rows| ==>
              v.rows[i] == DocumentRow(FilteredDocuments(DocumentList(v.property), term)[i], today)
    ensures v.Found? && term == "" ==> |v.rows| == v.total
  {
    match Find(ps, routeId.GetOr(""))
    case None => NotFound
    case Some(p) =>
      var docs := DocumentList(p);
      var shown := FilteredDocuments(docs, term);
      Found(p, |docs|, Categories(docs), seq(|shown|, i requires 0 <= i < |shown| => DocumentRow(shown[i], today)))
  }

  /** A record without a document list shows a total of 0 and no rows. */
  lemma NoDocumentsView(ps: seq<Property>, routeId: Option<string>, term: string, today: string)
    requires Find(ps, routeId.GetOr("")).Some?
    requires Find(ps, routeId.GetOr("")).value.fields.documents.None?
    ensures var v := View(ps, routeId, term, today);
            v.Found? && v.total == 0 && v.rows == [] && v.counts == CategoryCounts(0, 0, 0, 0)
  {
  }
}
