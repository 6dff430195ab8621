/**
  The root of an Easyfatt file (root.py): `<EasyfattDocuments>` with three
  attributes, an optional `<Company>` and a `<Documents>` list, and the
  object the decoder returns for it, with the four methods that edit its
  company and its document list in place.
 */
module RootXml {
  import opened Wrappers
  import opened Exceptions
  import opened Etree
  import opened PyText
  import opened Fields
  import opened Mapper
  import opened MapperFacts
  import opened EntryFacts
  import opened TagFacts
  import opened ReadFacts
  import VatCodeXml
  import ProductXml
  import DocumentXml
  import CompanyXml

  // ---------------------------------------------------------------------
  // The table

  const RootTable: Table := [
    ("protocol_version", Path("@AppVersion")),
    ("creator_name", Path("@Creator")),
    ("creator_url", Path("@CreatorUrl")),
    ("company", FieldEntry(FieldOf("Company"))),
    ("documents", FieldEntry(ListField("Documents", "Document")))
  ]

  /** Tagged `EasyfattDocuments`. The three strings default to "" and
      `company` to None; `documents` has only a default factory, which
      leaves no class attribute behind. `Optional[Company]` and
      `list[Document]` name no conversion rule. */
  const Easyfatt: ClassDef := ClassDef(
    "EasyfattDocuments",
    Some(RootTable),
    map["protocol_version" := StrType, "creator_name" := StrType, "creator_url" := StrType,
        "company" := OtherType, "documents" := OtherType],
    map["protocol_version" := VStr(""), "creator_name" := VStr(""), "creator_url" := VStr(""),
        "company" := VNone])

  /** The tags the root expects: its attributes and its two children. */
  const RootTags: seq<string> := ["@AppVersion", "@Creator", "@CreatorUrl", "Company", "Documents"]

  predicate RootIn(reg: Registry) {
    "EasyfattXML" in reg && reg["EasyfattXML"] == Easyfatt
  }

  /** Every class of the file format, registered under its name. */
  predicate Registered(reg: Registry) {
    DocumentXml.Registered(reg) && CompanyXml.Registered(reg) && RootIn(reg)
  }

  /** The classes of the file format. */
  const Schema: Registry := map[
    "VatCode" := VatCodeXml.VatCode,
    "Product" := ProductXml.Product,
    "Payment" := DocumentXml.Payment,
    "DeliveryInfo" := DocumentXml.DeliveryInfo,
    "TransportInfo" := DocumentXml.TransportInfo,
    "CustomerInfo" := DocumentXml.CustomerInfo,
    "DocumentNotes" := DocumentXml.DocumentNotes,
    "Document" := DocumentXml.Document,
    "Company" := CompanyXml.Company,
    "EasyfattXML" := Easyfatt
  ]

  lemma SchemaProducts()
    ensures VatCodeXml.Registered(Schema) && ProductXml.Registered(Schema)
  {
  }

  lemma SchemaGroups()
    ensures DocumentXml.DeliveryIn(Schema) && DocumentXml.TransportIn(Schema)
    ensures DocumentXml.CustomerIn(Schema) && DocumentXml.NotesIn(Schema)
  {
  }

  lemma SchemaDocuments()
    ensures DocumentXml.PaymentIn(Schema) && DocumentXml.DocumentIn(Schema)
  {
  }

  lemma SchemaRoot()
    ensures CompanyXml.Registered(Schema) && RootIn(Schema)
  {
  }

  lemma SchemaRegistered()
    ensures Registered(Schema)
  {
    SchemaProducts();
    SchemaGroups();
    SchemaDocuments();
    SchemaRoot();
  }

  // ---------------------------------------------------------------------
  // Decoding

  lemma RootKeys()
    ensures UniqueKeys(RootTable)
  {
  }

  lemma RootFacts()
    ensures RootTable[3] == ("company", FieldEntry(FieldOf("Company")))
    ensures RootTable[4] == ("documents", FieldEntry(ListField("Documents", "Document")))
    ensures "documents" !in Easyfatt.defaults
    ensures "company" in Easyfatt.defaults && Easyfatt.defaults["company"] == VNone
  {
  }

  /** The root is tagged `EasyfattDocuments` and expects exactly its three
      attributes, `Company` and `Documents`. */
  lemma RootTagsExpected(reg: Registry)
    requires CompanyXml.Registered(reg) && RootIn(reg)
    ensures TagOf(reg, Some("EasyfattXML")) == Ok("EasyfattDocuments")
    ensures Configured(reg, "EasyfattXML")
    ensures ExpectedTags(reg, RootTable) == Ok(RootTags)
  {
    var t := RootTable;
    assert TagOf(reg, Some("Company")) == Ok("Company");
    var a1, a2, a3 := ["@AppVersion"], ["@AppVersion", "@Creator"], ["@AppVersion", "@Creator", "@CreatorUrl"];
    var a4 := ["@AppVersion", "@Creator", "@CreatorUrl", "Company"];
    assert [] + ["@AppVersion"] == a1 && a1 + ["@Creator"] == a2 && a2 + ["@CreatorUrl"] == a3;
    assert a3 + ["Company"] == a4 && a4 + ["Documents"] == RootTags;
    assert CollectFrom(reg, t, 0, []) == CollectFrom(reg, t, 1, a1);
    assert CollectFrom(reg, t, 1, a1) == CollectFrom(reg, t, 2, a2);
    assert CollectFrom(reg, t, 2, a2) == CollectFrom(reg, t, 3, a3);
    assert CollectFrom(reg, t, 3, a3) == CollectFrom(reg, t, 4, a4);
    assert CollectFrom(reg, t, 4, a4) == CollectFrom(reg, t, 5, RootTags);
  }

  /** Every child other than `<Company>` and `<Documents>` is reported. */
  lemma RootUntracked(reg: Registry, e: Element)
    requires CompanyXml.Registered(reg) && RootIn(reg)
    ensures Configured(reg, "EasyfattXML")
    ensures forall x :: x in Untracked(e.children, ExpectedTags(reg, RootTable).value)
                    <==> x in ChildTags(e.children) && x !in RootTags
  {
    RootTagsExpected(reg);
    forall x ensures x in Untracked(e.children, RootTags) <==> x in ChildTags(e.children) && x !in RootTags {
      UntrackedMembers(e.children, RootTags, x);
    }
  }

  /** The documents of a file. */
  function DocumentElements(e: Element): seq<Element> {
    FindPath(e, "Documents", "Document")
  }

  lemma AttributesSafe(reg: Registry, opts: Options, e: Element, warn: bool, vis: set<ClassName>)
    requires RootIn(reg) && "EasyfattXML" !in vis
    ensures forall j | 0 <= j < 3 :: !EntryEffect(reg, opts, "EasyfattXML", e, warn, vis, j).Raise?
  {
    forall j | 0 <= j < 3 ensures !EntryEffect(reg, opts, "EasyfattXML", e, warn, vis, j).Raise? {
      assert SafeEntry(opts, Easyfatt, RootTable[j]);
      SafeEntryEffect(reg, opts, "EasyfattXML", e, warn, vis, j);
    }
  }

  /** The company entry: skipped without `<Company>`, else the first one
      decoded, which never fails. */
  lemma CompanyEffect(reg: Registry, opts: Options, e: Element, warn: bool, vis: set<ClassName>)
    requires CompanyXml.Registered(reg) && RootIn(reg) && "EasyfattXML" !in vis && opts.convertTypes
    ensures var c := Find(e, "Company");
      && (c.None? ==> EntryEffect(reg, opts, "EasyfattXML", e, warn, vis, 3) == Skip)
      && (c.Some? ==>
            && Decode(reg, opts, "Company", c.value, warn, {}).result.Ok?
            && EntryEffect(reg, opts, "EasyfattXML", e, warn, vis, 3)
               == Assign(VObj(Decode(reg, opts, "Company", c.value, warn, {}).result.value)))
  {
    RootFacts();
    assert XmlTag("Company", reg["Company"]) == "Company";
    SingleField(reg, opts, "EasyfattXML", e, warn, vis, "company", FieldOf("Company"));
    if Find(e, "Company").Some? {
      CompanyXml.CompanyReads(reg, opts, Find(e, "Company").value, warn, {});
    }
  }

  /** The documents entry raises exactly when some document does not
      convert. */
  lemma DocumentsRaise(reg: Registry, opts: Options, e: Element, warn: bool, vis: set<ClassName>)
    requires DocumentXml.Registered(reg) && RootIn(reg) && "EasyfattXML" !in vis && opts.convertTypes
    ensures EntryEffect(reg, opts, "EasyfattXML", e, warn, vis, 4).Raise? <==>
      exists m | 0 <= m < |DocumentElements(e)| :: !DocumentXml.DocumentConverts(opts, DocumentElements(e)[m])
  {
    RootFacts();
    assert XmlTag("Document", reg["Document"]) == "Document";
    ListEntryRaises(reg, opts, "EasyfattXML", e, warn, vis, 4, "Documents", "Document");
    var ds := DocumentElements(e);
    forall m | 0 <= m < |ds|
      ensures Decode(reg, opts, "Document", ds[m], warn, {}).result.Ok? <==> DocumentXml.DocumentConverts(opts, ds[m])
    {
      DocumentXml.DocumentDecodes(reg, opts, ds[m], warn, {});
    }
  }

  /** With conversion on, a file decodes exactly when every document in it
      does. */
  lemma RootDecodes(reg: Registry, opts: Options, e: Element, warn: bool, vis: set<ClassName>)
    requires Registered(reg) && "EasyfattXML" !in vis && opts.convertTypes
    ensures Configured(reg, "EasyfattXML")
    ensures Decode(reg, opts, "EasyfattXML", e, warn, vis).result.Ok? <==>
      forall m | 0 <= m < |DocumentElements(e)| :: DocumentXml.DocumentConverts(opts, DocumentElements(e)[m])
  {
    RootTagsExpected(reg);
    DecodeOk(reg, opts, "EasyfattXML", e, warn, vis);
    AttributesSafe(reg, opts, e, warn, vis);
    CompanyEffect(reg, opts, e, warn, vis);
    DocumentsRaise(reg, opts, e, warn, vis);
    if forall m | 0 <= m < |DocumentElements(e)| :: DocumentXml.DocumentConverts(opts, DocumentElements(e)[m]) {
      forall j | 0 <= j < |RootTable| ensures !EntryEffect(reg, opts, "EasyfattXML", e, warn, vis, j).Raise? {
        if j == 3 {
          assert !EntryEffect(reg, opts, "EasyfattXML", e, warn, vis, 3).Raise?;
        } else if j == 4 {
          assert !EntryEffect(reg, opts, "EasyfattXML", e, warn, vis, 4).Raise?;
        }
      }
    } else {
      assert EntryEffect(reg, opts, "EasyfattXML", e, warn, vis, 4).Raise?;
    }
  }

  /** The three attributes convert to their text, "" when missing. */
  lemma RootAttributes(reg: Registry, opts: Options, e: Element, warn: bool, vis: set<ClassName>)
    requires CompanyXml.Registered(reg) && RootIn(reg) && "EasyfattXML" !in vis && opts.convertTypes
    requires Decode(reg, opts, "EasyfattXML", e, warn, vis).result.Ok?
    ensures var o := Decode(reg, opts, "EasyfattXML", e, warn, vis).result.value;
      && Get(Easyfatt, o, "protocol_version") == Some(VStr(e.Get("AppVersion").GetOr("")))
      && Get(Easyfatt, o, "creator_name") == Some(VStr(e.Get("Creator").GetOr("")))
      && Get(Easyfatt, o, "creator_url") == Some(VStr(e.Get("CreatorUrl").GetOr("")))
  {
    RootKeys();
    RootTagsExpected(reg);
    AttributeRead(reg, opts, e, warn, vis, 0);
    AttributeRead(reg, opts, e, warn, vis, 1);
    AttributeRead(reg, opts, e, warn, vis, 2);
  }

  lemma AttributeRead(reg: Registry, opts: Options, e: Element, warn: bool, vis: set<ClassName>, j: nat)
    requires RootIn(reg) && Configured(reg, "EasyfattXML") && "EasyfattXML" !in vis && opts.convertTypes
    requires Decode(reg, opts, "EasyfattXML", e, warn, vis).result.Ok?
    requires j < 3
    ensures RootTable[j].1.Path? && |RootTable[j].1.path| > 0
    ensures Get(Easyfatt, Decode(reg, opts, "EasyfattXML", e, warn, vis).result.value, RootTable[j].0)
         == Some(VStr(e.Get(RootTable[j].1.path[1..]).GetOr("")))
  {
    RootKeys();
    assert AttributeTag(RootTable[j].1.path);
    DecodedAttribute(reg, opts, "EasyfattXML", e, warn, vis, j);
    StrScalar(opts, "EasyfattXML", Easyfatt, RootTable[j].0, e.Get(RootTable[j].1.path[1..]));
  }

  /** `company` is the first `<Company>` decoded, and None without one. */
  lemma RootCompany(reg: Registry, opts: Options, e: Element, warn: bool, vis: set<ClassName>)
    requires CompanyXml.Registered(reg) && RootIn(reg) && "EasyfattXML" !in vis && opts.convertTypes
    requires Decode(reg, opts, "EasyfattXML", e, warn, vis).result.Ok?
    ensures var c := Find(e, "Company");
      var v := Get(Easyfatt, Decode(reg, opts, "EasyfattXML", e, warn, vis).result.value, "company");
      && (c.None? ==> v == Some(VNone))
      && (c.Some? ==>
            && Decode(reg, opts, "Company", c.value, warn, {}).result.Ok?
            && v == Some(VObj(Decode(reg, opts, "Company", c.value, warn, {}).result.value)))
  {
    RootKeys();
    RootFacts();
    RootTagsExpected(reg);
    DecodeAttribute(reg, opts, "EasyfattXML", e, warn, vis, 3);
    CompanyEffect(reg, opts, e, warn, vis);
  }

  /** `documents` is always assigned: one decoded `Document` per
      `Documents/Document`, in document order. */
  lemma RootDocuments(reg: Registry, opts: Options, e: Element, warn: bool, vis: set<ClassName>)
    requires Registered(reg) && "EasyfattXML" !in vis
    requires Decode(reg, opts, "EasyfattXML", e, warn, vis).result.Ok?
    ensures var ds := DocumentElements(e);
      var v := Get(Easyfatt, Decode(reg, opts, "EasyfattXML", e, warn, vis).result.value, "documents");
      && v.Some? && v.value.VList? && |v.value.items| == |ds|
      && forall m | 0 <= m < |ds| ::
           Decode(reg, opts, "Document", ds[m], warn, {}).result.Ok?
           && v.value.items[m] == Decode(reg, opts, "Document", ds[m], warn, {}).result.value
  {
    RootKeys();
    RootFacts();
    RootTagsExpected(reg);
    assert XmlTag("Document", reg["Document"]) == "Document";
    ReadFacts.DecodedList(reg, opts, "EasyfattXML", e, warn, vis, 4, "Documents", "Document");
  }

  /** A file without `<Documents>` still gets an empty list. */
  lemma NoDocuments(reg: Registry, opts: Options, e: Element, warn: bool, vis: set<ClassName>)
    requires Registered(reg) && "EasyfattXML" !in vis
    requires Decode(reg, opts, "EasyfattXML", e, warn, vis).result.Ok?
    requires forall c | c in e.children :: c.tag != "Documents"
    ensures Get(Easyfatt, Decode(reg, opts, "EasyfattXML", e, warn, vis).result.value, "documents") == Some(VList([]))
  {
    RootDocuments(reg, opts, e, warn, vis);
    PathWithoutContainers(e, "Documents", "Document");
  }

  // ---------------------------------------------------------------------
  // Editing the decoded object

  /** The document list an instance holds: None while it has no
      `documents` attribute. */
  function DocumentsOf(o: Instance): Option<seq<Instance>> {
    match Lookup(o.attrs, "documents")
    case Some(VList(ds)) => Some(ds)
    case _ => None
  }

  /** Every decoded file has its document list. */
  lemma DecodedDocuments(reg: Registry, opts: Options, e: Element, warn: bool, vis: set<ClassName>)
    requires Registered(reg) && "EasyfattXML" !in vis
    requires Decode(reg, opts, "EasyfattXML", e, warn, vis).result.Ok?
    ensures var ds := DocumentsOf(Decode(reg, opts, "EasyfattXML", e, warn, vis).result.value);
      ds.Some? && |ds.value| == |DocumentElements(e)|
  {
    var o := Decode(reg, opts, "EasyfattXML", e, warn, vis).result.value;
    var dl := DecodeItems(reg, opts, "Document", e, warn, DocumentElements(e), 0, [], []);
    RootKeys();
    RootFacts();
    RootTagsExpected(reg);
    assert XmlTag("Document", reg["Document"]) == "Document";
    ReadFacts.ListAttribute(reg, opts, "EasyfattXML", e, warn, vis, 4, "Documents", "Document");
    DecodeItemsValues(reg, opts, "Document", e, warn, DocumentElements(e), 0, [], []);
    assert DocumentsOf(o) == Some(dl.result.value);
  }

  /** The position of the first element equal to `d`, with `eq` standing for
      the element's `==` against `d`. */
  function IndexOf(ds: seq<Instance>, d: Instance, eq: (Instance, Instance) -> bool): (r: Option<nat>)
    ensures r.Some? ==> r.value < |ds| && eq(ds[r.value], d) && forall i | 0 <= i < r.value :: !eq(ds[i], d)
    ensures r.None? <==> forall i | 0 <= i < |ds| :: !eq(ds[i], d)
    decreases |ds|
  {
    if ds == [] then None
    else if eq(ds[0], d) then Some(0)
    else
      match IndexOf(ds[1..], d, eq)
      case None => None
      case Some(i) => Some(i + 1)
  }

  /** `list.remove`: drop the first element equal to `d`, or fail with
      `ValueError`. */
  function RemoveFirst(ds: seq<Instance>, d: Instance, eq: (Instance, Instance) -> bool): Result<seq<Instance>, Error> {
    match IndexOf(ds, d, eq)
    case None => Err(ValueError)
    case Some(i) => Ok(ds[..i] + ds[i + 1..])
  }

  /** `remove` fails exactly when no element is equal; otherwise it drops
      exactly the first equal one and keeps the others in order. */
  lemma RemoveFirstSpec(ds: seq<Instance>, d: Instance, eq: (Instance, Instance) -> bool)
    ensures RemoveFirst(ds, d, eq).Err? <==> forall i | 0 <= i < |ds| :: !eq(ds[i], d)
    ensures RemoveFirst(ds, d, eq).Err? ==> RemoveFirst(ds, d, eq).error == ValueError
    ensures RemoveFirst(ds, d, eq).Ok? ==>
      exists i | 0 <= i < |ds| ::
        && eq(ds[i], d) && (forall k | 0 <= k < i :: !eq(ds[k], d))
        && RemoveFirst(ds, d, eq).value == ds[..i] + ds[i + 1..]
  {
    var r := IndexOf(ds, d, eq);
    if r.Some? {
      var i := r.value;
      assert eq(ds[i], d) && RemoveFirst(ds, d, eq).value == ds[..i] + ds[i + 1..];
    }
  }

  lemma RemoveFirstLength(ds: seq<Instance>, d: Instance, eq: (Instance, Instance) -> bool)
    requires RemoveFirst(ds, d, eq).Ok?
    ensures |RemoveFirst(ds, d, eq).value| == |ds| - 1
    ensures multiset(RemoveFirst(ds, d, eq).value) + multiset{ds[IndexOf(ds, d, eq).value]} == multiset(ds)
  {
    var i := IndexOf(ds, d, eq).value;
    assert ds == ds[..i] + [ds[i]] + ds[i + 1..];
  }

  /** Removing right after adding gives the list back, when nothing in it
      was equal to the document and the document equals itself. */
  lemma {:induction false} AddThenRemove(ds: seq<Instance>, d: Instance, eq: (Instance, Instance) -> bool)
    requires forall i | 0 <= i < |ds| :: !eq(ds[i], d)
    requires eq(d, d)
    ensures RemoveFirst(ds + [d], d, eq) == Ok(ds)
  {
    var xs := ds + [d];
    assert forall i | 0 <= i < |ds| :: !eq(xs[i], d);
    IndexAfter(ds, d, eq);
    assert xs[..|ds|] == ds;
    assert xs[|ds| + 1..] == [];
    assert ds + [] == ds;
  }

  lemma {:induction false} IndexAfter(ds: seq<Instance>, d: Instance, eq: (Instance, Instance) -> bool)
    requires forall i | 0 <= i < |ds| :: !eq(ds[i], d)
    requires eq(d, d)
    ensures IndexOf(ds + [d], d, eq) == Some(|ds|)
  {
    var r := IndexOf(ds + [d], d, eq);
    assert (ds + [d])[|ds|] == d;
    assert forall i | 0 <= i < |ds| :: (ds + [d])[i] == ds[i];
  }

  /** The object `from_xml` returns for a file, and an object made with
      `EasyfattXML()`. The company reads its class default while unset; the
      document list is missing until a decode assigns it. */
  class EasyfattXml {
    var protocolVersion: Value
    var creatorName: Value
    var creatorUrl: Value
    var company: Value
    var documents: Option<seq<Instance>>

    /** `EasyfattXML()`: no `__init__` is generated, so nothing is
        assigned and only class defaults are visible. */
    constructor ()
      ensures protocolVersion == VStr("") && creatorName == VStr("") && creatorUrl == VStr("")
      ensures company == VNone && documents.None?
    {
      protocolVersion := VStr("");
      creatorName := VStr("");
      creatorUrl := VStr("");
      company := VNone;
      documents := None;
    }

    /** The decoded instance `o`, read through the class defaults. */
    constructor FromInstance(o: Instance)
      ensures protocolVersion == Get(Easyfatt, o, "protocol_version").value
      ensures creatorName == Get(Easyfatt, o, "creator_name").value
      ensures creatorUrl == Get(Easyfatt, o, "creator_url").value
      ensures company == Get(Easyfatt, o, "company").value
      ensures documents == DocumentsOf(o)
    {
      protocolVersion := Get(Easyfatt, o, "protocol_version").value;
      creatorName := Get(Easyfatt, o, "creator_name").value;
      creatorUrl := Get(Easyfatt, o, "creator_url").value;
      company := Get(Easyfatt, o, "company").value;
      documents := DocumentsOf(o);
    }

    /** `add_document`: append at the end; without a document list,
        `self.documents` raises `AttributeError`. */
    method AddDocument(d: Instance) returns (err: Option<Error>)
      modifies this
      ensures old(documents).None? ==> err == Some(AttributeError("EasyfattXML")) && documents == old(documents)
      ensures old(documents).Some? ==> err.None? && documents == Some(old(documents).value + [d])
      ensures company == old(company)
      ensures protocolVersion == old(protocolVersion) && creatorName == old(creatorName) && creatorUrl == old(creatorUrl)
    {
      if documents.None? {
        return Some(AttributeError("EasyfattXML"));
      }
      documents := Some(documents.value + [d]);
      return None;
    }

    /** `remove_document`: `list.remove`, which drops the first element equal
        to `d` or raises `ValueError` and leaves the list as it was. */
    method RemoveDocument(d: Instance, eq: (Instance, Instance) -> bool) returns (err: Option<Error>)
      modifies this
      ensures old(documents).None? ==> err == Some(AttributeError("EasyfattXML")) && documents == old(documents)
      ensures old(documents).Some? ==>
        match RemoveFirst(old(documents).value, d, eq)
        case Ok(rest) => err.None? && documents == Some(rest)
        case Err(x) => err == Some(x) && documents == old(documents)
      ensures company == old(company)
      ensures protocolVersion == old(protocolVersion) && creatorName == old(creatorName) && creatorUrl == old(creatorUrl)
    {
      if documents.None? {
        return Some(AttributeError("EasyfattXML"));
      }
      var r := RemoveFirst(documents.value, d, eq);
      if r.Err? {
        return Some(r.error);
      }
      documents := Some(r.value);
      return None;
    }

    /** `set_company`: `company` becomes the argument. */
    method SetCompany(c: Instance)
      modifies this
      ensures company == VObj(c)
      ensures documents == old(documents)
      ensures protocolVersion == old(protocolVersion) && creatorName == old(creatorName) && creatorUrl == old(creatorUrl)
    {
      company := VObj(c);
    }

    /** `remove_company`: `company` becomes None. */
    method RemoveCompany()
      modifies this
      ensures company == VNone
      ensures documents == old(documents)
      ensures protocolVersion == old(protocolVersion) && creatorName == old(creatorName) && creatorUrl == old(creatorUrl)
    {
      company := VNone;
    }
  }
}
