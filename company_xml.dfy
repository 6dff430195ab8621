/**
  The `Company` schema (company.py): the company that produced the file,
  twelve `str` children, each defaulting to "".
 */
module CompanyXml {
  import opened Wrappers
  import opened Etree
  import opened Fields
  import opened Mapper
  import opened MapperFacts
  import opened TagFacts
  import opened ReadFacts

  const CompanyTable: Table := [
    ("name", Path("Name")),
    ("address", Path("Address")),
    ("postcode", Path("Postcode")),
    ("city", Path("City")),
    ("province", Path("Province")),
    ("country", Path("Country")),
    ("fiscal_code", Path("FiscalCode")),
    ("vat_code", Path("VatCode")),
    ("phone", Path("Tel")),
    ("fax", Path("Fax")),
    ("email", Path("Email")),
    ("homepage", Path("HomePage"))
  ]

  const CompanyTags: seq<string> := [
    "Name", "Address", "Postcode", "City", "Province", "Country",
    "FiscalCode", "VatCode", "Tel", "Fax", "Email", "HomePage"]

  /** No `__xml_name__`, so the tag is `Company`. */
  const Company: ClassDef := ClassDef(
    "",
    Some(CompanyTable),
    map["name" := StrType, "address" := StrType, "postcode" := StrType, "city" := StrType,
        "province" := StrType, "country" := StrType, "fiscal_code" := StrType, "vat_code" := StrType,
        "phone" := StrType, "fax" := StrType, "email" := StrType, "homepage" := StrType],
    map["name" := VStr(""), "address" := VStr(""), "postcode" := VStr(""), "city" := VStr(""),
        "province" := VStr(""), "country" := VStr(""), "fiscal_code" := VStr(""), "vat_code" := VStr(""),
        "phone" := VStr(""), "fax" := VStr(""), "email" := VStr(""), "homepage" := VStr("")])

  predicate Registered(reg: Registry) {
    "Company" in reg && reg["Company"] == Company
  }

  lemma CompanyKeys()
    ensures UniqueKeys(CompanyTable)
  {
  }

  lemma CompanyPaths()
    ensures forall j | 0 <= j < |CompanyTable| :: CompanyTable[j].1 == Path(CompanyTags[j]) && ChildTag(CompanyTags[j])
  {
  }

  lemma CompanyHints()
    ensures forall j | 0 <= j < |CompanyTable| ::
      && CompanyTable[j].0 in Company.hints && Company.hints[CompanyTable[j].0] == StrType
      && CompanyTable[j].0 in Company.defaults && Company.defaults[CompanyTable[j].0] == VStr("")
  {
  }

  lemma CompanyShape()
    ensures forall j | 0 <= j < |CompanyTable| ::
      && CompanyTable[j].1 == Path(CompanyTags[j]) && StrChildEntry(Company, CompanyTable[j])
      && CompanyTable[j].0 in Company.defaults && Company.defaults[CompanyTable[j].0] == VStr("")
  {
    CompanyPaths();
    CompanyHints();
  }

  /** A `Company` is tagged `Company` and expects exactly its twelve
      children. */
  lemma CompanyTagsExpected(reg: Registry, x: string)
    requires Registered(reg)
    ensures TagOf(reg, Some("Company")) == Ok("Company")
    ensures Configured(reg, "Company")
    ensures x in ExpectedTags(reg, CompanyTable).value <==> x in CompanyTags
  {
    CompanyPaths();
    PathsConfigured(reg, "Company");
    ExpectedTagsMembers(reg, CompanyTable, x);
    TableTagsIn(CompanyTable, CompanyTags, x);
  }

  /** With conversion on a company always decodes, and each attribute reads
      its child's text, "" when the child is missing or empty. */
  lemma CompanyReads(reg: Registry, opts: Options, e: Element, warn: bool, vis: set<ClassName>)
    requires Registered(reg) && "Company" !in vis && opts.convertTypes
    ensures Decode(reg, opts, "Company", e, warn, vis).result.Ok?
    ensures forall j | 0 <= j < |CompanyTable| ::
      Get(Company, Decode(reg, opts, "Company", e, warn, vis).result.value, CompanyTable[j].0)
        == Some(StrChild(e, CompanyTags[j], VStr("")))
  {
    CompanyKeys();
    CompanyShape();
    StrTableReads(reg, opts, "Company", e, warn, vis);
  }

  /** The sample `<Company><Name>Arredufficio Srl</Name><Fax/></Company>`. */
  const SampleName: Element := Element("Name", map[], Some("Arredufficio Srl"), [])
  const SampleFax: Element := Element("Fax", map[], None, [])
  const SampleCompany: Element := Element("Company", map[], None, [SampleName, SampleFax])

  lemma SampleFinds()
    ensures Find(SampleCompany, "Name") == Some(SampleName)
    ensures Find(SampleCompany, "Fax") == Some(SampleFax)
    ensures Find(SampleCompany, "City").None?
  {
    assert SampleCompany.children == [SampleName, SampleFax];
  }

  lemma SampleTags()
    ensures CompanyTable[0].0 == "name" && CompanyTags[0] == "Name"
    ensures CompanyTable[9].0 == "fax" && CompanyTags[9] == "Fax"
    ensures CompanyTable[3].0 == "city" && CompanyTags[3] == "City"
  {
  }

  /** In the sample the name is read, and the empty `<Fax/>` and the missing
      `<City>` both read "". */
  lemma CompanySample(reg: Registry, opts: Options)
    requires Registered(reg) && opts.convertTypes
    ensures var o := Decode(reg, opts, "Company", SampleCompany, true, {}).result;
      && o.Ok?
      && Get(Company, o.value, "name") == Some(VStr("Arredufficio Srl"))
      && Get(Company, o.value, "fax") == Some(VStr(""))
      && Get(Company, o.value, "city") == Some(VStr(""))
  {
    CompanyReads(reg, opts, SampleCompany, true, {});
    SampleTags();
    SampleFinds();
  }

  /** The demonstration company of company.py, twelve children in table
      order. */
  const Tuttobimbi: Element := Element("Company", map[], None, [
    Element("Name", map[], Some("Tuttobimbi Srl"), []),
    Element("Address", map[], Some("Via Armando Diaz, 162"), []),
    Element("Postcode", map[], Some("35010"), []),
    Element("City", map[], Some("Vigonza"), []),
    Element("Province", map[], Some("PD"), []),
    Element("Country", map[], Some("Italia"), []),
    Element("FiscalCode", map[], Some("00165987261"), []),
    Element("VatCode", map[], Some("00165987261"), []),
    Element("Tel", map[], Some("049/1234567"), []),
    Element("Fax", map[], Some("049/1234568"), []),
    Element("Email", map[], Some("info@tutto-bimbi.com"), []),
    Element("HomePage", map[], Some("www.tutto-bimbi.com"), [])])

  lemma TuttobimbiFinds()
    ensures Find(Tuttobimbi, "Name") == Some(Tuttobimbi.children[0])
    ensures Find(Tuttobimbi, "Address") == Some(Tuttobimbi.children[1])
    ensures Tuttobimbi.children[0].text == Some("Tuttobimbi Srl")
    ensures Tuttobimbi.children[1].text == Some("Via Armando Diaz, 162")
  {
    assert Tuttobimbi.children[0].tag == "Name";
    assert Tuttobimbi.children[1].tag == "Address";
  }

  lemma TuttobimbiTags()
    ensures CompanyTable[0].0 == "name" && CompanyTags[0] == "Name"
    ensures CompanyTable[1].0 == "address" && CompanyTags[1] == "Address"
  {
  }

  /** The demonstration decodes name `Tuttobimbi Srl` and address
      `Via Armando Diaz, 162`. */
  lemma TuttobimbiSample(reg: Registry, opts: Options)
    requires Registered(reg) && opts.convertTypes
    ensures var o := Decode(reg, opts, "Company", Tuttobimbi, true, {}).result;
      && o.Ok?
      && Get(Company, o.value, "name") == Some(VStr("Tuttobimbi Srl"))
      && Get(Company, o.value, "address") == Some(VStr("Via Armando Diaz, 162"))
  {
    CompanyReads(reg, opts, Tuttobimbi, true, {});
    TuttobimbiTags();
    TuttobimbiFinds();
  }
}
