/**
  The `VatCode` schema (vat_code.py): a VAT code element whose own text is
  the code and whose attributes carry the description, the percentage and
  the VAT class.
 */
module VatCodeXml {
  import opened Wrappers
  import opened Etree
  import opened Fields
  import opened Mapper
  import opened MapperFacts
  import opened TagFacts
  import opened ReadFacts

  const VatCodeTable: Table := [
    ("code", Path("#TEXT")),
    ("description", Path("@Description")),
    ("percentage", Path("@Perc")),
    ("vat_class", Path("@Class"))
  ]

  /** No `__xml_name__`, so the tag is the class name; four `str`
      attributes defaulting to "". */
  const VatCode: ClassDef := ClassDef(
    "",
    Some(VatCodeTable),
    map["code" := StrType, "description" := StrType, "percentage" := StrType, "vat_class" := StrType],
    map["code" := VStr(""), "description" := VStr(""), "percentage" := VStr(""), "vat_class" := VStr("")])

  predicate Registered(reg: Registry) {
    "VatCode" in reg && reg["VatCode"] == VatCode
  }

  /** The tag is the class name, and none of the four entries names a child. */
  lemma VatCodeTags(reg: Registry)
    requires Registered(reg)
    ensures TagOf(reg, Some("VatCode")) == Ok("VatCode")
    ensures ExpectedTags(reg, VatCodeTable) == Ok(["#TEXT", "@Description", "@Perc", "@Class"])
  {
    var t := VatCodeTable;
    var a1, a2, a3 := ["#TEXT"], ["#TEXT", "@Description"], ["#TEXT", "@Description", "@Perc"];
    var a4 := ["#TEXT", "@Description", "@Perc", "@Class"];
    assert [] + ["#TEXT"] == a1 && a1 + ["@Description"] == a2;
    assert a2 + ["@Perc"] == a3 && a3 + ["@Class"] == a4;
    assert CollectFrom(reg, t, 0, []) == CollectFrom(reg, t, 1, a1);
    assert CollectFrom(reg, t, 1, a1) == CollectFrom(reg, t, 2, a2);
    assert CollectFrom(reg, t, 2, a2) == CollectFrom(reg, t, 3, a3);
    assert CollectFrom(reg, t, 3, a3) == CollectFrom(reg, t, 4, a4);
  }

  /** Decoding a `<VatCode>` never fails, and every child element is
      reported as untracked. */
  lemma VatCodeDecodes(reg: Registry, opts: Options, e: Element, warn: bool, vis: set<ClassName>)
    requires Registered(reg) && "VatCode" !in vis
    requires forall c | c in e.children :: IsXmlName(c.tag)
    ensures Decode(reg, opts, "VatCode", e, warn, vis).result.Ok?
    ensures Decode(reg, opts, "VatCode", e, warn, vis).result.value.cls == "VatCode"
    ensures Decode(reg, opts, "VatCode", e, warn, vis).warnings == WarnFor("VatCode", ChildTags(e.children), warn)
  {
    var expected := ["#TEXT", "@Description", "@Perc", "@Class"];
    VatCodeTags(reg);
    UntrackedAll(e.children, expected);
    SafeTableDecodes(reg, opts, "VatCode", e, warn, vis);
    PathsWarnings(reg, opts, "VatCode", e, warn, vis);
    DecodeOk(reg, opts, "VatCode", e, warn, vis);
  }

  /** All four attributes are always assigned: the code from the element's
      own text and the others from its `Description`, `Perc` and `Class`
      attributes, each "" when missing (the raw value when conversion is
      off). */
  lemma VatCodeReads(reg: Registry, opts: Options, e: Element, warn: bool, vis: set<ClassName>)
    requires Registered(reg) && "VatCode" !in vis
    ensures Decode(reg, opts, "VatCode", e, warn, vis).result.Ok?
    ensures var o := Decode(reg, opts, "VatCode", e, warn, vis).result.value;
      && Lookup(o.attrs, "code") == Some(StrRead(opts, e.text))
      && Lookup(o.attrs, "description") == Some(StrRead(opts, e.Get("Description")))
      && Lookup(o.attrs, "percentage") == Some(StrRead(opts, e.Get("Perc")))
      && Lookup(o.attrs, "vat_class") == Some(StrRead(opts, e.Get("Class")))
  {
    SafeTableDecodes(reg, opts, "VatCode", e, warn, vis);
    CodeAttr(reg, opts, e, warn, vis);
    DescriptionAttr(reg, opts, e, warn, vis);
    PercentageAttr(reg, opts, e, warn, vis);
    ClassAttr(reg, opts, e, warn, vis);
  }

  lemma VatCodeKeys()
    ensures UniqueKeys(VatCodeTable)
  {
  }

  lemma CodeAttr(reg: Registry, opts: Options, e: Element, warn: bool, vis: set<ClassName>)
    requires Registered(reg) && "VatCode" !in vis && Configured(reg, "VatCode")
    requires Decode(reg, opts, "VatCode", e, warn, vis).result.Ok?
    ensures Lookup(Decode(reg, opts, "VatCode", e, warn, vis).result.value.attrs, "code") == Some(StrRead(opts, e.text))
  {
    VatCodeKeys();
    DecodedText(reg, opts, "VatCode", e, warn, vis, 0);
    CodeRead(opts, e);
  }

  lemma DescriptionAttr(reg: Registry, opts: Options, e: Element, warn: bool, vis: set<ClassName>)
    requires Registered(reg) && "VatCode" !in vis && Configured(reg, "VatCode")
    requires Decode(reg, opts, "VatCode", e, warn, vis).result.Ok?
    ensures Lookup(Decode(reg, opts, "VatCode", e, warn, vis).result.value.attrs, "description")
         == Some(StrRead(opts, e.Get("Description")))
  {
    VatCodeKeys();
    DecodedAttribute(reg, opts, "VatCode", e, warn, vis, 1);
    DescriptionRead(opts, e);
  }

  lemma PercentageAttr(reg: Registry, opts: Options, e: Element, warn: bool, vis: set<ClassName>)
    requires Registered(reg) && "VatCode" !in vis && Configured(reg, "VatCode")
    requires Decode(reg, opts, "VatCode", e, warn, vis).result.Ok?
    ensures Lookup(Decode(reg, opts, "VatCode", e, warn, vis).result.value.attrs, "percentage")
         == Some(StrRead(opts, e.Get("Perc")))
  {
    VatCodeKeys();
    DecodedAttribute(reg, opts, "VatCode", e, warn, vis, 2);
    PercentageRead(opts, e);
  }

  lemma ClassAttr(reg: Registry, opts: Options, e: Element, warn: bool, vis: set<ClassName>)
    requires Registered(reg) && "VatCode" !in vis && Configured(reg, "VatCode")
    requires Decode(reg, opts, "VatCode", e, warn, vis).result.Ok?
    ensures Lookup(Decode(reg, opts, "VatCode", e, warn, vis).result.value.attrs, "vat_class")
         == Some(StrRead(opts, e.Get("Class")))
  {
    VatCodeKeys();
    DecodedAttribute(reg, opts, "VatCode", e, warn, vis, 3);
    ClassRead(opts, e);
  }

  lemma CodeRead(opts: Options, e: Element)
    ensures ScalarEffect(opts, "VatCode", VatCode, "code", e.text) == Assign(StrRead(opts, e.text))
  {
    StrScalar(opts, "VatCode", VatCode, "code", e.text);
  }

  lemma DescriptionRead(opts: Options, e: Element)
    ensures ScalarEffect(opts, "VatCode", VatCode, "description", e.Get("Description"))
         == Assign(StrRead(opts, e.Get("Description")))
  {
    StrScalar(opts, "VatCode", VatCode, "description", e.Get("Description"));
  }

  lemma PercentageRead(opts: Options, e: Element)
    ensures ScalarEffect(opts, "VatCode", VatCode, "percentage", e.Get("Perc")) == Assign(StrRead(opts, e.Get("Perc")))
  {
    StrScalar(opts, "VatCode", VatCode, "percentage", e.Get("Perc"));
  }

  lemma ClassRead(opts: Options, e: Element)
    ensures ScalarEffect(opts, "VatCode", VatCode, "vat_class", e.Get("Class")) == Assign(StrRead(opts, e.Get("Class")))
  {
    StrScalar(opts, "VatCode", VatCode, "vat_class", e.Get("Class"));
  }

  /** The sample `<VatCode Perc="20">My20VAT</VatCode>`, converted: code
      "My20VAT", percentage "20", and "" for the two missing attributes. */
  lemma VatCodeSample(reg: Registry, opts: Options)
    requires Registered(reg) && opts.convertTypes
    ensures var o := Decode(reg, opts, "VatCode", Element("VatCode", map["Perc" := "20"], Some("My20VAT"), []), true, {}).result;
      && o.Ok?
      && Lookup(o.value.attrs, "code") == Some(VStr("My20VAT"))
      && Lookup(o.value.attrs, "percentage") == Some(VStr("20"))
      && Lookup(o.value.attrs, "description") == Some(VStr(""))
      && Lookup(o.value.attrs, "vat_class") == Some(VStr(""))
  {
    VatCodeReads(reg, opts, Element("VatCode", map["Perc" := "20"], Some("My20VAT"), []), true, {});
  }
}
