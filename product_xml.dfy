/**
  The `Product` schema (product.py): one document row, tagged `Row`, with
  eighteen scalar children and a nested `VatCode`.
 */
module ProductXml {
  import opened Wrappers
  import opened Exceptions
  import opened Etree
  import opened PyText
  import opened Fields
  import opened Mapper
  import opened MapperFacts
  import opened EntryFacts
  import opened TagFacts
  import opened ReadFacts
  import VatCodeXml

  const ProductTable: Table := [
    ("code", Path("Code")),
    ("supplier_code", Path("SupplierCode")),
    ("description", Path("Description")),
    ("quantity", Path("Qty")),
    ("unit_measure", Path("Um")),
    ("size", Path("Size")),
    ("color", Path("Color")),
    ("lot", Path("Lot")),
    ("expiry_date", Path("ExpiryDate")),
    ("serial", Path("Serial")),
    ("price", Path("Price")),
    ("discounts", Path("Discounts")),
    ("eco_fee", Path("EcoFee")),
    ("vat_info", FieldEntry(TaggedField("VatCode", "VatCode"))),
    ("total", Path("Total")),
    ("withholding_tax", Path("WithholdingTax")),
    ("stock", Path("Stock")),
    ("notes", Path("Notes")),
    ("commission_percentage", Path("CommissionPerc"))
  ]

  /** The child tags of a row, entry by entry. */
  const RowTags: seq<string> := [
    "Code", "SupplierCode", "Description", "Qty", "Um", "Size", "Color", "Lot", "ExpiryDate", "Serial",
    "Price", "Discounts", "EcoFee", "VatCode", "Total", "WithholdingTax", "Stock", "Notes", "CommissionPerc"]

  /** `__xml_name__ = "Row"`. `quantity` is `int`, the three amounts are
      `float` with the class default `0` (an `int`), `vat_info` is an
      `Optional["VatCode"]`, the two flags are `Optional[bool]`, and every
      other attribute is `str`. */
  const Product: ClassDef := ClassDef(
    "Row",
    Some(ProductTable),
    map[
      "code" := StrType, "supplier_code" := StrType, "description" := StrType, "quantity" := IntType,
      "unit_measure" := StrType, "size" := StrType, "color" := StrType, "lot" := StrType,
      "expiry_date" := StrType, "serial" := StrType, "price" := FloatType, "discounts" := StrType,
      "eco_fee" := FloatType, "vat_info" := OtherType, "total" := StrType, "withholding_tax" := BoolType,
      "stock" := BoolType, "notes" := StrType, "commission_percentage" := FloatType],
    map[
      "code" := VStr(""), "supplier_code" := VStr(""), "description" := VStr(""), "quantity" := VInt(0),
      "unit_measure" := VStr(""), "size" := VStr(""), "color" := VStr(""), "lot" := VStr(""),
      "expiry_date" := VStr("2999-12-31"), "serial" := VStr(""), "price" := VInt(0), "discounts" := VStr(""),
      "eco_fee" := VInt(0), "vat_info" := VNone, "total" := VStr(""), "withholding_tax" := VNone,
      "stock" := VNone, "notes" := VStr(""), "commission_percentage" := VInt(0)])

  predicate Registered(reg: Registry) {
    VatCodeXml.Registered(reg) && "Product" in reg && reg["Product"] == Product
  }

  /** The indices of the entries that are plain child tags (all but `vat_info`). */
  predicate IsScalar(j: int) {
    0 <= j < |ProductTable| && j != 13
  }

  /** The attribute of entry `j`; every one has a type hint and a class
      default. */
  function Attr(j: nat): (a: string)
    requires j < |ProductTable|
    ensures a == ProductTable[j].0 && a in Product.hints && a in Product.defaults
  {
    ProductTable[j].0
  }

  /** The position of each attribute in the table, -1 for any other name. */
  function KeyRank(k: string): int {
    if k == "code" then 0 else if k == "supplier_code" then 1 else if k == "description" then 2
    else if k == "quantity" then 3 else if k == "unit_measure" then 4 else if k == "size" then 5
    else if k == "color" then 6 else if k == "lot" then 7 else if k == "expiry_date" then 8
    else if k == "serial" then 9 else if k == "price" then 10 else if k == "discounts" then 11
    else if k == "eco_fee" then 12 else if k == "vat_info" then 13 else if k == "total" then 14
    else if k == "withholding_tax" then 15 else if k == "stock" then 16 else if k == "notes" then 17
    else if k == "commission_percentage" then 18 else -1
  }

  /** A table whose keys can be ranked by their positions has unique keys. */
  lemma RankedKeys(t: Table, rank: string -> int)
    requires forall j | 0 <= j < |t| :: rank(t[j].0) == j
    ensures UniqueKeys(t)
  {
  }

  lemma TableKeys()
    ensures UniqueKeys(ProductTable)
  {
    assert forall j | 0 <= j < |ProductTable| :: KeyRank(ProductTable[j].0) == j;
    RankedKeys(ProductTable, KeyRank);
  }

  lemma TablePaths()
    ensures forall j | IsScalar(j) :: ProductTable[j].1 == Path(RowTags[j]) && ChildTag(RowTags[j])
  {
  }

  lemma TableHints()
    ensures forall j | IsScalar(j) :: ProductTable[j].0 in Product.hints && ProductTable[j].0 in Product.defaults
  {
  }

  lemma TableContributes(reg: Registry)
    ensures forall j | 0 <= j < |ProductTable| :: Contribution(reg, ProductTable[j].1).Ok?
  {
  }

  lemma TableExpects(reg: Registry, x: string)
    ensures forall j | 0 <= j < |ProductTable| :: Expects(reg, ProductTable[j].1, x) <==> x == RowTags[j]
  {
  }

  /** A `Product` is tagged `Row`, and its expected children are exactly the
      nineteen row tags, `VatCode` included. */
  lemma RowTagsExpected(reg: Registry, x: string)
    requires Registered(reg)
    ensures TagOf(reg, Some("Product")) == Ok("Row")
    ensures Configured(reg, "Product")
    ensures x in ExpectedTags(reg, ProductTable).value <==> x in RowTags
  {
    TableContributes(reg);
    TableExpects(reg, x);
    ExpectedTagsOk(reg, ProductTable);
    ExpectedTagsMembers(reg, ProductTable, x);
    if x in RowTags {
      var k :| 0 <= k < |RowTags| && RowTags[k] == x;
      assert Expects(reg, ProductTable[k].1, x);
    }
  }

  /** The untracked report of a row lists exactly the children whose tag is
      not a row tag; a row made of row tags only reports nothing. */
  lemma RowUntracked(reg: Registry, e: Element)
    requires Registered(reg)
    ensures Configured(reg, "Product")
    ensures forall x :: x in Untracked(e.children, ExpectedTags(reg, ProductTable).value)
                    <==> x in ChildTags(e.children) && x !in RowTags
    ensures (forall c | c in e.children :: c.tag in RowTags) ==>
              Untracked(e.children, ExpectedTags(reg, ProductTable).value) == []
  {
    RowTagsExpected(reg, "");
    var expected := ExpectedTags(reg, ProductTable).value;
    forall x ensures x in Untracked(e.children, expected) <==> x in ChildTags(e.children) && x !in RowTags {
      RowTagsExpected(reg, x);
      UntrackedMembers(e.children, expected, x);
    }
    if forall c | c in e.children :: c.tag in RowTags {
      forall c | c in e.children ensures c.tag in expected {
        RowTagsExpected(reg, c.tag);
      }
      NothingUntracked(e.children, expected);
    }
  }

  /** The entries whose text may fail to convert: `quantity` and the three
      `float` amounts. */
  predicate IsNumeric(j: int) {
    j == 3 || j == 10 || j == 12 || j == 18
  }

  /** The type hint of each attribute, entry by entry. */
  const RowHints: seq<Scalar> := [
    StrType, StrType, StrType, IntType, StrType, StrType, StrType, StrType, StrType, StrType,
    FloatType, StrType, FloatType, OtherType, StrType, BoolType, BoolType, StrType, FloatType]

  lemma HintsAt()
    ensures forall j | 0 <= j < |ProductTable| ::
      ProductTable[j].0 in Product.hints && Product.hints[ProductTable[j].0] == RowHints[j]
  {
    assert forall j | 0 <= j < 10 ::
      ProductTable[j].0 in Product.hints && Product.hints[ProductTable[j].0] == RowHints[j];
  }

  lemma TableSafe(opts: Options)
    ensures forall j | IsScalar(j) && !IsNumeric(j) :: SafeEntry(opts, Product, ProductTable[j])
  {
    HintsAt();
  }

  lemma TableNumeric()
    ensures forall j | IsNumeric(j) :: ProductTable[j].1 == Path(RowTags[j]) && ChildTag(RowTags[j])
    ensures forall j | IsNumeric(j) :: ProductTable[j].0 in Product.hints
  {
  }

  /** `vat_info` skips when there is no `<VatCode>` child and otherwise
      assigns the decoded `VatCode`, which never fails. */
  lemma VatInfoEffect(reg: Registry, opts: Options, e: Element, warn: bool, vis: set<ClassName>)
    requires Registered(reg) && "Product" !in vis
    ensures var s := Step(reg, opts, "Product", e, warn, vis, "vat_info", FieldEntry(TaggedField("VatCode", "VatCode")));
      && (Find(e, "VatCode").None? ==> s == Stepped(Skip, []))
      && (Find(e, "VatCode").Some? ==>
            var d := Decode(reg, opts, "VatCode", Find(e, "VatCode").value, warn, {});
            d.result.Ok? && s == Stepped(Assign(VObj(d.result.value)), d.warnings))
  {
    SingleField(reg, opts, "Product", e, warn, vis, "vat_info", TaggedField("VatCode", "VatCode"));
    if Find(e, "VatCode").Some? {
      VatCodeXml.VatCodeReads(reg, opts, Find(e, "VatCode").value, warn, {});
    }
  }

  /** Which entry raises: only a numeric one, and only on text that does
      not convert. */
  lemma EntryRaises(reg: Registry, opts: Options, e: Element, warn: bool, vis: set<ClassName>, j: nat)
    requires Registered(reg) && "Product" !in vis && opts.convertTypes && j < |ProductTable|
    ensures EntryEffect(reg, opts, "Product", e, warn, vis, j).Raise? <==>
      IsNumeric(j) && !Converts(opts, "Product", Product, e, Attr(j), RowTags[j])
  {
    if IsNumeric(j) {
      NumericEntry(reg, opts, e, warn, vis, j);
    } else {
      OtherEntry(reg, opts, e, warn, vis, j);
    }
  }

  lemma NumericEntry(reg: Registry, opts: Options, e: Element, warn: bool, vis: set<ClassName>, j: nat)
    requires Registered(reg) && "Product" !in vis && opts.convertTypes && IsNumeric(j)
    ensures EntryEffect(reg, opts, "Product", e, warn, vis, j).Raise? <==>
      !Converts(opts, "Product", Product, e, Attr(j), RowTags[j])
  {
    TableNumeric();
    ChildEffect(opts, "Product", Product, e, Attr(j), RowTags[j]);
  }

  lemma OtherEntry(reg: Registry, opts: Options, e: Element, warn: bool, vis: set<ClassName>, j: nat)
    requires Registered(reg) && "Product" !in vis && opts.convertTypes
    requires j < |ProductTable| && !IsNumeric(j)
    ensures !EntryEffect(reg, opts, "Product", e, warn, vis, j).Raise?
  {
    if j == 13 {
      VatInfoFacts();
      VatInfoEffect(reg, opts, e, warn, vis);
    } else {
      TableSafe(opts);
      SafeEntryEffect(reg, opts, "Product", e, warn, vis, j);
    }
  }

  /** The four numeric children convert. */
  predicate NumbersConvert(opts: Options, e: Element) {
    && Converts(opts, "Product", Product, e, "quantity", "Qty")
    && Converts(opts, "Product", Product, e, "price", "Price")
    && Converts(opts, "Product", Product, e, "eco_fee", "EcoFee")
    && Converts(opts, "Product", Product, e, "commission_percentage", "CommissionPerc")
  }

  lemma NumbersByIndex(opts: Options, e: Element)
    ensures NumbersConvert(opts, e) <==>
      forall j | IsNumeric(j) :: Converts(opts, "Product", Product, e, Attr(j), RowTags[j])
  {
    assert ProductTable[3].0 == "quantity" && RowTags[3] == "Qty";
    assert ProductTable[10].0 == "price" && RowTags[10] == "Price";
    assert ProductTable[12].0 == "eco_fee" && RowTags[12] == "EcoFee";
    assert ProductTable[18].0 == "commission_percentage" && RowTags[18] == "CommissionPerc";
  }

  /** With conversion on, a row decodes exactly when its `Qty`, `Price`,
      `EcoFee` and `CommissionPerc` texts convert (a missing child or an
      empty one always does). */
  lemma ProductDecodes(reg: Registry, opts: Options, e: Element, warn: bool, vis: set<ClassName>)
    requires Registered(reg) && "Product" !in vis && opts.convertTypes
    ensures Configured(reg, "Product")
    ensures Decode(reg, opts, "Product", e, warn, vis).result.Ok? <==> NumbersConvert(opts, e)
  {
    RowTagsExpected(reg, "");
    DecodeOk(reg, opts, "Product", e, warn, vis);
    TableNumeric();
    forall j | 0 <= j < |ProductTable|
      ensures EntryEffect(reg, opts, "Product", e, warn, vis, j).Raise? <==>
        IsNumeric(j) && !Converts(opts, "Product", Product, e, Attr(j), RowTags[j])
    {
      EntryRaises(reg, opts, e, warn, vis, j);
    }
    NumbersByIndex(opts, e);
  }

  /** A child-tag entry of a decoded row, read through the class default. */
  lemma ScalarRead(reg: Registry, opts: Options, e: Element, warn: bool, vis: set<ClassName>, j: nat)
    requires Registered(reg) && "Product" !in vis && opts.convertTypes && IsScalar(j)
    requires Decode(reg, opts, "Product", e, warn, vis).result.Ok?
    ensures var attr := Attr(j);
      var c := Find(e, RowTags[j]);
      var o := Decode(reg, opts, "Product", e, warn, vis).result.value;
      && (c.None? ==> Get(Product, o, attr) == Some(Product.defaults[attr]))
      && (c.Some? ==>
            && Coerce(opts, "Product", attr, Product.hints[attr], c.value.text).Ok?
            && Get(Product, o, attr) == Some(Coerce(opts, "Product", attr, Product.hints[attr], c.value.text).value))
  {
    RowTagsExpected(reg, "");
    TableKeys();
    TablePaths();
    TableHints();
    DecodedScalar(reg, opts, "Product", e, warn, vis, j);
  }

  /** Every attribute whose child is missing keeps its class default: ""
      for the strings, `0` for `quantity` and the three amounts,
      "2999-12-31" for `expiry_date`, None for `vat_info` and the two flags. */
  lemma ProductDefaults(reg: Registry, opts: Options, e: Element, warn: bool, vis: set<ClassName>)
    requires Registered(reg) && "Product" !in vis && opts.convertTypes
    requires Decode(reg, opts, "Product", e, warn, vis).result.Ok?
    ensures forall j | 0 <= j < |ProductTable| && Find(e, RowTags[j]).None? ::
      Get(Product, Decode(reg, opts, "Product", e, warn, vis).result.value, Attr(j))
        == Some(Product.defaults[Attr(j)])
  {
    forall j | 0 <= j < |ProductTable| && Find(e, RowTags[j]).None?
      ensures Get(Product, Decode(reg, opts, "Product", e, warn, vis).result.value, Attr(j))
           == Some(Product.defaults[Attr(j)])
    {
      DefaultKept(reg, opts, e, warn, vis, j);
    }
  }

  lemma DefaultKept(reg: Registry, opts: Options, e: Element, warn: bool, vis: set<ClassName>, j: nat)
    requires Registered(reg) && "Product" !in vis && opts.convertTypes
    requires Decode(reg, opts, "Product", e, warn, vis).result.Ok?
    requires j < |ProductTable| && Find(e, RowTags[j]).None?
    ensures Get(Product, Decode(reg, opts, "Product", e, warn, vis).result.value, Attr(j))
         == Some(Product.defaults[Attr(j)])
  {
    if j == 13 {
      VatInfoFacts();
      VatInfoRead(reg, opts, e, warn, vis);
    } else {
      ScalarMissing(reg, opts, e, warn, vis, j);
    }
  }

  /** A scalar entry whose child is missing keeps its class default. */
  lemma ScalarMissing(reg: Registry, opts: Options, e: Element, warn: bool, vis: set<ClassName>, j: nat)
    requires Registered(reg) && "Product" !in vis && opts.convertTypes && IsScalar(j)
    requires Decode(reg, opts, "Product", e, warn, vis).result.Ok?
    requires Find(e, RowTags[j]).None?
    ensures Get(Product, Decode(reg, opts, "Product", e, warn, vis).result.value, Attr(j))
         == Some(Product.defaults[Attr(j)])
  {
    ScalarRead(reg, opts, e, warn, vis, j);
  }

  /** The row entry for `vat_info` and its class default. */
  lemma VatInfoFacts()
    ensures ProductTable[13] == ("vat_info", FieldEntry(TaggedField("VatCode", "VatCode"))) && RowTags[13] == "VatCode"
    ensures "vat_info" in Product.defaults && Product.defaults["vat_info"] == VNone
  {
  }

  /** `vat_info` is None without a `<VatCode>` child and otherwise the
      `VatCode` decoded from the first one. */
  lemma VatInfoRead(reg: Registry, opts: Options, e: Element, warn: bool, vis: set<ClassName>)
    requires Registered(reg) && "Product" !in vis
    requires Decode(reg, opts, "Product", e, warn, vis).result.Ok?
    ensures var o := Decode(reg, opts, "Product", e, warn, vis).result.value;
      && (Find(e, "VatCode").None? ==> Get(Product, o, "vat_info") == Some(VNone))
      && (Find(e, "VatCode").Some? ==>
            var d := Decode(reg, opts, "VatCode", Find(e, "VatCode").value, warn, {});
            d.result.Ok? && Get(Product, o, "vat_info") == Some(VObj(d.result.value)))
  {
    RowTagsExpected(reg, "");
    TableKeys();
    VatInfoFacts();
    VatInfoEffect(reg, opts, e, warn, vis);
    DecodeAttribute(reg, opts, "Product", e, warn, vis, 13);
  }

  /** The row entry for `quantity`, its hint and its class default. */
  lemma QuantityFacts()
    ensures ProductTable[3].0 == "quantity" && RowTags[3] == "Qty"
    ensures Product.hints["quantity"] == IntType && Product.defaults["quantity"] == VInt(0)
  {
  }

  /** `quantity` is `int`: 0 for a missing or empty `<Qty>`, else the
      parsed text. */
  lemma QuantityRead(reg: Registry, opts: Options, e: Element, warn: bool, vis: set<ClassName>)
    requires Registered(reg) && "Product" !in vis && opts.convertTypes
    requires Decode(reg, opts, "Product", e, warn, vis).result.Ok?
    ensures var o := Decode(reg, opts, "Product", e, warn, vis).result.value;
      var c := Find(e, "Qty");
      && (c.None? || c.value.text.None? ==> Get(Product, o, "quantity") == Some(VInt(0)))
      && (c.Some? && c.value.text.Some? ==>
            ParseInt(c.value.text.value).Some?
            && Get(Product, o, "quantity") == Some(VInt(ParseInt(c.value.text.value).value)))
  {
    ScalarRead(reg, opts, e, warn, vis, 3);
    QuantityFacts();
  }

  /** `<Qty>10</Qty>` gives the integer 10. */
  lemma QuantityTen(reg: Registry, opts: Options, e: Element, warn: bool, vis: set<ClassName>)
    requires Registered(reg) && "Product" !in vis && opts.convertTypes
    requires Decode(reg, opts, "Product", e, warn, vis).result.Ok?
    requires Find(e, "Qty").Some? && Find(e, "Qty").value.text == Some("10")
    ensures Get(Product, Decode(reg, opts, "Product", e, warn, vis).result.value, "quantity") == Some(VInt(10))
  {
    QuantityRead(reg, opts, e, warn, vis);
    ParseTen();
  }

  /** Non-integer `<Qty>` text ends the decode with the conversion error
      for `Product.quantity`: the three entries before it never raise. */
  lemma QuantityError(reg: Registry, opts: Options, e: Element, warn: bool, vis: set<ClassName>)
    requires Registered(reg) && "Product" !in vis && opts.convertTypes
    requires Find(e, "Qty").Some? && Find(e, "Qty").value.text.Some?
    requires ParseInt(Find(e, "Qty").value.text.value).None?
    ensures Decode(reg, opts, "Product", e, warn, vis).result
         == Err(TypeConversionError("Product", "quantity", Find(e, "Qty").value.text.value, "int"))
  {
    RowTagsExpected(reg, "");
    LeadingEntriesSafe(reg, opts, e, warn, vis);
    QuantityRaises(reg, opts, e, warn, vis);
    DecodeFirstRaise(reg, opts, "Product", e, warn, vis, 3,
      TypeConversionError("Product", "quantity", Find(e, "Qty").value.text.value, "int"));
  }

  /** `code`, `supplier_code` and `description` never raise. */
  lemma LeadingEntriesSafe(reg: Registry, opts: Options, e: Element, warn: bool, vis: set<ClassName>)
    requires Registered(reg) && "Product" !in vis && opts.convertTypes
    ensures forall j | 0 <= j < 3 :: !EntryEffect(reg, opts, "Product", e, warn, vis, j).Raise?
  {
    forall j | 0 <= j < 3 ensures !EntryEffect(reg, opts, "Product", e, warn, vis, j).Raise? {
      EntryRaises(reg, opts, e, warn, vis, j);
    }
  }

  /** The `quantity` entry on text that is not an integer. */
  lemma QuantityRaises(reg: Registry, opts: Options, e: Element, warn: bool, vis: set<ClassName>)
    requires Registered(reg) && "Product" !in vis && opts.convertTypes
    requires Find(e, "Qty").Some? && Find(e, "Qty").value.text.Some?
    requires ParseInt(Find(e, "Qty").value.text.value).None?
    ensures EntryEffect(reg, opts, "Product", e, warn, vis, 3)
         == Raise(TypeConversionError("Product", "quantity", Find(e, "Qty").value.text.value, "int"))
  {
    QuantityFacts();
    TableNumeric();
    ChildEffect(opts, "Product", Product, e, "quantity", "Qty");
  }

  /** The three `float` amounts and their class default. */
  lemma AmountFacts(j: nat)
    requires j == 10 || j == 12 || j == 18
    ensures Product.hints[Attr(j)] == FloatType && Product.defaults[Attr(j)] == VInt(0)
  {
  }

  /** `price`, `eco_fee` and `commission_percentage` are `float`: the class
      default `0` when the child is missing, 0.0 for an empty child, else
      the parsed text. */
  lemma AmountsRead(reg: Registry, opts: Options, e: Element, warn: bool, vis: set<ClassName>, j: nat)
    requires Registered(reg) && "Product" !in vis && opts.convertTypes
    requires j == 10 || j == 12 || j == 18
    requires Decode(reg, opts, "Product", e, warn, vis).result.Ok?
    ensures var o := Decode(reg, opts, "Product", e, warn, vis).result.value;
      var c := Find(e, RowTags[j]);
      && (c.None? ==> Get(Product, o, Attr(j)) == Some(VInt(0)))
      && (c.Some? && c.value.text.None? ==> Get(Product, o, Attr(j)) == Some(VFloat(0.0)))
      && (c.Some? && c.value.text.Some? ==>
            opts.parseFloat(c.value.text.value).Some?
            && Get(Product, o, Attr(j)) == Some(VFloat(opts.parseFloat(c.value.text.value).value)))
  {
    ScalarRead(reg, opts, e, warn, vis, j);
    AmountFacts(j);
  }

  /** The two `Optional[bool]` flags and their class default. */
  lemma FlagFacts(j: nat)
    requires j == 15 || j == 16
    ensures Product.hints[Attr(j)] == BoolType && Product.defaults[Attr(j)] == VNone
  {
  }

  /** `stock` and `withholding_tax` are `Optional[bool]`: None when the
      child is missing, else whether its text is "true" in any case, so an
      empty child and "false" both give False. */
  lemma FlagsRead(reg: Registry, opts: Options, e: Element, warn: bool, vis: set<ClassName>, j: nat)
    requires Registered(reg) && "Product" !in vis && opts.convertTypes
    requires j == 15 || j == 16
    requires Decode(reg, opts, "Product", e, warn, vis).result.Ok?
    ensures var o := Decode(reg, opts, "Product", e, warn, vis).result.value;
      var c := Find(e, RowTags[j]);
      && (c.None? ==> Get(Product, o, Attr(j)) == Some(VNone))
      && (c.Some? ==> Get(Product, o, Attr(j))
                      == Some(VBool(c.value.text.Some? && Lower(c.value.text.value) == "true")))
  {
    ScalarRead(reg, opts, e, warn, vis, j);
    FlagFacts(j);
  }

  /** `<Stock>false</Stock>` gives False, not the truthy text. */
  lemma FlagFalse(reg: Registry, opts: Options, e: Element, warn: bool, vis: set<ClassName>, j: nat)
    requires Registered(reg) && "Product" !in vis && opts.convertTypes
    requires j == 15 || j == 16
    requires Decode(reg, opts, "Product", e, warn, vis).result.Ok?
    requires Find(e, RowTags[j]).Some? && Find(e, RowTags[j]).value.text == Some("false")
    ensures Get(Product, Decode(reg, opts, "Product", e, warn, vis).result.value, Attr(j)) == Some(VBool(false))
  {
    FlagsRead(reg, opts, e, warn, vis, j);
    assert Lower("false") != "true" by {
      assert Lower("false")[0] == 'f';
    }
  }


  /** Every `str` attribute, `total` included, holds its child's text as it
      is ("" for an empty child) or its class default when the child is
      missing; so `<Total>46.2</Total>` stays the text "46.2". */
  lemma TextsRead(reg: Registry, opts: Options, e: Element, warn: bool, vis: set<ClassName>)
    requires Registered(reg) && "Product" !in vis && opts.convertTypes
    requires Decode(reg, opts, "Product", e, warn, vis).result.Ok?
    ensures forall j | IsScalar(j) && Product.hints[Attr(j)] == StrType ::
      Get(Product, Decode(reg, opts, "Product", e, warn, vis).result.value, Attr(j))
        == Some(StrChild(e, RowTags[j], Product.defaults[Attr(j)]))
  {
    forall j | IsScalar(j) && Product.hints[Attr(j)] == StrType
      ensures Get(Product, Decode(reg, opts, "Product", e, warn, vis).result.value, Attr(j))
           == Some(StrChild(e, RowTags[j], Product.defaults[Attr(j)]))
    {
      var c := Find(e, RowTags[j]);
      ScalarRead(reg, opts, e, warn, vis, j);
      if c.Some? {
        assert Coerce(opts, "Product", Attr(j), StrType, c.value.text) == Ok(VStr(c.value.text.GetOr("")));
      }
    }
  }
}
