/**
  The `Document` schema (document.py): a document with its rows and
  payment lines as lists, four scalar children, and four groups of
  children (delivery, transport, customer, notes) read from the document
  element itself through `FieldGroup`s.
 */
module DocumentXml {
  import opened Wrappers
  import opened Exceptions
  import opened Etree
  import opened PyText
  import opened Fields
  import opened Mapper
  import opened MapperFacts
  import opened EntryFacts
  import opened TagFacts
  import opened ReadFacts
  import ProductXml

  // ---------------------------------------------------------------------
  // Tables and classes

  const PaymentTable: Table := [
    ("advance", Path("Advance")),
    ("amount", Path("Amount")),
    ("date", Path("Date")),
    ("paid", Path("Paid"))
  ]

  /** `__xml_name__ = "Payment"`; two `bool` flags, a `float` amount and a
      `str` date, none with a class default. */
  const Payment: ClassDef := ClassDef(
    "Payment",
    Some(PaymentTable),
    map["advance" := BoolType, "amount" := FloatType, "date" := StrType, "paid" := BoolType],
    map[])

  const DeliveryTable: Table := [
    ("name", Path("DeliveryName")),
    ("address", Path("DeliveryAddress")),
    ("postcode", Path("DeliveryPostcode")),
    ("city", Path("DeliveryCity")),
    ("province", Path("DeliveryProvince")),
    ("country", Path("DeliveryCountry"))
  ]

  const DeliveryTags: seq<string> := [
    "DeliveryName", "DeliveryAddress", "DeliveryPostcode", "DeliveryCity", "DeliveryProvince", "DeliveryCountry"]

  /** `__xml_name__ = ""`, so the tag falls back to the class name; six
      `str` attributes without class defaults. */
  const DeliveryInfo: ClassDef := ClassDef(
    "",
    Some(DeliveryTable),
    map["name" := StrType, "address" := StrType, "postcode" := StrType, "city" := StrType,
        "province" := StrType, "country" := StrType],
    map[])

  const TransportTable: Table := [
    ("carrier", Path("Carrier")),
    ("reason", Path("TransportReason")),
    ("goods_appearance", Path("GoodsAppearance")),
    ("pieces", Path("NumOfPieces")),
    ("date_time", Path("TransportDateTime")),
    ("shipment_terms", Path("ShipmentTerms")),
    ("weight", Path("TransportedWeight")),
    ("tracking_number", Path("TrackingNumber"))
  ]

  const TransportTags: seq<string> := [
    "Carrier", "TransportReason", "GoodsAppearance", "NumOfPieces", "TransportDateTime", "ShipmentTerms",
    "TransportedWeight", "TrackingNumber"]

  /** The `int` number of pieces and seven `str` attributes, none with a
      class default. */
  const TransportInfo: ClassDef := ClassDef(
    "",
    Some(TransportTable),
    map["carrier" := StrType, "reason" := StrType, "goods_appearance" := StrType, "pieces" := IntType,
        "date_time" := StrType, "shipment_terms" := StrType, "weight" := StrType, "tracking_number" := StrType],
    map[])

  const CustomerTable: Table := [
    ("code", Path("CustomerCode")),
    ("web_login", Path("CustomerWebLogin")),
    ("name", Path("CustomerName")),
    ("address", Path("CustomerAddress")),
    ("postcode", Path("CustomerPostcode")),
    ("city", Path("CustomerCity")),
    ("province", Path("CustomerProvince")),
    ("country", Path("CustomerCountry")),
    ("fiscal_code", Path("CustomerFiscalCode")),
    ("vat_code", Path("CustomerVatCode")),
    ("e_invoice_dest_code", Path("CustomerEInvoiceDestCode")),
    ("telephone", Path("CustomerTel")),
    ("mobile_phone", Path("CustomerCellPhone")),
    ("fax", Path("CustomerFax")),
    ("email", Path("CustomerEmail")),
    ("pec", Path("CustomerPec")),
    ("reference", Path("CustomerReference"))
  ]

  const CustomerTags: seq<string> := [
    "CustomerCode", "CustomerWebLogin", "CustomerName", "CustomerAddress", "CustomerPostcode", "CustomerCity",
    "CustomerProvince", "CustomerCountry", "CustomerFiscalCode", "CustomerVatCode", "CustomerEInvoiceDestCode",
    "CustomerTel", "CustomerCellPhone", "CustomerFax", "CustomerEmail", "CustomerPec", "CustomerReference"]

  /** Seventeen `str` attributes without class defaults. */
  const CustomerInfo: ClassDef := ClassDef(
    "",
    Some(CustomerTable),
    map["code" := StrType, "web_login" := StrType, "name" := StrType, "address" := StrType,
        "postcode" := StrType, "city" := StrType, "province" := StrType, "country" := StrType,
        "fiscal_code" := StrType, "vat_code" := StrType, "e_invoice_dest_code" := StrType,
        "telephone" := StrType, "mobile_phone" := StrType, "fax" := StrType, "email" := StrType,
        "pec" := StrType, "reference" := StrType],
    map[])

  const NotesTable: Table := [
    ("internal_comment", Path("InternalComment")),
    ("custom1", Path("CustomField1")),
    ("custom2", Path("CustomField2")),
    ("custom3", Path("CustomField3")),
    ("custom4", Path("CustomField4")),
    ("foot_note", Path("FootNotes"))
  ]

  const NotesTags: seq<string> := [
    "InternalComment", "CustomField1", "CustomField2", "CustomField3", "CustomField4", "FootNotes"]

  /** Six `str` attributes, each with the class default "". */
  const DocumentNotes: ClassDef := ClassDef(
    "",
    Some(NotesTable),
    map["internal_comment" := StrType, "custom1" := StrType, "custom2" := StrType, "custom3" := StrType,
        "custom4" := StrType, "foot_note" := StrType],
    map["internal_comment" := VStr(""), "custom1" := VStr(""), "custom2" := VStr(""), "custom3" := VStr(""),
        "custom4" := VStr(""), "foot_note" := VStr("")])

  const DocumentTable: Table := [
    ("date", Path("Date")),
    ("number", Path("Number")),
    ("rows", FieldEntry(ListField("Rows", "Product"))),
    ("payments", FieldEntry(ListField("Payments", "Payment"))),
    ("numbering", Path("Numbering")),
    ("type", Path("DocumentType")),
    ("delivery", GroupEntry(Some("DeliveryInfo"))),
    ("transport", GroupEntry(Some("TransportInfo"))),
    ("customer", GroupEntry(Some("CustomerInfo"))),
    ("notes", GroupEntry(Some("DocumentNotes")))
  ]

  /** No `__xml_name__`, so the tag is `Document`. `numbering` is
      `Optional[str]`; `type` is an optional `Literal` of letters, which no
      conversion rule names, so it keeps its text; the lists and the groups
      are never converted. `numbering`, `type` and the four groups default
      to None, `date`, `number` and the two lists have no class default. */
  const Document: ClassDef := ClassDef(
    "",
    Some(DocumentTable),
    map["date" := StrType, "number" := StrType, "rows" := OtherType, "payments" := OtherType,
        "numbering" := StrType, "type" := OtherType, "delivery" := OtherType, "transport" := OtherType,
        "customer" := OtherType, "notes" := OtherType],
    map["numbering" := VNone, "type" := VNone, "delivery" := VNone, "transport" := VNone,
        "customer" := VNone, "notes" := VNone])

  /** `Document` is registered under its name. */
  predicate DocumentIn(reg: Registry) {
    "Document" in reg && reg["Document"] == Document
  }

  /** The classes a document reads through `FieldGroup`s. */
  const Groups: set<ClassName> := {"DeliveryInfo", "TransportInfo", "CustomerInfo", "DocumentNotes"}

  /** Each class registered under its own name. */
  predicate PaymentIn(reg: Registry) {
    "Payment" in reg && reg["Payment"] == Payment
  }

  predicate DeliveryIn(reg: Registry) {
    "DeliveryInfo" in reg && reg["DeliveryInfo"] == DeliveryInfo
  }

  predicate TransportIn(reg: Registry) {
    "TransportInfo" in reg && reg["TransportInfo"] == TransportInfo
  }

  predicate CustomerIn(reg: Registry) {
    "CustomerInfo" in reg && reg["CustomerInfo"] == CustomerInfo
  }

  predicate NotesIn(reg: Registry) {
    "DocumentNotes" in reg && reg["DocumentNotes"] == DocumentNotes
  }

  /** Everything a document refers to, registered under its name. */
  predicate Registered(reg: Registry) {
    && ProductXml.Registered(reg)
    && PaymentIn(reg) && DeliveryIn(reg) && TransportIn(reg) && CustomerIn(reg) && NotesIn(reg)
    && DocumentIn(reg)
  }

  // ---------------------------------------------------------------------
  // Payment

  lemma PaymentKeys()
    ensures UniqueKeys(PaymentTable)
  {
  }

  lemma PaymentShape()
    ensures forall j | 0 <= j < |PaymentTable| ::
      PaymentTable[j].1.Path? && ChildTag(PaymentTable[j].1.path) && PaymentTable[j].0 in Payment.hints
  {
  }

  lemma PaymentSafe(opts: Options)
    ensures forall j | 0 <= j < |PaymentTable| && j != 1 :: SafeEntry(opts, Payment, PaymentTable[j])
  {
  }

  /** With conversion on, a payment decodes exactly when its `Amount`
      text, if the child is there, parses as a float. */
  lemma PaymentDecodes(reg: Registry, opts: Options, e: Element, warn: bool, vis: set<ClassName>)
    requires PaymentIn(reg) && "Payment" !in vis && opts.convertTypes
    ensures Configured(reg, "Payment")
    ensures Decode(reg, opts, "Payment", e, warn, vis).result.Ok?
        <==> Converts(opts, "Payment", Payment, e, "amount", "Amount")
  {
    PaymentShape();
    PathsConfigured(reg, "Payment");
    DecodeOk(reg, opts, "Payment", e, warn, vis);
    PaymentSafe(opts);
    forall j | 0 <= j < |PaymentTable| && j != 1
      ensures !EntryEffect(reg, opts, "Payment", e, warn, vis, j).Raise?
    {
      SafeEntryEffect(reg, opts, "Payment", e, warn, vis, j);
    }
    ChildEffect(opts, "Payment", Payment, e, "amount", "Amount");
    assert EntryEffect(reg, opts, "Payment", e, warn, vis, 1) == PathEffect(opts, "Payment", Payment, e, "amount", "Amount");
  }

  /** `advance` and `paid` are only set when their child exists, so a
      payment without `<Paid>` has no `paid` attribute at all; `date` is the
      `<Date>` text. */
  lemma PaymentFields(reg: Registry, opts: Options, e: Element, warn: bool, vis: set<ClassName>)
    requires PaymentIn(reg) && "Payment" !in vis && opts.convertTypes
    requires Decode(reg, opts, "Payment", e, warn, vis).result.Ok?
    ensures var o := Decode(reg, opts, "Payment", e, warn, vis).result.value;
      && Get(Payment, o, "advance") == FlagSet(e, "Advance")
      && Get(Payment, o, "paid") == FlagSet(e, "Paid")
      && Get(Payment, o, "date") == StrSet(e, "Date")
  {
    PaymentKeys();
    PaymentShape();
    PathsConfigured(reg, "Payment");
    DecodedFlag(reg, opts, "Payment", e, warn, vis, 0);
    DecodedStr(reg, opts, "Payment", e, warn, vis, 2);
    DecodedFlag(reg, opts, "Payment", e, warn, vis, 3);
  }

  /** `amount` is a `float`: unset without `<Amount>`, 0.0 for an empty
      one, else the parsed text. */
  lemma PaymentAmount(reg: Registry, opts: Options, e: Element, warn: bool, vis: set<ClassName>)
    requires PaymentIn(reg) && "Payment" !in vis && opts.convertTypes
    requires Decode(reg, opts, "Payment", e, warn, vis).result.Ok?
    ensures var o := Decode(reg, opts, "Payment", e, warn, vis).result.value;
      var c := Find(e, "Amount");
      && (c.None? ==> Get(Payment, o, "amount").None?)
      && (c.Some? && c.value.text.None? ==> Get(Payment, o, "amount") == Some(VFloat(0.0)))
      && (c.Some? && c.value.text.Some? ==>
            opts.parseFloat(c.value.text.value).Some?
            && Get(Payment, o, "amount") == Some(VFloat(opts.parseFloat(c.value.text.value).value)))
  {
    PaymentKeys();
    PaymentShape();
    PathsConfigured(reg, "Payment");
    DecodedChild(reg, opts, "Payment", e, warn, vis, 1);
  }

  /** `<Paid>true</Paid>` gives True. */
  lemma PaidTrue(reg: Registry, opts: Options, e: Element, warn: bool, vis: set<ClassName>)
    requires PaymentIn(reg) && "Payment" !in vis && opts.convertTypes
    requires Decode(reg, opts, "Payment", e, warn, vis).result.Ok?
    requires Find(e, "Paid").Some? && Find(e, "Paid").value.text == Some("true")
    ensures Get(Payment, Decode(reg, opts, "Payment", e, warn, vis).result.value, "paid") == Some(VBool(true))
  {
    PaymentFields(reg, opts, e, warn, vis);
    LowerExamples();
  }

  // ---------------------------------------------------------------------
  // TransportInfo

  lemma TransportKeys()
    ensures UniqueKeys(TransportTable)
  {
  }

  lemma TransportShape()
    ensures forall j | 0 <= j < |TransportTable| ::
      TransportTable[j].1 == Path(TransportTags[j]) && ChildTag(TransportTags[j]) && TransportTable[j].0 in TransportInfo.hints
    ensures forall j | 0 <= j < |TransportTable| && j != 3 :: StrChildEntry(TransportInfo, TransportTable[j])
  {
  }

  lemma PiecesFacts()
    ensures TransportTable[3] == ("pieces", Path("NumOfPieces")) && TransportInfo.hints["pieces"] == IntType
  {
  }

  /** The seven `str` entries never raise. */
  lemma TransportTextsSafe(reg: Registry, opts: Options, e: Element, warn: bool, vis: set<ClassName>)
    requires TransportIn(reg) && "TransportInfo" !in vis && opts.convertTypes
    ensures forall j | 0 <= j < |TransportTable| && j != 3 ::
      !EntryEffect(reg, opts, "TransportInfo", e, warn, vis, j).Raise?
  {
    TransportShape();
    forall j | 0 <= j < |TransportTable| && j != 3
      ensures !EntryEffect(reg, opts, "TransportInfo", e, warn, vis, j).Raise?
    {
      SafeEntryEffect(reg, opts, "TransportInfo", e, warn, vis, j);
    }
  }

  /** The `pieces` entry converts `<NumOfPieces>` to an integer. */
  lemma PiecesEffect(reg: Registry, opts: Options, e: Element, warn: bool, vis: set<ClassName>)
    requires TransportIn(reg) && "TransportInfo" !in vis && opts.convertTypes
    ensures EntryEffect(reg, opts, "TransportInfo", e, warn, vis, 3) ==
      if Find(e, "NumOfPieces").None? then Skip
      else
        match Coerce(opts, "TransportInfo", "pieces", IntType, Find(e, "NumOfPieces").value.text)
        case Ok(v) => Assign(v)
        case Err(x) => Raise(x)
  {
    PiecesFacts();
    TransportShape();
    ChildEffect(opts, "TransportInfo", TransportInfo, e, "pieces", "NumOfPieces");
  }

  /** With conversion on, the transport group decodes exactly when its
      `NumOfPieces` text, if the child is there, is an integer. */
  lemma TransportDecodes(reg: Registry, opts: Options, e: Element, warn: bool, vis: set<ClassName>)
    requires TransportIn(reg) && "TransportInfo" !in vis && opts.convertTypes
    ensures Configured(reg, "TransportInfo")
    ensures Decode(reg, opts, "TransportInfo", e, warn, vis).result.Ok?
        <==> Converts(opts, "TransportInfo", TransportInfo, e, "pieces", "NumOfPieces")
  {
    TransportShape();
    PathsConfigured(reg, "TransportInfo");
    DecodeOk(reg, opts, "TransportInfo", e, warn, vis);
    TransportTextsSafe(reg, opts, e, warn, vis);
    PiecesFacts();
    PiecesEffect(reg, opts, e, warn, vis);
    if Converts(opts, "TransportInfo", TransportInfo, e, "pieces", "NumOfPieces") {
      forall j | 0 <= j < |TransportTable| ensures !EntryEffect(reg, opts, "TransportInfo", e, warn, vis, j).Raise? {
        if j == 3 {
          assert !EntryEffect(reg, opts, "TransportInfo", e, warn, vis, 3).Raise?;
        }
      }
    } else {
      assert EntryEffect(reg, opts, "TransportInfo", e, warn, vis, 3).Raise?;
    }
  }

  /** A `<NumOfPieces>` that is not an integer makes the `pieces` entry
      raise, after three entries that do not. */
  lemma PiecesRaise(reg: Registry, opts: Options, e: Element, warn: bool, vis: set<ClassName>)
    requires TransportIn(reg) && "TransportInfo" !in vis && opts.convertTypes
    requires Find(e, "NumOfPieces").Some? && Find(e, "NumOfPieces").value.text.Some?
    requires ParseInt(Find(e, "NumOfPieces").value.text.value).None?
    ensures EntryEffect(reg, opts, "TransportInfo", e, warn, vis, 3)
         == Raise(TypeConversionError("TransportInfo", "pieces", Find(e, "NumOfPieces").value.text.value, "int"))
    ensures forall j | 0 <= j < 3 :: !EntryEffect(reg, opts, "TransportInfo", e, warn, vis, j).Raise?
  {
    var text := Find(e, "NumOfPieces").value.text.value;
    TransportTextsSafe(reg, opts, e, warn, vis);
    PiecesEffect(reg, opts, e, warn, vis);
    assert Coerce(opts, "TransportInfo", "pieces", IntType, Some(text))
        == Err(TypeConversionError("TransportInfo", "pieces", text, "int"));
  }

  /** A `<NumOfPieces>` that is not an integer ends the decode with the
      conversion error for `TransportInfo.pieces`. */
  lemma PiecesError(reg: Registry, opts: Options, e: Element, warn: bool, vis: set<ClassName>)
    requires TransportIn(reg) && "TransportInfo" !in vis && opts.convertTypes
    requires Find(e, "NumOfPieces").Some? && Find(e, "NumOfPieces").value.text.Some?
    requires ParseInt(Find(e, "NumOfPieces").value.text.value).None?
    ensures Decode(reg, opts, "TransportInfo", e, warn, vis).result
         == Err(TypeConversionError("TransportInfo", "pieces", Find(e, "NumOfPieces").value.text.value, "int"))
  {
    TransportShape();
    PathsConfigured(reg, "TransportInfo");
    PiecesRaise(reg, opts, e, warn, vis);
    DecodeFirstRaise(reg, opts, "TransportInfo", e, warn, vis, 3,
      TypeConversionError("TransportInfo", "pieces", Find(e, "NumOfPieces").value.text.value, "int"));
  }

  /** Every transport attribute but `pieces` is its child's text, and
      unset when the child is missing. */
  lemma TransportTexts(reg: Registry, opts: Options, e: Element, warn: bool, vis: set<ClassName>)
    requires TransportIn(reg) && "TransportInfo" !in vis && opts.convertTypes
    requires Decode(reg, opts, "TransportInfo", e, warn, vis).result.Ok?
    ensures forall j | 0 <= j < |TransportTable| && j != 3 ::
      Get(TransportInfo, Decode(reg, opts, "TransportInfo", e, warn, vis).result.value, TransportTable[j].0)
        == StrSet(e, TransportTags[j])
  {
    TransportKeys();
    TransportShape();
    PathsConfigured(reg, "TransportInfo");
    forall j | 0 <= j < |TransportTable| && j != 3
      ensures Get(TransportInfo, Decode(reg, opts, "TransportInfo", e, warn, vis).result.value, TransportTable[j].0)
           == StrSet(e, TransportTags[j])
    {
      DecodedStr(reg, opts, "TransportInfo", e, warn, vis, j);
    }
  }

  /** `pieces` is unset without `<NumOfPieces>`, 0 for an empty one, else
      the parsed integer. */
  lemma TransportPieces(reg: Registry, opts: Options, e: Element, warn: bool, vis: set<ClassName>)
    requires TransportIn(reg) && "TransportInfo" !in vis && opts.convertTypes
    requires Decode(reg, opts, "TransportInfo", e, warn, vis).result.Ok?
    ensures var o := Decode(reg, opts, "TransportInfo", e, warn, vis).result.value;
      var c := Find(e, "NumOfPieces");
      && (c.None? ==> Get(TransportInfo, o, "pieces").None?)
      && (c.Some? && c.value.text.None? ==> Get(TransportInfo, o, "pieces") == Some(VInt(0)))
      && (c.Some? && c.value.text.Some? ==>
            ParseInt(c.value.text.value).Some?
            && Get(TransportInfo, o, "pieces") == Some(VInt(ParseInt(c.value.text.value).value)))
  {
    TransportKeys();
    TransportShape();
    PiecesFacts();
    PathsConfigured(reg, "TransportInfo");
    DecodedChild(reg, opts, "TransportInfo", e, warn, vis, 3);
  }

  // ---------------------------------------------------------------------
  // DeliveryInfo, CustomerInfo, DocumentNotes: `str` children only

  lemma DeliveryKeys()
    ensures UniqueKeys(DeliveryTable)
  {
  }

  lemma DeliveryShape()
    ensures forall j | 0 <= j < |DeliveryTable| ::
      DeliveryTable[j].1 == Path(DeliveryTags[j]) && StrChildEntry(DeliveryInfo, DeliveryTable[j])
  {
  }

  /** The delivery group always decodes; each attribute is its child's
      text and stays unset when the child is missing. Without an
      `__xml_name__` its tag is the class name. */
  lemma DeliveryReads(reg: Registry, opts: Options, e: Element, warn: bool, vis: set<ClassName>)
    requires DeliveryIn(reg) && "DeliveryInfo" !in vis && opts.convertTypes
    ensures TagOf(reg, Some("DeliveryInfo")) == Ok("DeliveryInfo")
    ensures Decode(reg, opts, "DeliveryInfo", e, warn, vis).result.Ok?
    ensures forall j | 0 <= j < |DeliveryTable| ::
      Get(DeliveryInfo, Decode(reg, opts, "DeliveryInfo", e, warn, vis).result.value, DeliveryTable[j].0)
        == StrSet(e, DeliveryTags[j])
  {
    DeliveryKeys();
    DeliveryShape();
    StrTableReads(reg, opts, "DeliveryInfo", e, warn, vis);
  }

  lemma CustomerKeysHead()
    ensures forall i, j | 0 <= i < j < |CustomerTable| && i < 8 :: CustomerTable[i].0 != CustomerTable[j].0
  {
  }

  lemma CustomerKeysTail()
    ensures forall i, j | 8 <= i < j < |CustomerTable| :: CustomerTable[i].0 != CustomerTable[j].0
  {
  }

  lemma CustomerKeys()
    ensures UniqueKeys(CustomerTable)
  {
    CustomerKeysHead();
    CustomerKeysTail();
  }

  lemma CustomerPaths()
    ensures forall j | 0 <= j < |CustomerTable| :: CustomerTable[j].1 == Path(CustomerTags[j]) && ChildTag(CustomerTags[j])
  {
  }

  lemma CustomerHints()
    ensures forall j | 0 <= j < |CustomerTable| ::
      CustomerTable[j].0 in CustomerInfo.hints && CustomerInfo.hints[CustomerTable[j].0] == StrType
  {
  }

  lemma CustomerShape()
    ensures forall j | 0 <= j < |CustomerTable| ::
      CustomerTable[j].1 == Path(CustomerTags[j]) && StrChildEntry(CustomerInfo, CustomerTable[j])
  {
    CustomerPaths();
    CustomerHints();
  }

  /** The customer group always decodes; each attribute is its child's
      text and stays unset when the child is missing. */
  lemma CustomerReads(reg: Registry, opts: Options, e: Element, warn: bool, vis: set<ClassName>)
    requires CustomerIn(reg) && "CustomerInfo" !in vis && opts.convertTypes
    ensures Decode(reg, opts, "CustomerInfo", e, warn, vis).result.Ok?
    ensures forall j | 0 <= j < |CustomerTable| ::
      Get(CustomerInfo, Decode(reg, opts, "CustomerInfo", e, warn, vis).result.value, CustomerTable[j].0)
        == StrSet(e, CustomerTags[j])
  {
    CustomerKeys();
    CustomerShape();
    StrTableReads(reg, opts, "CustomerInfo", e, warn, vis);
  }

  lemma NotesKeys()
    ensures UniqueKeys(NotesTable)
  {
  }

  lemma NotesShape()
    ensures forall j | 0 <= j < |NotesTable| ::
      && NotesTable[j].1 == Path(NotesTags[j]) && StrChildEntry(DocumentNotes, NotesTable[j])
      && NotesTable[j].0 in DocumentNotes.defaults && DocumentNotes.defaults[NotesTable[j].0] == VStr("")
  {
  }

  /** The notes group always decodes, and each note reads "" unless its
      child has text. */
  lemma NotesReads(reg: Registry, opts: Options, e: Element, warn: bool, vis: set<ClassName>)
    requires NotesIn(reg) && "DocumentNotes" !in vis && opts.convertTypes
    ensures Decode(reg, opts, "DocumentNotes", e, warn, vis).result.Ok?
    ensures forall j | 0 <= j < |NotesTable| ::
      Get(DocumentNotes, Decode(reg, opts, "DocumentNotes", e, warn, vis).result.value, NotesTable[j].0)
        == Some(StrChild(e, NotesTags[j], VStr("")))
  {
    NotesKeys();
    NotesShape();
    StrTableReads(reg, opts, "DocumentNotes", e, warn, vis);
  }

  // ---------------------------------------------------------------------
  // Document

  /** The document's own child tags, entry by entry for the first six. */
  const OwnTags: seq<string> := ["Date", "Number", "Rows", "Payments", "Numbering", "DocumentType"]

  /** Every child tag a document expects: its own, then the children of the
      four groups, which are read from the document element itself. */
  const DocumentTags: seq<string> := OwnTags + DeliveryTags + TransportTags + CustomerTags + NotesTags

  lemma DocumentKeys()
    ensures UniqueKeys(DocumentTable)
  {
  }

  lemma ListFacts()
    ensures DocumentTable[2] == ("rows", FieldEntry(ListField("Rows", "Product")))
    ensures DocumentTable[3] == ("payments", FieldEntry(ListField("Payments", "Payment")))
  {
  }

  lemma GroupFacts()
    ensures DocumentTable[6] == ("delivery", GroupEntry(Some("DeliveryInfo")))
    ensures DocumentTable[7] == ("transport", GroupEntry(Some("TransportInfo")))
    ensures DocumentTable[8] == ("customer", GroupEntry(Some("CustomerInfo")))
    ensures DocumentTable[9] == ("notes", GroupEntry(Some("DocumentNotes")))
  {
  }

  lemma DocumentContributes(reg: Registry)
    requires Registered(reg)
    ensures forall j | 0 <= j < |DocumentTable| :: Contribution(reg, DocumentTable[j].1).Ok?
  {
  }

  lemma OwnExpects(reg: Registry, x: string)
    ensures forall j | 0 <= j < |OwnTags| :: Expects(reg, DocumentTable[j].1, x) <==> x == OwnTags[j]
  {
  }

  /** A group entry expects exactly the child tags of its group's table. */
  lemma GroupExpects(reg: Registry, x: string)
    requires Registered(reg)
    ensures Expects(reg, DocumentTable[6].1, x) <==> x in DeliveryTags
    ensures Expects(reg, DocumentTable[7].1, x) <==> x in TransportTags
    ensures Expects(reg, DocumentTable[8].1, x) <==> x in CustomerTags
    ensures Expects(reg, DocumentTable[9].1, x) <==> x in NotesTags
  {
    GroupFacts();
    DeliveryShape();
    TableTagsIn(DeliveryTable, DeliveryTags, x);
    TransportShape();
    TableTagsIn(TransportTable, TransportTags, x);
    CustomerShape();
    TableTagsIn(CustomerTable, CustomerTags, x);
    NotesShape();
    TableTagsIn(NotesTable, NotesTags, x);
  }

  /** A `Document` is tagged `Document` and every entry of its table
      contributes tags. */
  lemma DocumentConfigured(reg: Registry)
    requires Registered(reg)
    ensures TagOf(reg, Some("Document")) == Ok("Document")
    ensures Configured(reg, "Document")
  {
    DocumentContributes(reg);
    ExpectedTagsOk(reg, DocumentTable);
  }

  /** Whether `x` is one of the document's or its groups' child tags. */
  predicate IsDocumentTag(x: string) {
    x in OwnTags || x in DeliveryTags || x in TransportTags || x in CustomerTags || x in NotesTags
  }

  lemma DocumentTagsMembers(x: string)
    ensures x in DocumentTags <==> IsDocumentTag(x)
  {
  }

  /** Some entry expects `x` exactly when `x` is a document or group tag. */
  lemma DocumentExpects(reg: Registry, x: string)
    requires Registered(reg)
    ensures (exists j | 0 <= j < |DocumentTable| :: Expects(reg, DocumentTable[j].1, x)) <==> IsDocumentTag(x)
  {
    OwnExpects(reg, x);
    GroupExpects(reg, x);
    if x in OwnTags {
      var k :| 0 <= k < |OwnTags| && OwnTags[k] == x;
      assert Expects(reg, DocumentTable[k].1, x);
    } else if x in DeliveryTags {
      assert Expects(reg, DocumentTable[6].1, x);
    } else if x in TransportTags {
      assert Expects(reg, DocumentTable[7].1, x);
    } else if x in CustomerTags {
      assert Expects(reg, DocumentTable[8].1, x);
    } else if x in NotesTags {
      assert Expects(reg, DocumentTable[9].1, x);
    }
  }

  /** The children a document expects are its own six and every child of
      its four groups. */
  lemma DocumentTagsExpected(reg: Registry, x: string)
    requires Registered(reg)
    ensures Configured(reg, "Document")
    ensures x in ExpectedTags(reg, DocumentTable).value <==> x in DocumentTags
  {
    DocumentConfigured(reg);
    ExpectedTagsMembers(reg, DocumentTable, x);
    DocumentExpects(reg, x);
    DocumentTagsMembers(x);
  }

  /** The children reported as untracked are those whose tag is none of
      the document's or its groups' tags. */
  lemma DocumentUntracked(reg: Registry, e: Element)
    requires Registered(reg)
    ensures Configured(reg, "Document")
    ensures forall x :: x in Untracked(e.children, ExpectedTags(reg, DocumentTable).value)
                    <==> x in ChildTags(e.children) && x !in DocumentTags
  {
    DocumentConfigured(reg);
    var expected := ExpectedTags(reg, DocumentTable).value;
    forall x ensures x in Untracked(e.children, expected) <==> x in ChildTags(e.children) && x !in DocumentTags {
      DocumentTagsExpected(reg, x);
      UntrackedMembers(e.children, expected, x);
    }
  }

  lemma WarehouseUnknown()
    ensures "Warehouse" !in DocumentTags
  {
    DocumentTagsMembers("Warehouse");
  }

  /** A `<Warehouse>` child is not part of the schema, so it is reported. */
  lemma WarehouseUntracked(reg: Registry, e: Element)
    requires Registered(reg)
    requires "Warehouse" in ChildTags(e.children)
    ensures Configured(reg, "Document")
    ensures "Warehouse" in Untracked(e.children, ExpectedTags(reg, DocumentTable).value)
  {
    DocumentUntracked(reg, e);
    WarehouseUnknown();
  }

  /** Every row's numbers convert. */
  predicate RowsConvert(opts: Options, e: Element) {
    var rows := FindPath(e, "Rows", "Row");
    forall m | 0 <= m < |rows| :: ProductXml.NumbersConvert(opts, rows[m])
  }

  /** Every payment's amount converts. */
  predicate PaymentsConvert(opts: Options, e: Element) {
    var ps := FindPath(e, "Payments", "Payment");
    forall m | 0 <= m < |ps| :: Converts(opts, "Payment", Payment, ps[m], "amount", "Amount")
  }

  lemma OwnPaths()
    ensures forall j | 0 <= j < |OwnTags| && j != 2 && j != 3 ::
      DocumentTable[j].1 == Path(OwnTags[j]) && ChildTag(OwnTags[j])
  {
  }

  lemma OwnScalarSafe(opts: Options, j: nat)
    requires j < |OwnTags| && j != 2 && j != 3
    ensures SafeEntry(opts, Document, DocumentTable[j])
  {
  }

  /** The four scalar entries never raise. */
  lemma DocumentTextsSafe(reg: Registry, opts: Options, e: Element, warn: bool, vis: set<ClassName>)
    requires DocumentIn(reg) && "Document" !in vis
    ensures forall j | 0 <= j < |OwnTags| && j != 2 && j != 3 ::
      !EntryEffect(reg, opts, "Document", e, warn, vis, j).Raise?
  {
    forall j | 0 <= j < |OwnTags| && j != 2 && j != 3
      ensures !EntryEffect(reg, opts, "Document", e, warn, vis, j).Raise?
    {
      OwnScalarSafe(opts, j);
      SafeEntryEffect(reg, opts, "Document", e, warn, vis, j);
    }
  }

  /** The `rows` entry raises exactly when some `Rows/Row` fails to decode. */
  lemma RowsRaise(reg: Registry, opts: Options, e: Element, warn: bool, vis: set<ClassName>)
    requires ProductXml.Registered(reg) && DocumentIn(reg) && "Document" !in vis && opts.convertTypes
    ensures EntryEffect(reg, opts, "Document", e, warn, vis, 2).Raise? <==> !RowsConvert(opts, e)
  {
    ListFacts();
    ProductXml.RowTagsExpected(reg, "");
    ListEntryRaises(reg, opts, "Document", e, warn, vis, 2, "Rows", "Product");
    var rows := FindPath(e, "Rows", "Row");
    forall m | 0 <= m < |rows|
      ensures Decode(reg, opts, "Product", rows[m], warn, {}).result.Ok? <==> ProductXml.NumbersConvert(opts, rows[m])
    {
      ProductXml.ProductDecodes(reg, opts, rows[m], warn, {});
    }
  }

  /** The `payments` entry raises exactly when some `Payments/Payment` fails
      to decode. */
  lemma PaymentsRaise(reg: Registry, opts: Options, e: Element, warn: bool, vis: set<ClassName>)
    requires PaymentIn(reg) && DocumentIn(reg) && "Document" !in vis && opts.convertTypes
    ensures EntryEffect(reg, opts, "Document", e, warn, vis, 3).Raise? <==> !PaymentsConvert(opts, e)
  {
    ListFacts();
    assert XmlTag("Payment", reg["Payment"]) == "Payment";
    ListEntryRaises(reg, opts, "Document", e, warn, vis, 3, "Payments", "Payment");
    var ps := FindPath(e, "Payments", "Payment");
    forall m | 0 <= m < |ps|
      ensures Decode(reg, opts, "Payment", ps[m], warn, {}).result.Ok?
          <==> Converts(opts, "Payment", Payment, ps[m], "amount", "Amount")
    {
      PaymentDecodes(reg, opts, ps[m], warn, {});
    }
  }

  /** The delivery, customer and notes groups never raise. */
  lemma DeliverySafe(reg: Registry, opts: Options, e: Element, warn: bool, vis: set<ClassName>)
    requires DeliveryIn(reg) && DocumentIn(reg) && "Document" !in vis && vis !! Groups && opts.convertTypes
    ensures !EntryEffect(reg, opts, "Document", e, warn, vis, 6).Raise?
  {
    GroupFacts();
    assert "DeliveryInfo" in Groups;
    GroupEntryRaises(reg, opts, "Document", e, warn, vis, 6, "DeliveryInfo");
    DeliveryReads(reg, opts, e, false, vis + {"Document"});
  }

  lemma CustomerSafe(reg: Registry, opts: Options, e: Element, warn: bool, vis: set<ClassName>)
    requires CustomerIn(reg) && DocumentIn(reg) && "Document" !in vis && vis !! Groups && opts.convertTypes
    ensures !EntryEffect(reg, opts, "Document", e, warn, vis, 8).Raise?
  {
    GroupFacts();
    assert "CustomerInfo" in Groups;
    GroupEntryRaises(reg, opts, "Document", e, warn, vis, 8, "CustomerInfo");
    CustomerReads(reg, opts, e, false, vis + {"Document"});
  }

  lemma NotesSafe(reg: Registry, opts: Options, e: Element, warn: bool, vis: set<ClassName>)
    requires NotesIn(reg) && DocumentIn(reg) && "Document" !in vis && vis !! Groups && opts.convertTypes
    ensures !EntryEffect(reg, opts, "Document", e, warn, vis, 9).Raise?
  {
    GroupFacts();
    assert "DocumentNotes" in Groups;
    GroupEntryRaises(reg, opts, "Document", e, warn, vis, 9, "DocumentNotes");
    NotesReads(reg, opts, e, false, vis + {"Document"});
  }

  /** The transport group raises exactly when `<NumOfPieces>` does not convert. */
  lemma TransportRaise(reg: Registry, opts: Options, e: Element, warn: bool, vis: set<ClassName>)
    requires TransportIn(reg) && DocumentIn(reg) && "Document" !in vis && vis !! Groups && opts.convertTypes
    ensures EntryEffect(reg, opts, "Document", e, warn, vis, 7).Raise?
        <==> !Converts(opts, "TransportInfo", TransportInfo, e, "pieces", "NumOfPieces")
  {
    GroupFacts();
    assert "TransportInfo" in Groups;
    GroupEntryRaises(reg, opts, "Document", e, warn, vis, 7, "TransportInfo");
    TransportDecodes(reg, opts, e, false, vis + {"Document"});
  }

  /** The conversions a document needs: every row's numbers, every
      payment's amount and the number of pieces. */
  predicate DocumentConverts(opts: Options, e: Element) {
    && RowsConvert(opts, e)
    && PaymentsConvert(opts, e)
    && Converts(opts, "TransportInfo", TransportInfo, e, "pieces", "NumOfPieces")
  }

  /** Which entries of a document can raise, and when. */
  predicate EntryFails(opts: Options, e: Element, j: nat) {
    || (j == 2 && !RowsConvert(opts, e))
    || (j == 3 && !PaymentsConvert(opts, e))
    || (j == 7 && !Converts(opts, "TransportInfo", TransportInfo, e, "pieces", "NumOfPieces"))
  }

  lemma DocumentEntryRaises(reg: Registry, opts: Options, e: Element, warn: bool, vis: set<ClassName>, j: nat)
    requires Registered(reg) && "Document" !in vis && vis !! Groups && opts.convertTypes
    requires j < |DocumentTable|
    ensures EntryEffect(reg, opts, "Document", e, warn, vis, j).Raise? <==> EntryFails(opts, e, j)
  {
    if j == 2 {
      RowsRaise(reg, opts, e, warn, vis);
    } else if j == 3 {
      PaymentsRaise(reg, opts, e, warn, vis);
    } else if j == 6 {
      DeliverySafe(reg, opts, e, warn, vis);
    } else if j == 7 {
      TransportRaise(reg, opts, e, warn, vis);
    } else if j == 8 {
      CustomerSafe(reg, opts, e, warn, vis);
    } else if j == 9 {
      NotesSafe(reg, opts, e, warn, vis);
    } else {
      DocumentTextsSafe(reg, opts, e, warn, vis);
    }
  }

  /** With conversion on, a document decodes exactly when the numbers of
      all its rows, the amounts of all its payments and its number of
      pieces convert. */
  lemma DocumentDecodes(reg: Registry, opts: Options, e: Element, warn: bool, vis: set<ClassName>)
    requires Registered(reg) && "Document" !in vis && vis !! Groups && opts.convertTypes
    ensures Configured(reg, "Document")
    ensures Decode(reg, opts, "Document", e, warn, vis).result.Ok? <==> DocumentConverts(opts, e)
  {
    DocumentConfigured(reg);
    DecodeOk(reg, opts, "Document", e, warn, vis);
    forall j | 0 <= j < |DocumentTable|
      ensures EntryEffect(reg, opts, "Document", e, warn, vis, j).Raise? <==> EntryFails(opts, e, j)
    {
      DocumentEntryRaises(reg, opts, e, warn, vis, j);
    }
    if !RowsConvert(opts, e) {
      assert EntryFails(opts, e, 2);
    } else if !PaymentsConvert(opts, e) {
      assert EntryFails(opts, e, 3);
    } else if !Converts(opts, "TransportInfo", TransportInfo, e, "pieces", "NumOfPieces") {
      assert EntryFails(opts, e, 7);
    }
  }

  /** `rows` holds one decoded `Product` per `Rows/Row`, in document order. */
  lemma DocumentRows(reg: Registry, opts: Options, e: Element, warn: bool, vis: set<ClassName>)
    requires Registered(reg) && "Document" !in vis
    requires Decode(reg, opts, "Document", e, warn, vis).result.Ok?
    ensures var rows := FindPath(e, "Rows", "Row");
      var v := Get(Document, Decode(reg, opts, "Document", e, warn, vis).result.value, "rows");
      && v.Some? && v.value.VList? && |v.value.items| == |rows|
      && forall m | 0 <= m < |rows| ::
           Decode(reg, opts, "Product", rows[m], warn, {}).result.Ok?
           && v.value.items[m] == Decode(reg, opts, "Product", rows[m], warn, {}).result.value
  {
    DocumentKeys();
    ListFacts();
    DocumentConfigured(reg);
    ProductXml.RowTagsExpected(reg, "");
    ReadFacts.DecodedList(reg, opts, "Document", e, warn, vis, 2, "Rows", "Product");
  }

  /** `payments` holds one decoded `Payment` per `Payments/Payment`, in
      document order. */
  lemma DocumentPayments(reg: Registry, opts: Options, e: Element, warn: bool, vis: set<ClassName>)
    requires Registered(reg) && "Document" !in vis
    requires Decode(reg, opts, "Document", e, warn, vis).result.Ok?
    ensures var ps := FindPath(e, "Payments", "Payment");
      var v := Get(Document, Decode(reg, opts, "Document", e, warn, vis).result.value, "payments");
      && v.Some? && v.value.VList? && |v.value.items| == |ps|
      && forall m | 0 <= m < |ps| ::
           Decode(reg, opts, "Payment", ps[m], warn, {}).result.Ok?
           && v.value.items[m] == Decode(reg, opts, "Payment", ps[m], warn, {}).result.value
  {
    DocumentKeys();
    ListFacts();
    DocumentConfigured(reg);
    assert XmlTag("Payment", reg["Payment"]) == "Payment";
    ReadFacts.DecodedList(reg, opts, "Document", e, warn, vis, 3, "Payments", "Payment");
  }

  /** Without a `<Rows>` child, `rows` is the empty list. */
  lemma NoRows(reg: Registry, opts: Options, e: Element, warn: bool, vis: set<ClassName>)
    requires Registered(reg) && "Document" !in vis
    requires Decode(reg, opts, "Document", e, warn, vis).result.Ok?
    requires forall c | c in e.children :: c.tag != "Rows"
    ensures Get(Document, Decode(reg, opts, "Document", e, warn, vis).result.value, "rows") == Some(VList([]))
  {
    DocumentRows(reg, opts, e, warn, vis);
    PathWithoutContainers(e, "Rows", "Row");
  }

  /** A group's class, for entries 6 to 9. */
  function GroupAt(j: nat): (g: ClassName)
    requires 6 <= j < |DocumentTable|
    ensures DocumentTable[j].1 == GroupEntry(Some(g)) && g in Groups
  {
    GroupFacts();
    DocumentTable[j].1.groupTarget.value
  }

  lemma GroupRead(reg: Registry, opts: Options, e: Element, warn: bool, vis: set<ClassName>, j: nat)
    requires DocumentIn(reg) && Configured(reg, "Document") && "Document" !in vis && vis !! Groups
    requires Decode(reg, opts, "Document", e, warn, vis).result.Ok?
    requires 6 <= j < |DocumentTable|
    ensures var d := Decode(reg, opts, GroupAt(j), e, false, vis + {"Document"});
      && d.result.Ok?
      && Get(Document, Decode(reg, opts, "Document", e, warn, vis).result.value, DocumentTable[j].0)
         == Some(VObj(d.result.value))
  {
    DocumentKeys();
    var g := GroupAt(j);
    assert g != "Document" && g !in vis;
    DecodedGroup(reg, opts, "Document", e, warn, vis, j, g);
  }

  /** Each group attribute holds its group decoded from the document element
      itself, without warnings and with the document counted as visited. */
  lemma DocumentGroups(reg: Registry, opts: Options, e: Element, warn: bool, vis: set<ClassName>)
    requires Registered(reg) && "Document" !in vis && vis !! Groups
    requires Decode(reg, opts, "Document", e, warn, vis).result.Ok?
    ensures forall j | 6 <= j < |DocumentTable| ::
      var d := Decode(reg, opts, GroupAt(j), e, false, vis + {"Document"});
      && d.result.Ok?
      && Get(Document, Decode(reg, opts, "Document", e, warn, vis).result.value, DocumentTable[j].0)
         == Some(VObj(d.result.value))
  {
    DocumentConfigured(reg);
    forall j | 6 <= j < |DocumentTable|
      ensures var d := Decode(reg, opts, GroupAt(j), e, false, vis + {"Document"});
        && d.result.Ok?
        && Get(Document, Decode(reg, opts, "Document", e, warn, vis).result.value, DocumentTable[j].0)
           == Some(VObj(d.result.value))
    {
      GroupRead(reg, opts, e, warn, vis, j);
    }
  }

  /** The customer of a document is read from the document's own
      `Customer...` children. */
  lemma DocumentCustomer(reg: Registry, opts: Options, e: Element, warn: bool, vis: set<ClassName>)
    requires Registered(reg) && "Document" !in vis && vis !! Groups && opts.convertTypes
    requires Decode(reg, opts, "Document", e, warn, vis).result.Ok?
    ensures var c := Get(Document, Decode(reg, opts, "Document", e, warn, vis).result.value, "customer");
      && c.Some? && c.value.VObj?
      && forall j | 0 <= j < |CustomerTable| ::
           Get(CustomerInfo, c.value.obj, CustomerTable[j].0) == StrSet(e, CustomerTags[j])
  {
    DocumentGroups(reg, opts, e, warn, vis);
    assert GroupAt(8) == "CustomerInfo" && DocumentTable[8].0 == "customer";
    assert "CustomerInfo" !in vis + {"Document"};
    CustomerReads(reg, opts, e, false, vis + {"Document"});
  }

  lemma TextFacts()
    ensures DocumentTable[0] == ("date", Path("Date")) && DocumentTable[1] == ("number", Path("Number"))
    ensures DocumentTable[4] == ("numbering", Path("Numbering"))
    ensures Document.hints["date"] == StrType && Document.hints["number"] == StrType
    ensures "date" !in Document.defaults && "number" !in Document.defaults
    ensures Document.hints["numbering"] == StrType && Document.defaults["numbering"] == VNone
  {
  }

  lemma KindFacts()
    ensures DocumentTable[5] == ("type", Path("DocumentType"))
    ensures Document.hints["type"] == OtherType && Document.defaults["type"] == VNone
  {
  }

  lemma DateRead(reg: Registry, opts: Options, e: Element, warn: bool, vis: set<ClassName>)
    requires DocumentIn(reg) && Configured(reg, "Document") && "Document" !in vis && opts.convertTypes
    requires Decode(reg, opts, "Document", e, warn, vis).result.Ok?
    ensures Get(Document, Decode(reg, opts, "Document", e, warn, vis).result.value, "date") == StrSet(e, "Date")
  {
    DocumentKeys();
    OwnPaths();
    TextFacts();
    DecodedStr(reg, opts, "Document", e, warn, vis, 0);
  }

  lemma NumberRead(reg: Registry, opts: Options, e: Element, warn: bool, vis: set<ClassName>)
    requires DocumentIn(reg) && Configured(reg, "Document") && "Document" !in vis && opts.convertTypes
    requires Decode(reg, opts, "Document", e, warn, vis).result.Ok?
    ensures Get(Document, Decode(reg, opts, "Document", e, warn, vis).result.value, "number") == StrSet(e, "Number")
  {
    DocumentKeys();
    OwnPaths();
    TextFacts();
    DecodedStr(reg, opts, "Document", e, warn, vis, 1);
  }

  lemma NumberingRead(reg: Registry, opts: Options, e: Element, warn: bool, vis: set<ClassName>)
    requires DocumentIn(reg) && Configured(reg, "Document") && "Document" !in vis && opts.convertTypes
    requires Decode(reg, opts, "Document", e, warn, vis).result.Ok?
    ensures Get(Document, Decode(reg, opts, "Document", e, warn, vis).result.value, "numbering")
         == Some(StrChild(e, "Numbering", VNone))
  {
    DocumentKeys();
    OwnPaths();
    TextFacts();
    DecodedStrChild(reg, opts, "Document", e, warn, vis, 4);
  }

  /** `date` and `number` are their children's text, unset when missing;
      `numbering` reads None without `<Numbering>`. */
  lemma DocumentTexts(reg: Registry, opts: Options, e: Element, warn: bool, vis: set<ClassName>)
    requires Registered(reg) && "Document" !in vis && opts.convertTypes
    requires Decode(reg, opts, "Document", e, warn, vis).result.Ok?
    ensures var o := Decode(reg, opts, "Document", e, warn, vis).result.value;
      && Get(Document, o, "date") == StrSet(e, "Date")
      && Get(Document, o, "number") == StrSet(e, "Number")
      && Get(Document, o, "numbering") == Some(StrChild(e, "Numbering", VNone))
  {
    TextFacts();
    DocumentConfigured(reg);
    DateRead(reg, opts, e, warn, vis);
    NumberRead(reg, opts, e, warn, vis);
    NumberingRead(reg, opts, e, warn, vis);
  }

  /** `type` is not converted: None without `<DocumentType>`, else its raw
      text. */
  lemma DocumentKind(reg: Registry, opts: Options, e: Element, warn: bool, vis: set<ClassName>)
    requires Registered(reg) && "Document" !in vis && opts.convertTypes
    requires Decode(reg, opts, "Document", e, warn, vis).result.Ok?
    ensures var c := Find(e, "DocumentType");
      Get(Document, Decode(reg, opts, "Document", e, warn, vis).result.value, "type")
        == Some(if c.None? then VNone else RawValue(c.value.text))
  {
    DocumentKeys();
    OwnPaths();
    KindFacts();
    DocumentConfigured(reg);
    DecodedScalar(reg, opts, "Document", e, warn, vis, 5);
  }
}
