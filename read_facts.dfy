/**
  What one decode leaves in a given attribute, for the three kinds of string
  entry the schema tables use (a child tag, an `@`-attribute and `#TEXT`),
  and when a table made only of such entries decodes without an exception.
  The schema modules instantiate these lemmas with their own tables.
 */
module ReadFacts {
  import opened Wrappers
  import opened Exceptions
  import opened Etree
  import opened PyText
  import opened Fields
  import opened Mapper
  import opened MapperFacts
  import opened EntryFacts
  import opened TagFacts

  /** A string entry that names a child element: an XML name without
      surrounding blanks. */
  predicate ChildTag(p: string) {
    IsXmlName(p) && !IsSpace(p[0]) && !IsSpace(p[|p| - 1])
  }

  /** A string entry that names an XML attribute: `@` and a name without a
      trailing blank. */
  predicate AttributeTag(p: string) {
    |p| >= 1 && p[0] == '@' && !IsSpace(p[|p| - 1])
  }

  /** The table of a registered class. */
  function TableOf(reg: Registry, cls: ClassName): Table
    requires cls in reg && reg[cls].mapping.Some?
  {
    reg[cls].mapping.value
  }

  /** What `element.find(tag)` yields as text: None for a missing child,
      else the child's text (itself None for an empty child). */
  lemma LocateFind(e: Element, tag: string)
    requires ChildTag(tag)
    ensures Locate(e, tag) == if Find(e, tag).None? then Absent else Found(Find(e, tag).value.text)
  {
    StripUnchanged(tag);
    assert Upper(tag)[0] == UpperChar(tag[0]) != '#';
  }

  lemma LocateAt(e: Element, p: string)
    requires AttributeTag(p)
    ensures Locate(e, p) == Found(e.Get(p[1..]))
  {
    assert p == "@" + p[1..];
    LocateAttribute(e, p[1..]);
  }

  lemma LocateOwnText(e: Element)
    ensures Locate(e, "#TEXT") == Found(e.text)
  {
    var p := "#TEXT";
    assert Upper(p) == p by {
      assert Upper(p) == [UpperChar('#')] + Upper("TEXT");
    }
    LocateText(e, p);
  }

  /** A child-tag entry of a table whose keys are distinct: a missing child
      leaves the attribute unassigned; a present one assigns the converted
      text of the first such child. */
  lemma DecodedChild(reg: Registry, opts: Options, cls: ClassName, e: Element, warn: bool,
                     vis: set<ClassName>, j: nat)
    requires cls !in vis && Configured(reg, cls)
    requires UniqueKeys(TableOf(reg, cls)) && j < |TableOf(reg, cls)|
    requires TableOf(reg, cls)[j].1.Path? && ChildTag(TableOf(reg, cls)[j].1.path)
    requires Decode(reg, opts, cls, e, warn, vis).result.Ok?
    ensures var attr := TableOf(reg, cls)[j].0;
      var c := Find(e, TableOf(reg, cls)[j].1.path);
      var o := Decode(reg, opts, cls, e, warn, vis).result.value;
      && (c.None? ==> Lookup(o.attrs, attr).None?)
      && (c.Some? ==>
            && ScalarEffect(opts, cls, reg[cls], attr, c.value.text).Assign?
            && Lookup(o.attrs, attr) == Some(ScalarEffect(opts, cls, reg[cls], attr, c.value.text).value))
  {
    var t := TableOf(reg, cls);
    DecodeAttribute(reg, opts, cls, e, warn, vis, j);
    LocateFind(e, t[j].1.path);
    DecodeOk(reg, opts, cls, e, warn, vis);
  }

  /** An `@name` entry: the attribute is always assigned, from the XML
      attribute `name` or from None when it is missing. */
  lemma DecodedAttribute(reg: Registry, opts: Options, cls: ClassName, e: Element, warn: bool,
                         vis: set<ClassName>, j: nat)
    requires cls !in vis && Configured(reg, cls)
    requires UniqueKeys(TableOf(reg, cls)) && j < |TableOf(reg, cls)|
    requires TableOf(reg, cls)[j].1.Path? && AttributeTag(TableOf(reg, cls)[j].1.path)
    requires Decode(reg, opts, cls, e, warn, vis).result.Ok?
    ensures var attr := TableOf(reg, cls)[j].0;
      var text := e.Get(TableOf(reg, cls)[j].1.path[1..]);
      && ScalarEffect(opts, cls, reg[cls], attr, text).Assign?
      && Lookup(Decode(reg, opts, cls, e, warn, vis).result.value.attrs, attr)
         == Some(ScalarEffect(opts, cls, reg[cls], attr, text).value)
  {
    var t := TableOf(reg, cls);
    DecodeAttribute(reg, opts, cls, e, warn, vis, j);
    LocateAt(e, t[j].1.path);
    DecodeOk(reg, opts, cls, e, warn, vis);
  }

  /** A `#TEXT` entry: the attribute is always assigned, from the element's
      own text. */
  lemma DecodedText(reg: Registry, opts: Options, cls: ClassName, e: Element, warn: bool,
                    vis: set<ClassName>, j: nat)
    requires cls !in vis && Configured(reg, cls)
    requires UniqueKeys(TableOf(reg, cls)) && j < |TableOf(reg, cls)|
    requires TableOf(reg, cls)[j].1 == Path("#TEXT")
    requires Decode(reg, opts, cls, e, warn, vis).result.Ok?
    ensures var attr := TableOf(reg, cls)[j].0;
      && ScalarEffect(opts, cls, reg[cls], attr, e.text).Assign?
      && Lookup(Decode(reg, opts, cls, e, warn, vis).result.value.attrs, attr)
         == Some(ScalarEffect(opts, cls, reg[cls], attr, e.text).value)
  {
    DecodeAttribute(reg, opts, cls, e, warn, vis, j);
    LocateOwnText(e);
    assert EntryEffect(reg, opts, cls, e, warn, vis, j)
        == ScalarEffect(opts, cls, reg[cls], TableOf(reg, cls)[j].0, e.text);
    DecodeOk(reg, opts, cls, e, warn, vis);
  }

  /** A string entry no text can make fail: a non-empty path whose type
      hint, when conversion is on, is neither `int` nor `float`. */
  predicate SafeEntry(opts: Options, def: ClassDef, entry: (string, Entry)) {
    && entry.1.Path? && entry.1.path != ""
    && (opts.convertTypes ==> entry.0 in def.hints && def.hints[entry.0] != IntType && def.hints[entry.0] != FloatType)
  }

  lemma SafeEntryEffect(reg: Registry, opts: Options, cls: ClassName, e: Element, warn: bool,
                        vis: set<ClassName>, j: nat)
    requires cls in reg && reg[cls].mapping.Some? && cls !in vis && j < |TableOf(reg, cls)|
    requires SafeEntry(opts, reg[cls], TableOf(reg, cls)[j])
    ensures !EntryEffect(reg, opts, cls, e, warn, vis, j).Raise?
  {
  }

  /** A table of string entries only is always configured: each contributes
      its own path. */
  lemma PathsConfigured(reg: Registry, cls: ClassName)
    requires cls in reg && reg[cls].mapping.Some?
    requires forall j | 0 <= j < |TableOf(reg, cls)| :: TableOf(reg, cls)[j].1.Path?
    ensures Configured(reg, cls)
  {
    ExpectedTagsOk(reg, TableOf(reg, cls));
  }

  /** A table of safe entries decodes every element. */
  lemma SafeTableDecodes(reg: Registry, opts: Options, cls: ClassName, e: Element, warn: bool, vis: set<ClassName>)
    requires cls in reg && reg[cls].mapping.Some? && cls !in vis
    requires forall j | 0 <= j < |TableOf(reg, cls)| :: SafeEntry(opts, reg[cls], TableOf(reg, cls)[j])
    ensures Configured(reg, cls)
    ensures Decode(reg, opts, cls, e, warn, vis).result.Ok?
  {
    PathsConfigured(reg, cls);
    forall j | 0 <= j < |TableOf(reg, cls)|
      ensures !EntryEffect(reg, opts, cls, e, warn, vis, j).Raise?
    {
      SafeEntryEffect(reg, opts, cls, e, warn, vis, j);
    }
    DecodeOk(reg, opts, cls, e, warn, vis);
  }

  /** The text a `str` attribute ends up with when read from a child tag:
      the class default when the child is missing, else the child's text,
      "" for an empty child. */
  function StrChild(e: Element, tag: string, default: Value): Value {
    match Find(e, tag)
    case None => default
    case Some(c) => VStr(c.text.GetOr(""))
  }

  /** A `str` child-tag entry, read through the class default. */
  lemma DecodedStrChild(reg: Registry, opts: Options, cls: ClassName, e: Element, warn: bool,
                        vis: set<ClassName>, j: nat)
    requires cls !in vis && Configured(reg, cls) && opts.convertTypes
    requires UniqueKeys(TableOf(reg, cls)) && j < |TableOf(reg, cls)|
    requires TableOf(reg, cls)[j].1.Path? && ChildTag(TableOf(reg, cls)[j].1.path)
    requires TableOf(reg, cls)[j].0 in reg[cls].hints && reg[cls].hints[TableOf(reg, cls)[j].0] == StrType
    requires TableOf(reg, cls)[j].0 in reg[cls].defaults
    requires Decode(reg, opts, cls, e, warn, vis).result.Ok?
    ensures var attr := TableOf(reg, cls)[j].0;
      Get(reg[cls], Decode(reg, opts, cls, e, warn, vis).result.value, attr)
        == Some(StrChild(e, TableOf(reg, cls)[j].1.path, reg[cls].defaults[attr]))
  {
    DecodedChild(reg, opts, cls, e, warn, vis, j);
  }

  /** The value a `str` attribute receives from located text: "" for None
      when conversion is on, the raw value when it is off. */
  function StrRead(opts: Options, text: Option<string>): (v: Value)
    ensures opts.convertTypes ==> v.VStr? && (text.Some? ==> v.s == text.value)
    ensures !opts.convertTypes && text.None? ==> v == VNone
  {
    if opts.convertTypes then VStr(text.GetOr("")) else RawValue(text)
  }

  lemma StrScalar(opts: Options, cls: ClassName, def: ClassDef, attr: string, text: Option<string>)
    requires attr in def.hints && def.hints[attr] == StrType
    ensures ScalarEffect(opts, cls, def, attr, text) == Assign(StrRead(opts, text))
  {
  }

  /** One pass of the mapping loop over a string entry that assigns `v`. */
  lemma PathAssigns(reg: Registry, opts: Options, cls: ClassName, e: Element, warn: bool,
                    vis: set<ClassName>, i: nat, o: Instance, ws: seq<Warning>, v: Value)
    requires cls in reg && reg[cls].mapping.Some? && cls !in vis && i < |TableOf(reg, cls)|
    requires TableOf(reg, cls)[i].1.Path?
    requires PathEffect(opts, cls, reg[cls], e, TableOf(reg, cls)[i].0, TableOf(reg, cls)[i].1.path) == Assign(v)
    ensures ApplyEntries(reg, opts, cls, e, warn, vis, i, o, ws)
         == ApplyEntries(reg, opts, cls, e, warn, vis, i + 1, SetAttr(o, TableOf(reg, cls)[i].0, v), ws)
  {
    assert ws + [] == ws;
  }

  /** Past the configuration checks, a decode is the mapping loop from an
      empty instance and the untracked report. */
  lemma DecodeStart(reg: Registry, opts: Options, cls: ClassName, e: Element, warn: bool,
                    vis: set<ClassName>, expected: seq<string>)
    requires cls in reg && reg[cls].mapping.Some? && cls !in vis
    requires ExpectedTags(reg, TableOf(reg, cls)) == Ok(expected)
    ensures Decode(reg, opts, cls, e, warn, vis)
         == ApplyEntries(reg, opts, cls, e, warn, vis, 0, Instance(cls, []), WarnFor(cls, Untracked(e.children, expected), warn))
  {
  }

  /** String entries print nothing, so a table of them prints at most the
      class's own untracked report. */
  lemma {:induction false} PathsPrintNothing(reg: Registry, opts: Options, cls: ClassName, e: Element, warn: bool,
                                             vis: set<ClassName>, i: nat, o: Instance, ws: seq<Warning>)
    requires cls in reg && reg[cls].mapping.Some? && cls !in vis && i <= |TableOf(reg, cls)|
    requires forall j | i <= j < |TableOf(reg, cls)| :: TableOf(reg, cls)[j].1.Path?
    ensures ApplyEntries(reg, opts, cls, e, warn, vis, i, o, ws).warnings == ws
    decreases |TableOf(reg, cls)| - i
  {
    var t := TableOf(reg, cls);
    if i < |t| {
      var s := Step(reg, opts, cls, e, warn, vis, t[i].0, t[i].1);
      assert s.warnings == [];
      assert ws + s.warnings == ws;
      if !s.effect.Raise? {
        var o' := if s.effect.Assign? then SetAttr(o, t[i].0, s.effect.value) else o;
        assert ApplyEntries(reg, opts, cls, e, warn, vis, i, o, ws) == ApplyEntries(reg, opts, cls, e, warn, vis, i + 1, o', ws);
        PathsPrintNothing(reg, opts, cls, e, warn, vis, i + 1, o', ws);
      }
    }
  }

  lemma PathsWarnings(reg: Registry, opts: Options, cls: ClassName, e: Element, warn: bool, vis: set<ClassName>)
    requires cls in reg && reg[cls].mapping.Some? && cls !in vis
    requires forall j | 0 <= j < |TableOf(reg, cls)| :: TableOf(reg, cls)[j].1.Path?
    ensures Configured(reg, cls)
    ensures Decode(reg, opts, cls, e, warn, vis).warnings
         == WarnFor(cls, Untracked(e.children, ExpectedTags(reg, TableOf(reg, cls)).value), warn)
  {
    PathsConfigured(reg, cls);
    PathsPrintNothing(reg, opts, cls, e, warn, vis, 0, Instance(cls, []),
      WarnFor(cls, Untracked(e.children, ExpectedTags(reg, TableOf(reg, cls)).value), warn));
  }

  /** A child-tag entry with conversion on: a missing child skips, a present
      one assigns its converted text or raises the conversion error. */
  lemma ChildEffect(opts: Options, cls: ClassName, def: ClassDef, e: Element, attr: string, tag: string)
    requires ChildTag(tag) && opts.convertTypes && attr in def.hints
    ensures PathEffect(opts, cls, def, e, attr, tag) ==
      if Find(e, tag).None? then Skip
      else
        match Coerce(opts, cls, attr, def.hints[attr], Find(e, tag).value.text)
        case Ok(v) => Assign(v)
        case Err(x) => Raise(x)
  {
    LocateFind(e, tag);
  }

  /** Whether a child-tag entry's text, if the child is present, converts
      to the declared type. */
  predicate Converts(opts: Options, cls: ClassName, def: ClassDef, e: Element, attr: string, tag: string)
    requires attr in def.hints
  {
    Find(e, tag).None? || Coerce(opts, cls, attr, def.hints[attr], Find(e, tag).value.text).Ok?
  }

  /** A child-tag entry with conversion on, read through the class
      default: the default when the child is missing, else the converted
      text (which then converts). */
  lemma DecodedScalar(reg: Registry, opts: Options, cls: ClassName, e: Element, warn: bool,
                      vis: set<ClassName>, j: nat)
    requires cls !in vis && Configured(reg, cls) && opts.convertTypes
    requires UniqueKeys(TableOf(reg, cls)) && j < |TableOf(reg, cls)|
    requires TableOf(reg, cls)[j].1.Path? && ChildTag(TableOf(reg, cls)[j].1.path)
    requires TableOf(reg, cls)[j].0 in reg[cls].hints && TableOf(reg, cls)[j].0 in reg[cls].defaults
    requires Decode(reg, opts, cls, e, warn, vis).result.Ok?
    ensures var attr := TableOf(reg, cls)[j].0;
      var c := Find(e, TableOf(reg, cls)[j].1.path);
      var o := Decode(reg, opts, cls, e, warn, vis).result.value;
      && (c.None? ==> Get(reg[cls], o, attr) == Some(reg[cls].defaults[attr]))
      && (c.Some? ==>
            && Coerce(opts, cls, attr, reg[cls].hints[attr], c.value.text).Ok?
            && Get(reg[cls], o, attr) == Some(Coerce(opts, cls, attr, reg[cls].hints[attr], c.value.text).value))
  {
    DecodedChild(reg, opts, cls, e, warn, vis, j);
  }

  // ---------------------------------------------------------------------
  // Whole tables of `str` children, lists and groups

  /** A `str` child-tag entry. */
  predicate StrChildEntry(def: ClassDef, entry: (string, Entry)) {
    && entry.1.Path? && ChildTag(entry.1.path)
    && entry.0 in def.hints && def.hints[entry.0] == StrType
  }

  /** What a `str` child-tag entry puts in the instance itself: nothing when
      the child is missing, else the child's text, "" when it is empty. */
  function StrSet(e: Element, tag: string): Option<Value> {
    match Find(e, tag)
    case None => None
    case Some(c) => Some(VStr(c.text.GetOr("")))
  }

  /** A table made only of `str` children decodes every element, and each
      attribute is set from its own child exactly when that child exists. */
  lemma StrTableReads(reg: Registry, opts: Options, cls: ClassName, e: Element, warn: bool, vis: set<ClassName>)
    requires cls in reg && reg[cls].mapping.Some? && cls !in vis && opts.convertTypes
    requires UniqueKeys(TableOf(reg, cls))
    requires forall j | 0 <= j < |TableOf(reg, cls)| :: StrChildEntry(reg[cls], TableOf(reg, cls)[j])
    ensures Configured(reg, cls)
    ensures Decode(reg, opts, cls, e, warn, vis).result.Ok?
    ensures forall j | 0 <= j < |TableOf(reg, cls)| ::
      && TableOf(reg, cls)[j].1.Path?
      && Lookup(Decode(reg, opts, cls, e, warn, vis).result.value.attrs, TableOf(reg, cls)[j].0)
         == StrSet(e, TableOf(reg, cls)[j].1.path)
  {
    var t := TableOf(reg, cls);
    SafeTableDecodes(reg, opts, cls, e, warn, vis);
    forall j | 0 <= j < |t|
      ensures t[j].1.Path? && Lookup(Decode(reg, opts, cls, e, warn, vis).result.value.attrs, t[j].0) == StrSet(e, t[j].1.path)
    {
      assert StrChildEntry(reg[cls], t[j]);
      DecodedChild(reg, opts, cls, e, warn, vis, j);
      var c := Find(e, t[j].1.path);
      if c.Some? {
        StrScalar(opts, cls, reg[cls], t[j].0, c.value.text);
      }
    }
  }

  /** A list `Field` entry raises exactly when one of the items under its
      container fails to decode. */
  lemma ListEntryRaises(reg: Registry, opts: Options, cls: ClassName, e: Element, warn: bool,
                        vis: set<ClassName>, j: nat, container: string, item: ClassName)
    requires cls in reg && reg[cls].mapping.Some? && cls !in vis && j < |TableOf(reg, cls)|
    requires TableOf(reg, cls)[j].1 == FieldEntry(ListField(container, item)) && container != "" && item in reg
    ensures var ms := FindPath(e, container, XmlTag(item, reg[item]));
      EntryEffect(reg, opts, cls, e, warn, vis, j).Raise? <==>
        exists m | 0 <= m < |ms| :: Decode(reg, opts, item, ms[m], warn, {}).result.Err?
  {
    var ms := FindPath(e, container, XmlTag(item, reg[item]));
    ListFieldStep(reg, opts, cls, e, warn, vis, TableOf(reg, cls)[j].0, container, item);
    DecodeItemsOutcome(reg, opts, item, e, warn, ms, 0, [], []);
  }

  /** On a successful decode, a list `Field` entry holds the list its
      comprehension built, which succeeded. */
  lemma ListAttribute(reg: Registry, opts: Options, cls: ClassName, e: Element, warn: bool,
                      vis: set<ClassName>, j: nat, container: string, item: ClassName)
    requires cls !in vis && Configured(reg, cls)
    requires UniqueKeys(TableOf(reg, cls)) && j < |TableOf(reg, cls)|
    requires TableOf(reg, cls)[j].1 == FieldEntry(ListField(container, item)) && container != "" && item in reg
    requires Decode(reg, opts, cls, e, warn, vis).result.Ok?
    ensures var dl := DecodeItems(reg, opts, item, e, warn, FindPath(e, container, XmlTag(item, reg[item])), 0, [], []);
      && dl.result.Ok?
      && Lookup(Decode(reg, opts, cls, e, warn, vis).result.value.attrs, TableOf(reg, cls)[j].0) == Some(VList(dl.result.value))
  {
    var t := TableOf(reg, cls);
    var ms := FindPath(e, container, XmlTag(item, reg[item]));
    var dl := DecodeItems(reg, opts, item, e, warn, ms, 0, [], []);
    DecodeOk(reg, opts, cls, e, warn, vis);
    ListFieldStep(reg, opts, cls, e, warn, vis, t[j].0, container, item);
    assert EntryEffect(reg, opts, cls, e, warn, vis, j) == ListEffect(dl.result);
    assert !EntryEffect(reg, opts, cls, e, warn, vis, j).Raise?;
    assert dl.result.Ok?;
    DecodeAttribute(reg, opts, cls, e, warn, vis, j);
  }

  /** On a successful decode, a list `Field` entry holds one decoded item
      per `container/item` match, in document order. */
  lemma DecodedList(reg: Registry, opts: Options, cls: ClassName, e: Element, warn: bool,
                    vis: set<ClassName>, j: nat, container: string, item: ClassName)
    requires cls !in vis && Configured(reg, cls)
    requires UniqueKeys(TableOf(reg, cls)) && j < |TableOf(reg, cls)|
    requires TableOf(reg, cls)[j].1 == FieldEntry(ListField(container, item)) && container != "" && item in reg
    requires Decode(reg, opts, cls, e, warn, vis).result.Ok?
    ensures var ms := FindPath(e, container, XmlTag(item, reg[item]));
      var v := Lookup(Decode(reg, opts, cls, e, warn, vis).result.value.attrs, TableOf(reg, cls)[j].0);
      && v.Some? && v.value.VList? && |v.value.items| == |ms|
      && forall m | 0 <= m < |ms| ::
           Decode(reg, opts, item, ms[m], warn, {}).result.Ok?
           && v.value.items[m] == Decode(reg, opts, item, ms[m], warn, {}).result.value
  {
    var ms := FindPath(e, container, XmlTag(item, reg[item]));
    ListAttribute(reg, opts, cls, e, warn, vis, j, container, item);
    DecodeItemsValues(reg, opts, item, e, warn, ms, 0, [], []);
  }

  /** A `FieldGroup` entry raises exactly when its target, decoded from the
      same element, raises. */
  lemma GroupEntryRaises(reg: Registry, opts: Options, cls: ClassName, e: Element, warn: bool,
                         vis: set<ClassName>, j: nat, g: ClassName)
    requires cls in reg && reg[cls].mapping.Some? && cls !in vis && j < |TableOf(reg, cls)|
    requires TableOf(reg, cls)[j].1 == GroupEntry(Some(g)) && g != cls && g !in vis
    ensures EntryEffect(reg, opts, cls, e, warn, vis, j).Raise?
        <==> Decode(reg, opts, g, e, false, vis + {cls}).result.Err?
  {
    GroupFromSameElement(reg, opts, cls, e, warn, vis, TableOf(reg, cls)[j].0, g);
  }

  /** On a successful decode, a `FieldGroup` entry holds its target decoded
      from the same element with the untracked report off. */
  lemma DecodedGroup(reg: Registry, opts: Options, cls: ClassName, e: Element, warn: bool,
                     vis: set<ClassName>, j: nat, g: ClassName)
    requires cls !in vis && Configured(reg, cls)
    requires UniqueKeys(TableOf(reg, cls)) && j < |TableOf(reg, cls)|
    requires TableOf(reg, cls)[j].1 == GroupEntry(Some(g)) && g != cls && g !in vis
    requires Decode(reg, opts, cls, e, warn, vis).result.Ok?
    ensures var d := Decode(reg, opts, g, e, false, vis + {cls});
      && d.result.Ok?
      && Lookup(Decode(reg, opts, cls, e, warn, vis).result.value.attrs, TableOf(reg, cls)[j].0) == Some(VObj(d.result.value))
  {
    DecodeOk(reg, opts, cls, e, warn, vis);
    DecodeAttribute(reg, opts, cls, e, warn, vis, j);
    GroupFromSameElement(reg, opts, cls, e, warn, vis, TableOf(reg, cls)[j].0, g);
  }

  /** The strings of a table's string entries, listed entry by entry, are
      exactly the paths a `FieldGroup` over it contributes. */
  lemma TableTagsIn(t: Table, tags: seq<string>, x: string)
    requires |t| == |tags| && forall k | 0 <= k < |t| :: t[k].1 == Path(tags[k])
    ensures (exists i | 0 <= i < |t| :: t[i].1 == Path(x)) <==> x in tags
  {
    if x in tags {
      var k :| 0 <= k < |tags| && tags[k] == x;
      assert t[k].1 == Path(x);
    }
  }

  /** What a `bool` child-tag entry puts in the instance itself: nothing
      when the child is missing, else whether its text is "true" in any
      case (an empty child gives False). */
  function FlagSet(e: Element, tag: string): Option<Value> {
    match Find(e, tag)
    case None => None
    case Some(c) => Some(VBool(c.text.Some? && Lower(c.text.value) == "true"))
  }

  /** A `bool` child-tag entry of a successful decode. */
  lemma DecodedFlag(reg: Registry, opts: Options, cls: ClassName, e: Element, warn: bool,
                    vis: set<ClassName>, j: nat)
    requires cls !in vis && Configured(reg, cls) && opts.convertTypes
    requires UniqueKeys(TableOf(reg, cls)) && j < |TableOf(reg, cls)|
    requires TableOf(reg, cls)[j].1.Path? && ChildTag(TableOf(reg, cls)[j].1.path)
    requires TableOf(reg, cls)[j].0 in reg[cls].hints && reg[cls].hints[TableOf(reg, cls)[j].0] == BoolType
    requires Decode(reg, opts, cls, e, warn, vis).result.Ok?
    ensures Lookup(Decode(reg, opts, cls, e, warn, vis).result.value.attrs, TableOf(reg, cls)[j].0)
         == FlagSet(e, TableOf(reg, cls)[j].1.path)
  {
    var t := TableOf(reg, cls);
    DecodedChild(reg, opts, cls, e, warn, vis, j);
    var c := Find(e, t[j].1.path);
    if c.Some? {
      CoerceBool(opts, cls, t[j].0, c.value.text);
    }
  }

  /** A `str` child-tag entry of a successful decode. */
  lemma DecodedStr(reg: Registry, opts: Options, cls: ClassName, e: Element, warn: bool,
                   vis: set<ClassName>, j: nat)
    requires cls !in vis && Configured(reg, cls) && opts.convertTypes
    requires UniqueKeys(TableOf(reg, cls)) && j < |TableOf(reg, cls)|
    requires TableOf(reg, cls)[j].1.Path? && ChildTag(TableOf(reg, cls)[j].1.path)
    requires TableOf(reg, cls)[j].0 in reg[cls].hints && reg[cls].hints[TableOf(reg, cls)[j].0] == StrType
    requires Decode(reg, opts, cls, e, warn, vis).result.Ok?
    ensures Lookup(Decode(reg, opts, cls, e, warn, vis).result.value.attrs, TableOf(reg, cls)[j].0)
         == StrSet(e, TableOf(reg, cls)[j].1.path)
  {
    var t := TableOf(reg, cls);
    DecodedChild(reg, opts, cls, e, warn, vis, j);
    var c := Find(e, t[j].1.path);
    if c.Some? {
      StrScalar(opts, cls, reg[cls], t[j].0, c.value.text);
    }
  }
}
