/**
  The six reading rules, one table entry at a time: where a string entry
  finds its text, how that text is converted, and what `Field` and
  `FieldGroup` entries assign.
 */
module EntryFacts {
  import opened Wrappers
  import opened Exceptions
  import opened Etree
  import opened PyText
  import opened Fields
  import opened Mapper

  // ---------------------------------------------------------------------
  // Locating text

  /** `"@name"` reads the attribute `name`, absent or not. */
  lemma LocateAttribute(e: Element, name: string)
    requires name == [] || !IsSpace(name[|name| - 1])
    ensures Locate(e, "@" + name) == Found(e.Get(name))
    ensures Locate(e, "@" + name).text.None? <==> name !in e.attrib
  {
    AttributeSigil(name);
    var p := "@" + name;
    assert p[1..] == name;
  }

  lemma AttributeSigil(name: string)
    requires name == [] || !IsSpace(name[|name| - 1])
    ensures StartsWith(Strip("@" + name), "@")
  {
    var p := "@" + name;
    assert p[0] == '@' && !IsSpace('@');
    assert p[|p| - 1] == if name == [] then '@' else name[|name| - 1];
    StripUnchanged(p);
    assert p[..1] == "@";
  }

  /** `"#TEXT"` in any letter case reads the element's own text. */
  lemma LocateText(e: Element, p: string)
    requires Upper(p) == "#TEXT"
    ensures Locate(e, p) == Found(e.text)
  {
    assert p[0] == '#' && p[4] != ' ';
    StripUnchanged(p);
    assert Strip(p)[0] == '#';
  }

  /** A plain tag reads the text of the first child with that tag, and the
      entry is absent exactly when no child carries the tag. */
  lemma LocateChild(e: Element, tag: string)
    requires IsXmlName(tag) && !IsSpace(tag[0]) && !IsSpace(tag[|tag| - 1])
    ensures Locate(e, tag) == Absent <==> forall c | c in e.children :: c.tag != tag
    ensures Locate(e, tag) != Absent ==>
      exists i | 0 <= i < |e.children| ::
        && Locate(e, tag) == Found(e.children[i].text)
        && e.children[i].tag == tag
        && forall j | 0 <= j < i :: e.children[j].tag != tag
  {
    StripUnchanged(tag);
    assert Upper(tag)[0] == UpperChar(tag[0]) != '#';
    assert Locate(e, tag) == (match Find(e, tag) case None => Absent case Some(c) => Found(c.text));
  }

  // ---------------------------------------------------------------------
  // Conversion

  /** The fixed values for an absent attribute, text or empty child: False,
      0, 0.0 and "" for the four scalar types, None for any other type. */
  lemma CoerceAbsent(opts: Options, cls: ClassName, attr: string)
    ensures Coerce(opts, cls, attr, BoolType, None) == Ok(VBool(false))
    ensures Coerce(opts, cls, attr, IntType, None) == Ok(VInt(0))
    ensures Coerce(opts, cls, attr, FloatType, None) == Ok(VFloat(0.0))
    ensures Coerce(opts, cls, attr, StrType, None) == Ok(VStr(""))
    ensures Coerce(opts, cls, attr, OtherType, None) == Ok(VNone)
  {
  }

  /** Only number parsing fails, and only on text that is present. */
  lemma CoerceFails(opts: Options, cls: ClassName, attr: string, hint: Scalar, text: Option<string>)
    ensures Coerce(opts, cls, attr, hint, text).Err? <==>
      text.Some? && ((hint == IntType && ParseInt(text.value).None?)
                  || (hint == FloatType && opts.parseFloat(text.value).None?))
  {
  }

  /** A failed conversion is a `TypeConversionError` naming the class, the
      attribute, the text and the target type, as in its message
      "Error while converting `cls.attr`: `text` cannot be converted to `type`." */
  lemma ConversionErrorNames(opts: Options, cls: ClassName, attr: string, hint: Scalar, text: Option<string>)
    requires Coerce(opts, cls, attr, hint, text).Err?
    ensures text.Some?
    ensures Coerce(opts, cls, attr, hint, text).error
         == TypeConversionError(cls, attr, text.value, if hint == IntType then "int" else "float")
    ensures var m := ConversionMessage(cls, attr, text.value, if hint == IntType then "int" else "float");
      m[24..24 + |cls| + 1 + |attr|] == cls + "." + attr
      && m[29 + |cls| + |attr|..29 + |cls| + |attr| + |text.value|] == text.value
  {
    CoerceFails(opts, cls, attr, hint, text);
  }

  /** `bool` is true exactly for the text "true" in any letter case. */
  lemma CoerceBool(opts: Options, cls: ClassName, attr: string, text: Option<string>)
    ensures Coerce(opts, cls, attr, BoolType, text) == Ok(VBool(text.Some? && Lower(text.value) == "true"))
  {
    if text.None? {
      assert Lower("") == "";
    }
  }

  /** `int` reads back every integer Python prints. */
  lemma CoerceIntRoundTrip(opts: Options, cls: ClassName, attr: string, n: int)
    ensures Coerce(opts, cls, attr, IntType, Some(ShowInt(n))) == Ok(VInt(n))
  {
    ParseShowInt(n);
  }

  /** `str` keeps present text as it is. */
  lemma CoerceStr(opts: Options, cls: ClassName, attr: string, t: string)
    ensures Coerce(opts, cls, attr, StrType, Some(t)) == Ok(VStr(t))
    ensures Coerce(opts, cls, attr, OtherType, Some(t)) == Ok(VStr(t))
  {
  }

  /** Without conversion the located value is assigned as it is, None
      included. */
  lemma NoConversionRaw(opts: Options, cls: ClassName, def: ClassDef, attr: string, text: Option<string>)
    requires !opts.convertTypes
    ensures ScalarEffect(opts, cls, def, attr, text) == Assign(RawValue(text))
    ensures text.None? ==> ScalarEffect(opts, cls, def, attr, text) == Assign(VNone)
  {
  }

  /** With conversion on, an attribute without a type hint raises `KeyError`. */
  lemma MissingHintRaises(opts: Options, cls: ClassName, def: ClassDef, attr: string, text: Option<string>)
    requires opts.convertTypes && attr !in def.hints
    ensures ScalarEffect(opts, cls, def, attr, text) == Raise(KeyError(cls, attr))
  {
  }

  // ---------------------------------------------------------------------
  // Effects of whole entries

  /** An entry leaves its attribute unassigned exactly when the child it
      reads is absent: a string entry whose child tag is missing, or a single
      `Field` whose child is missing. A `FieldGroup` and a list `Field` never
      skip. */
  lemma SkipOnlyWhenAbsent(reg: Registry, opts: Options, cls: ClassName, e: Element, warn: bool,
                           vis: set<ClassName>, attr: string, entry: Entry)
    requires cls in reg && cls !in vis
    ensures Step(reg, opts, cls, e, warn, vis, attr, entry).effect == Skip <==>
      || (entry.Path? && Locate(e, entry.path) == Absent)
      || (&& entry.FieldEntry? && !entry.field.isParent
          && FieldName(reg, entry.field).Ok? && FieldName(reg, entry.field).value != ""
          && Find(e, FieldName(reg, entry.field).value).None?)
    ensures entry.GroupEntry? || (entry.FieldEntry? && entry.field.isParent) ==>
      Step(reg, opts, cls, e, warn, vis, attr, entry).effect != Skip
  {
    var s := Step(reg, opts, cls, e, warn, vis, attr, entry);
    if entry.Path? && Locate(e, entry.path).Found? {
      assert ScalarEffect(opts, cls, reg[cls], attr, Locate(e, entry.path).text) != Skip;
    }
  }

  /** A value that is neither a string nor a `BaseField` raises `TypeError`;
      a bare `BaseField` fails as soon as it is used as a string. */
  lemma BadEntriesRaise(reg: Registry, opts: Options, cls: ClassName, e: Element, warn: bool,
                        vis: set<ClassName>, attr: string, entry: Entry)
    requires cls in reg && cls !in vis
    ensures !PassesTypeCheck(entry) ==> Step(reg, opts, cls, e, warn, vis, attr, entry) == Stepped(Raise(TypeError(cls, attr)), [])
    ensures entry.BaseEntry? ==> Step(reg, opts, cls, e, warn, vis, attr, entry).effect.Raise?
  {
    DescriptorsPassTypeCheck(entry);
  }

  /** A `FieldGroup` decodes its target from the same element, with the
      untracked report switched off, and always assigns the result unless
      that decode raises. */
  lemma GroupFromSameElement(reg: Registry, opts: Options, cls: ClassName, e: Element, warn: bool,
                             vis: set<ClassName>, attr: string, g: ClassName)
    requires cls in reg && cls !in vis && g != cls && g !in vis
    ensures var d := Decode(reg, opts, g, e, false, vis + {cls});
      && (d.result.Ok? ==> Step(reg, opts, cls, e, warn, vis, attr, GroupEntry(Some(g))) == Stepped(Assign(VObj(d.result.value)), d.warnings))
      && (d.result.Err? ==> Step(reg, opts, cls, e, warn, vis, attr, GroupEntry(Some(g))) == Stepped(Raise(d.result.error), d.warnings))
  {
  }

  /** A group that leads back to a class already being decoded from this
      element recurses without end. */
  lemma GroupCycleRaises(reg: Registry, opts: Options, cls: ClassName, e: Element, warn: bool,
                         vis: set<ClassName>, attr: string, g: ClassName)
    requires cls in reg && cls !in vis && (g == cls || g in vis)
    ensures Step(reg, opts, cls, e, warn, vis, attr, GroupEntry(Some(g))).effect == Raise(RecursionError(g))
  {
  }

  /** A single `Field(X)` or `Field(X, tag=t)` reads the first child tagged
      with the override, else with X's XML tag; it is skipped when that child
      is absent, and otherwise holds X decoded from that child. */
  lemma SingleField(reg: Registry, opts: Options, cls: ClassName, e: Element, warn: bool,
                    vis: set<ClassName>, attr: string, f: Field)
    requires cls in reg && cls !in vis
    requires !f.isParent && f.target.Some? && f.target.value in reg
    ensures var name := if f.tag.Some? && f.tag.value != "" then f.tag.value else XmlTag(f.target.value, reg[f.target.value]);
      && (name != "" && Find(e, name).None? ==> Step(reg, opts, cls, e, warn, vis, attr, FieldEntry(f)) == Stepped(Skip, []))
      && (name != "" && Find(e, name).Some? ==>
            var d := Decode(reg, opts, f.target.value, Find(e, name).value, warn, {});
            Step(reg, opts, cls, e, warn, vis, attr, FieldEntry(f)) == Stepped(ToEffect(d.result), d.warnings))
  {
  }

  /** A list `Field` always assigns a list, built from every `container/item`
      match in document order, unless an item raises. */
  lemma ListFieldStep(reg: Registry, opts: Options, cls: ClassName, e: Element, warn: bool,
                      vis: set<ClassName>, attr: string, container: string, item: ClassName)
    requires cls in reg && cls !in vis && container != "" && item in reg
    ensures var dl := DecodeItems(reg, opts, item, e, warn, FindPath(e, container, XmlTag(item, reg[item])), 0, [], []);
      Step(reg, opts, cls, e, warn, vis, attr, FieldEntry(ListField(container, item))) == Stepped(ListEffect(dl.result), dl.warnings)
  {
  }

  /** The list comprehension succeeds exactly when every item decodes, and
      then holds one decoded item per match, in order. */
  lemma DecodeItemsOutcome(reg: Registry, opts: Options, item: ClassName, parent: Element, warn: bool,
                           matches: seq<Element>, k: nat, acc: seq<Instance>, ws: seq<Warning>)
    requires k <= |matches|
    requires forall x | x in matches :: Size(x) < Size(parent)
    ensures var dl := DecodeItems(reg, opts, item, parent, warn, matches, k, acc, ws);
      && (dl.result.Ok? <==> forall m | k <= m < |matches| :: Decode(reg, opts, item, matches[m], warn, {}).result.Ok?)
      && (dl.result.Ok? ==>
            && |dl.result.value| == |acc| + |matches| - k
            && dl.result.value[..|acc|] == acc
            && forall m | k <= m < |matches| :: dl.result.value[|acc| + m - k] == Decode(reg, opts, item, matches[m], warn, {}).result.value)
  {
    DecodeItemsSucceeds(reg, opts, item, parent, warn, matches, k, acc, ws);
    if DecodeItems(reg, opts, item, parent, warn, matches, k, acc, ws).result.Ok? {
      DecodeItemsValues(reg, opts, item, parent, warn, matches, k, acc, ws);
    }
  }

  lemma {:induction false} DecodeItemsSucceeds(reg: Registry, opts: Options, item: ClassName, parent: Element, warn: bool,
                                               matches: seq<Element>, k: nat, acc: seq<Instance>, ws: seq<Warning>)
    requires k <= |matches|
    requires forall x | x in matches :: Size(x) < Size(parent)
    ensures DecodeItems(reg, opts, item, parent, warn, matches, k, acc, ws).result.Ok?
        <==> forall m | k <= m < |matches| :: Decode(reg, opts, item, matches[m], warn, {}).result.Ok?
    decreases |matches| - k
  {
    if k < |matches| {
      var d := Decode(reg, opts, item, matches[k], warn, {});
      var dl := DecodeItems(reg, opts, item, parent, warn, matches, k, acc, ws);
      if d.result.Ok? {
        var acc' := acc + [d.result.value];
        DecodeItemsSucceeds(reg, opts, item, parent, warn, matches, k + 1, acc', ws + d.warnings);
        assert dl == DecodeItems(reg, opts, item, parent, warn, matches, k + 1, acc', ws + d.warnings);
        assert (forall m | k <= m < |matches| :: Decode(reg, opts, item, matches[m], warn, {}).result.Ok?)
           <==> (forall m | k + 1 <= m < |matches| :: Decode(reg, opts, item, matches[m], warn, {}).result.Ok?);
      } else {
        assert dl.result.Err?;
      }
    }
  }

  lemma {:induction false} DecodeItemsValues(reg: Registry, opts: Options, item: ClassName, parent: Element, warn: bool,
                                             matches: seq<Element>, k: nat, acc: seq<Instance>, ws: seq<Warning>)
    requires k <= |matches|
    requires forall x | x in matches :: Size(x) < Size(parent)
    requires DecodeItems(reg, opts, item, parent, warn, matches, k, acc, ws).result.Ok?
    ensures var r := DecodeItems(reg, opts, item, parent, warn, matches, k, acc, ws).result.value;
      && |r| == |acc| + |matches| - k
      && r[..|acc|] == acc
      && forall m | k <= m < |matches| ::
           Decode(reg, opts, item, matches[m], warn, {}).result.Ok?
           && r[|acc| + m - k] == Decode(reg, opts, item, matches[m], warn, {}).result.value
    decreases |matches| - k
  {
    if k < |matches| {
      var d := Decode(reg, opts, item, matches[k], warn, {});
      var dl := DecodeItems(reg, opts, item, parent, warn, matches, k, acc, ws);
      assert d.result.Ok?;
      var acc' := acc + [d.result.value];
      assert dl == DecodeItems(reg, opts, item, parent, warn, matches, k + 1, acc', ws + d.warnings);
      DecodeItemsValues(reg, opts, item, parent, warn, matches, k + 1, acc', ws + d.warnings);
      var r := dl.result.value;
      assert r[..|acc'|] == acc';
      assert r[..|acc|] == r[..|acc'|][..|acc|] == acc;
      assert r[|acc|] == r[..|acc'|][|acc|] == d.result.value;
      forall m | k <= m < |matches|
        ensures Decode(reg, opts, item, matches[m], warn, {}).result.Ok?
        ensures r[|acc| + m - k] == Decode(reg, opts, item, matches[m], warn, {}).result.value
      {
        if m > k {
          assert |acc'| + m - (k + 1) == |acc| + m - k;
        }
      }
    }
  }

  /** With no container child the list is empty, and still assigned. */
  lemma ListWithoutContainer(reg: Registry, opts: Options, cls: ClassName, e: Element, warn: bool,
                             vis: set<ClassName>, attr: string, container: string, item: ClassName)
    requires cls in reg && cls !in vis && container != "" && item in reg
    requires forall c | c in e.children :: c.tag != container
    ensures Step(reg, opts, cls, e, warn, vis, attr, FieldEntry(ListField(container, item))) == Stepped(Assign(VList([])), [])
  {
    PathWithoutContainers(e, container, XmlTag(item, reg[item]));
    ListFieldStep(reg, opts, cls, e, warn, vis, attr, container, item);
  }
}
