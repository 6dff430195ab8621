/**
  `XMLMapper.from_xml` as the source writes it: a loop that appends to the
  expected-tag list, a fresh instance, and a loop over the mapping table that
  sets one attribute per entry. Each method is proved equal to its
  specification function in `Mapper`.
 */
module Decoder {
  import opened Wrappers
  import opened Exceptions
  import opened Etree
  import opened PyText
  import opened Fields
  import opened Mapper

  method FromXml(reg: Registry, opts: Options, cls: ClassName, e: Element, warn: bool, vis: set<ClassName>)
    returns (d: Decoded)
    requires cls !in vis
    ensures d == Decode(reg, opts, cls, e, warn, vis)
    decreases Size(e), |reg.Keys - vis|, 4, 0
  {
    if cls !in reg {
      return Decoded(Err(AttributeError(cls)), []);
    }
    var def := reg[cls];
    if def.mapping.None? {
      return Decoded(Err(NotImplementedError(cls)), []);
    }
    var table := def.mapping.value;

    var childTags: seq<string> := [];
    var i := 0;
    while i < |table|
      invariant 0 <= i <= |table|
      invariant CollectFrom(reg, table, i, childTags) == ExpectedTags(reg, table)
    {
      var c := Contribution(reg, table[i].1);
      if c.Err? {
        return Decoded(Err(c.error), []);
      }
      childTags := childTags + c.value;
      i := i + 1;
    }

    var untracked := Untracked(e.children, childTags);
    var warnings := WarnFor(cls, untracked, warn);

    var obj := Instance(cls, []);
    i := 0;
    while i < |table|
      invariant 0 <= i <= |table|
      invariant ApplyEntries(reg, opts, cls, e, warn, vis, i, obj, warnings) == Decode(reg, opts, cls, e, warn, vis)
    {
      var attr := table[i].0;
      var s := ReadEntry(reg, opts, cls, e, warn, vis, attr, table[i].1);
      warnings := warnings + s.warnings;
      match s.effect {
        case Raise(x) =>
          return Decoded(Err(x), warnings);
        case Skip =>
        case Assign(v) =>
          obj := SetAttr(obj, attr, v);
      }
      i := i + 1;
    }
    return Decoded(Ok(obj), warnings);
  }

  /** The body of the mapping loop for one entry. */
  method ReadEntry(reg: Registry, opts: Options, cls: ClassName, e: Element, warn: bool,
                   vis: set<ClassName>, attr: string, entry: Entry)
    returns (s: Stepped)
    requires cls in reg && cls !in vis
    ensures s == Step(reg, opts, cls, e, warn, vis, attr, entry)
    decreases Size(e), |reg.Keys - vis|, 2, 0
  {
    if !PassesTypeCheck(entry) {
      return Stepped(Raise(TypeError(cls, attr)), []);
    }
    match entry {
      case GroupEntry(g) =>
        if g.None? {
          return Stepped(Raise(AttributeError("NoneType")), []);
        }
        if g.value == cls || g.value in vis {
          return Stepped(Raise(RecursionError(g.value)), []);
        }
        FewerUnvisited(reg.Keys, vis, cls);
        var d := FromXml(reg, opts, g.value, e, false, vis + {cls});
        return Stepped(ToEffect(d.result), d.warnings);

      case FieldEntry(f) =>
        s := ReadField(reg, opts, cls, e, warn, vis, attr, f);

      case BaseEntry(_) =>
        return Stepped(Raise(AttributeError("BaseField")), []);

      case Path(p) =>
        var effect := ReadScalar(opts, cls, reg[cls], e, attr, p);
        return Stepped(effect, []);
    }
  }

  /** The `Field` branch: a nested object, or a list of them. */
  method ReadField(reg: Registry, opts: Options, cls: ClassName, e: Element, warn: bool,
                   vis: set<ClassName>, attr: string, f: Field)
    returns (s: Stepped)
    requires cls in reg && cls !in vis
    ensures s == FieldStep(reg, opts, cls, e, warn, vis, attr, f)
    decreases Size(e), |reg.Keys - vis|, 1, 0
  {
    var name := "";
    if f.tag.Some? && f.tag.value != "" {
      name := f.tag.value;
    } else if f.target.Some? {
      var t := TagOf(reg, f.target);
      if t.Err? {
        return Stepped(Raise(t.error), []);
      }
      name := t.value;
    }
    if f.isParent {
      if f.child.None? {
        return Stepped(Raise(AttributeError("NoneType")), []);
      }
      var itemTag := TagOf(reg, f.child.value.target);
      if itemTag.Err? {
        return Stepped(Raise(itemTag.error), []);
      }
      if name == "" {
        return Stepped(Raise(XPathError(cls, attr)), []);
      }
      var matches := FindPath(e, name, itemTag.value);
      var dl := ReadItems(reg, opts, f.child.value.target.value, e, warn, matches);
      return Stepped(ListEffect(dl.result), dl.warnings);
    } else {
      if name == "" {
        return Stepped(Raise(XPathError(cls, attr)), []);
      }
      var child := Find(e, name);
      if child.None? {
        return Stepped(Skip, []);
      }
      if f.target.None? {
        return Stepped(Raise(AttributeError("NoneType")), []);
      }
      ChildSmaller(e, child.value);
      var d := FromXml(reg, opts, f.target.value, child.value, warn, {});
      return Stepped(ToEffect(d.result), d.warnings);
    }
  }

  /** The `str` branch: locate the text, then convert it. */
  method ReadScalar(opts: Options, cls: ClassName, def: ClassDef, e: Element, attr: string, p: string)
    returns (effect: Effect)
    ensures effect == PathEffect(opts, cls, def, e, attr, p)
  {
    var text: Option<string>;
    if StartsWith(Strip(p), "@") {
      text := e.Get(p[1..]);
    } else if Upper(Strip(p)) == "#TEXT" {
      text := e.text;
    } else {
      if p == "" {
        return Raise(XPathError(cls, attr));
      }
      var child := Find(e, p);
      if child.None? {
        return Skip;
      }
      text := child.value.text;
    }
    assert Locate(e, p) == Found(text);
    assert PathEffect(opts, cls, def, e, attr, p) == ScalarEffect(opts, cls, def, attr, text);
    if !opts.convertTypes {
      return Assign(RawValue(text));
    }
    if attr !in def.hints {
      return Raise(KeyError(cls, attr));
    }
    var converted := Coerce(opts, cls, attr, def.hints[attr], text);
    if converted.Err? {
      return Raise(converted.error);
    }
    return Assign(converted.value);
  }

  /** `[item.from_xml(x, ...) for x in matches]`. */
  method ReadItems(reg: Registry, opts: Options, item: ClassName, parent: Element, warn: bool,
                   matches: seq<Element>)
    returns (dl: DecodedList)
    requires forall x | x in matches :: Size(x) < Size(parent)
    ensures dl == DecodeItems(reg, opts, item, parent, warn, matches, 0, [], [])
    decreases Size(parent), 0, 0, 0
  {
    var objs: seq<Instance> := [];
    var warnings: seq<Warning> := [];
    var k := 0;
    while k < |matches|
      invariant 0 <= k <= |matches|
      invariant DecodeItems(reg, opts, item, parent, warn, matches, k, objs, warnings)
             == DecodeItems(reg, opts, item, parent, warn, matches, 0, [], [])
      decreases |matches| - k
    {
      var d := FromXml(reg, opts, item, matches[k], warn, {});
      warnings := warnings + d.warnings;
      if d.result.Err? {
        return DecodedList(Err(d.result.error), warnings);
      }
      objs := objs + [d.result.value];
      k := k + 1;
    }
    return DecodedList(Ok(objs), warnings);
  }
}
