/**
  The decoding engine of `XMLMapper` (common/mapper.py) as specification
  functions: a class is looked up in a registry of mapping tables, the
  expected child tags are collected, unexpected children are reported, and
  the table is walked in declaration order, each entry producing one effect
  on the new instance.
 */
module Mapper {
  import opened Wrappers
  import opened Exceptions
  import opened Etree
  import opened PyText
  import opened Fields

  /** The declared type of an attribute, as the coercion step classifies its
      type hint: `bool`, `int`, `float` and `str` (bare or inside brackets, as
      in `Optional[int]`), and everything else. */
  datatype Scalar = BoolType | IntType | FloatType | StrType | OtherType

  /** The Python values a decoded attribute can hold. */
  datatype Value =
    | VNone
    | VBool(b: bool)
    | VInt(i: int)
    | VFloat(r: real)
    | VStr(s: string)
    | VObj(obj: Instance)
    | VList(items: seq<Instance>)

  /** A decoded object: its class and its `__dict__`, in insertion order. */
  datatype Instance = Instance(cls: ClassName, attrs: seq<(string, Value)>)

  /** A `__xml_mapping__` table, in declaration order. */
  type Table = seq<(string, Entry)>

  /** What the decoder reads from a class: `__xml_name__`, `__xml_mapping__`
      (None when the class does not define one), the resolved type hints and
      the class-level defaults. */
  datatype ClassDef = ClassDef(
    xmlName: string,
    mapping: Option<Table>,
    hints: map<string, Scalar>,
    defaults: map<string, Value>)

  /** The `XMLMapper` subclasses by name. A name that is absent stands for a
      class that is not an `XMLMapper`. */
  type Registry = map<ClassName, ClassDef>

  /** `convert_types`, and the `float()` parser, which the model does not fix. */
  datatype Options = Options(convertTypes: bool, parseFloat: string -> Option<real>)

  /** The advisory report printed for one class: its name and the untracked
      child tags. */
  datatype Warning = Warning(cls: ClassName, untracked: seq<string>)

  /** The result of one decode, with every warning printed on the way, also
      when the decode ends in an exception. */
  datatype Decoded = Decoded(result: Result<Instance, Error>, warnings: seq<Warning>)
  datatype DecodedList = DecodedList(result: Result<seq<Instance>, Error>, warnings: seq<Warning>)

  /** What one table entry does to the instance. */
  datatype Effect = Skip | Assign(value: Value) | Raise(error: Error)
  datatype Stepped = Stepped(effect: Effect, warnings: seq<Warning>)

  // ---------------------------------------------------------------------
  // The instance dictionary

  function Names(a: seq<(string, Value)>): (r: seq<string>)
    ensures |r| == |a| && forall i | 0 <= i < |a| :: r[i] == a[i].0
  {
    if a == [] then [] else [a[0].0] + Names(a[1..])
  }

  /** `obj.__dict__.get(k)`. */
  function Lookup(a: seq<(string, Value)>, k: string): (r: Option<Value>)
    ensures r.None? <==> k !in Names(a)
    ensures r.Some? ==> (k, r.value) in a
  {
    if a == [] then None
    else if a[0].0 == k then Some(a[0].1)
    else Lookup(a[1..], k)
  }

  /** `setattr` on a plain object: an existing key keeps its place, a new key
      goes last. */
  function SetIn(a: seq<(string, Value)>, k: string, v: Value): (r: seq<(string, Value)>)
    ensures Lookup(r, k) == Some(v)
    ensures forall k' | k' != k :: Lookup(r, k') == Lookup(a, k')
  {
    if a == [] then [(k, v)]
    else if a[0].0 == k then
      ConsFacts((k, v), a[1..]);
      [(k, v)] + a[1..]
    else
      var r := SetIn(a[1..], k, v);
      ConsFacts(a[0], r);
      [a[0]] + r
  }

  /** An existing key keeps its place; a new key is appended. */
  lemma {:induction false} NamesSetIn(a: seq<(string, Value)>, k: string, v: Value)
    ensures Names(SetIn(a, k, v)) == if k in Names(a) then Names(a) else Names(a) + [k]
  {
    if a == [] {
    } else {
      var r := SetIn(a, k, v);
      NamesCons(a[0], a[1..]);
      assert a == [a[0]] + a[1..];
      if a[0].0 == k {
        NamesCons((k, v), a[1..]);
      } else {
        var r' := SetIn(a[1..], k, v);
        NamesSetIn(a[1..], k, v);
        NamesCons(a[0], r');
        assert r == [a[0]] + r';
        assert k in Names(a) <==> k in Names(a[1..]);
        if k !in Names(a[1..]) {
          assert Names(r) == [a[0].0] + (Names(a[1..]) + [k]);
        }
      }
    }
  }

  /** `setattr` of a name the object does not hold yet appends it. */
  lemma {:induction false} SetInAppends(a: seq<(string, Value)>, k: string, v: Value)
    requires k !in Names(a)
    ensures SetIn(a, k, v) == a + [(k, v)]
  {
    if a != [] {
      NamesCons(a[0], a[1..]);
      assert a == [a[0]] + a[1..];
      assert a[0].0 != k && k !in Names(a[1..]);
      SetInAppends(a[1..], k, v);
      assert SetIn(a, k, v) == [a[0]] + SetIn(a[1..], k, v);
      assert [a[0]] + (a[1..] + [(k, v)]) == a + [(k, v)];
    }
  }

  lemma NamesCons(x: (string, Value), rest: seq<(string, Value)>)
    ensures Names([x] + rest) == [x.0] + Names(rest)
  {
    assert ([x] + rest)[1..] == rest;
  }

  lemma ConsFacts(x: (string, Value), rest: seq<(string, Value)>)
    ensures ([x] + rest)[1..] == rest
    ensures Names([x] + rest) == [x.0] + Names(rest)
    ensures forall k :: Lookup([x] + rest, k) == if x.0 == k then Some(x.1) else Lookup(rest, k)
  {
    assert ([x] + rest)[1..] == rest;
  }

  function SetAttr(o: Instance, k: string, v: Value): (r: Instance)
    ensures r.cls == o.cls
    ensures Lookup(r.attrs, k) == Some(v)
    ensures forall k' | k' != k :: Lookup(r.attrs, k') == Lookup(o.attrs, k')
  {
    o.(attrs := SetIn(o.attrs, k, v))
  }

  /** `getattr(obj, k)`: the instance dictionary first, then the class
      attribute; None where Python raises `AttributeError`. */
  function Get(def: ClassDef, o: Instance, k: string): (r: Option<Value>)
    ensures Lookup(o.attrs, k).Some? ==> r == Lookup(o.attrs, k)
    ensures Lookup(o.attrs, k).None? && k in def.defaults ==> r == Some(def.defaults[k])
    ensures r.None? <==> Lookup(o.attrs, k).None? && k !in def.defaults
  {
    match Lookup(o.attrs, k)
    case Some(v) => Some(v)
    case None => if k in def.defaults then Some(def.defaults[k]) else None
  }

  // ---------------------------------------------------------------------
  // Tags

  /** `_get_xml_tag`: `__xml_name__` when it is non-empty, else the class name. */
  function XmlTag(c: ClassName, def: ClassDef): (t: string)
    ensures def.xmlName != "" ==> t == def.xmlName
    ensures def.xmlName == "" ==> t == c
  {
    if def.xmlName != "" then def.xmlName else c
  }

  /** `target._get_xml_tag()` on a descriptor's target, which fails on None
      and on a class that is not an `XMLMapper`. */
  function TagOf(reg: Registry, target: Option<ClassName>): (r: Result<string, Error>)
    ensures target.Some? && target.value in reg ==> r == Ok(XmlTag(target.value, reg[target.value]))
    ensures r.Err? <==> target.None? || target.value !in reg
  {
    if target.None? then Err(AttributeError("NoneType"))
    else if target.value !in reg then Err(AttributeError(target.value))
    else Ok(XmlTag(target.value, reg[target.value]))
  }

  /** The string values of a table; the other values of a group's table can
      never equal a child tag. */
  function PathValues(t: Table): (r: seq<string>)
    ensures forall x :: x in r <==> exists i | 0 <= i < |t| :: t[i].1 == Path(x)
  {
    if t == [] then []
    else (if t[0].1.Path? then [t[0].1.path] else []) + PathValues(t[1..])
  }

  /** What one table value adds to the expected-tag list (mapper.py:95-106). */
  function Contribution(reg: Registry, e: Entry): Result<seq<string>, Error> {
    match e
    case Path(p) => Ok([p])
    case GroupEntry(g) =>
      if g.None? then Err(AttributeError("NoneType"))
      else if g.value !in reg then Err(AttributeError(g.value))
      else if reg[g.value].mapping.None? then Err(AttributeError("NoneType"))
      else Ok(PathValues(reg[g.value].mapping.value))
    case FieldEntry(f) =>
      if f.isParent then Ok(if f.tag.Some? then [f.tag.value] else [])
      else if f.tag.Some? && f.tag.value != "" then Ok([f.tag.value])
      else
        (match TagOf(reg, f.target)
         case Ok(t) => Ok([t])
         case Err(x) => Err(x))
    case BaseEntry(_) => Ok([])
    case Foreign => Ok([])
  }

  /** The expected-tag loop from entry `i` on, with the tags gathered so far. */
  function CollectFrom(reg: Registry, t: Table, i: nat, acc: seq<string>): Result<seq<string>, Error>
    requires i <= |t|
    decreases |t| - i
  {
    if i == |t| then Ok(acc)
    else
      match Contribution(reg, t[i].1)
      case Err(x) => Err(x)
      case Ok(c) => CollectFrom(reg, t, i + 1, acc + c)
  }

  function ExpectedTags(reg: Registry, t: Table): Result<seq<string>, Error> {
    CollectFrom(reg, t, 0, [])
  }

  /** The tags of the direct children that are not expected, in document
      order and with repetitions. */
  function Untracked(children: seq<Element>, expected: seq<string>): seq<string> {
    if children == [] then []
    else
      var head := if children[0].tag in expected then [] else [children[0].tag];
      head + Untracked(children[1..], expected)
  }

  /** The warning is printed only for a non-empty list and when warnings
      are on. */
  function WarnFor(cls: ClassName, untracked: seq<string>, warn: bool): (w: seq<Warning>)
    ensures |w| <= 1
    ensures w != [] <==> untracked != [] && warn
    ensures w != [] ==> w[0] == Warning(cls, untracked)
  {
    if untracked != [] && warn then [Warning(cls, untracked)] else []
  }

  // ---------------------------------------------------------------------
  // Scalar entries

  /** Where a string entry finds its text. */
  datatype Located = Absent | Found(text: Option<string>) | EmptyPath

  /** `@name` reads an attribute (named by the entry without its first
      character), `#TEXT` in any case reads the element's own text, and any
      other string reads the text of the first child with that tag. */
  function Locate(e: Element, p: string): Located {
    if StartsWith(Strip(p), "@") then Found(e.Get(p[1..]))
    else if Upper(Strip(p)) == "#TEXT" then Found(e.text)
    else if p == "" then EmptyPath
    else
      match Find(e, p)
      case None => Absent
      case Some(c) => Found(c.text)
  }

  /** The raw value, assigned when conversion is off. */
  function RawValue(text: Option<string>): (v: Value)
    ensures text.None? <==> v == VNone
    ensures text.Some? ==> v == VStr(text.value)
  {
    if text.None? then VNone else VStr(text.value)
  }

  /** The type conversion of mapper.py:180-213. */
  function Coerce(opts: Options, cls: ClassName, attr: string, hint: Scalar, text: Option<string>): Result<Value, Error> {
    match hint
    case BoolType => Ok(VBool(Lower(text.GetOr("")) == "true"))
    case IntType =>
      if text.None? then Ok(VInt(0))
      else
        (match ParseInt(text.value)
         case Some(n) => Ok(VInt(n))
         case None => Err(TypeConversionError(cls, attr, text.value, "int")))
    case FloatType =>
      if text.None? then Ok(VFloat(0.0))
      else
        (match opts.parseFloat(text.value)
         case Some(x) => Ok(VFloat(x))
         case None => Err(TypeConversionError(cls, attr, text.value, "float")))
    case StrType => Ok(VStr(text.GetOr("")))
    case OtherType => Ok(RawValue(text))
  }

  /** A string entry once its text is located. */
  function ScalarEffect(opts: Options, cls: ClassName, def: ClassDef, attr: string, text: Option<string>): Effect {
    if !opts.convertTypes then Assign(RawValue(text))
    else if attr !in def.hints then Raise(KeyError(cls, attr))
    else
      match Coerce(opts, cls, attr, def.hints[attr], text)
      case Ok(v) => Assign(v)
      case Err(x) => Raise(x)
  }

  /** The container tag of a `Field`: the `tag` override when it is set and
      non-empty, else the target's XML tag, else "". */
  function FieldName(reg: Registry, f: Field): Result<string, Error> {
    if f.tag.Some? && f.tag.value != "" then Ok(f.tag.value)
    else if f.target.Some? then TagOf(reg, f.target)
    else Ok("")
  }

  // ---------------------------------------------------------------------
  // Decoding

  lemma FewerUnvisited(keys: set<ClassName>, vis: set<ClassName>, c: ClassName)
    requires c in keys && c !in vis
    ensures |keys - (vis + {c})| < |keys - vis|
  {
    var rest := keys - (vis + {c});
    assert keys - vis == rest + {c};
    assert c !in rest;
  }

  function ToEffect(r: Result<Instance, Error>): Effect {
    match r
    case Ok(o) => Assign(VObj(o))
    case Err(x) => Raise(x)
  }

  function ListEffect(r: Result<seq<Instance>, Error>): Effect {
    match r
    case Ok(objs) => Assign(VList(objs))
    case Err(x) => Raise(x)
  }

  /** `cls.from_xml(e, convert_types, _warn_untracked=warn)`. `vis` holds the
      classes whose decode of this same element is in progress through
      `FieldGroup`s; meeting one of them again is unbounded recursion. */
  function Decode(reg: Registry, opts: Options, cls: ClassName, e: Element, warn: bool, vis: set<ClassName>): Decoded
    requires cls !in vis
    decreases Size(e), |reg.Keys - vis|, 4, 0
  {
    if cls !in reg then Decoded(Err(AttributeError(cls)), [])
    else if reg[cls].mapping.None? then Decoded(Err(NotImplementedError(cls)), [])
    else
      match ExpectedTags(reg, reg[cls].mapping.value)
      case Err(x) => Decoded(Err(x), [])
      case Ok(expected) =>
        ApplyEntries(reg, opts, cls, e, warn, vis, 0, Instance(cls, []),
          WarnFor(cls, Untracked(e.children, expected), warn))
  }

  /** The mapping loop from entry `i` on, with the instance built so far and
      the warnings printed so far. */
  function ApplyEntries(reg: Registry, opts: Options, cls: ClassName, e: Element, warn: bool,
                        vis: set<ClassName>, i: nat, o: Instance, ws: seq<Warning>): Decoded
    requires cls in reg && reg[cls].mapping.Some? && cls !in vis
    requires i <= |reg[cls].mapping.value|
    decreases Size(e), |reg.Keys - vis|, 3, |reg[cls].mapping.value| - i
  {
    var t := reg[cls].mapping.value;
    if i == |t| then Decoded(Ok(o), ws)
    else
      var s := Step(reg, opts, cls, e, warn, vis, t[i].0, t[i].1);
      match s.effect
      case Raise(x) => Decoded(Err(x), ws + s.warnings)
      case Skip => ApplyEntries(reg, opts, cls, e, warn, vis, i + 1, o, ws + s.warnings)
      case Assign(v) => ApplyEntries(reg, opts, cls, e, warn, vis, i + 1, SetAttr(o, t[i].0, v), ws + s.warnings)
  }

  /** One pass of the mapping loop body for the entry `attr: entry`. */
  function Step(reg: Registry, opts: Options, cls: ClassName, e: Element, warn: bool,
                vis: set<ClassName>, attr: string, entry: Entry): Stepped
    requires cls in reg && cls !in vis
    decreases Size(e), |reg.Keys - vis|, 2, 0
  {
    match entry
    case Foreign => Stepped(Raise(TypeError(cls, attr)), [])
    case BaseEntry(_) => Stepped(Raise(AttributeError("BaseField")), [])
    case GroupEntry(g) =>
      if g.None? then Stepped(Raise(AttributeError("NoneType")), [])
      else if g.value == cls || g.value in vis then Stepped(Raise(RecursionError(g.value)), [])
      else
        FewerUnvisited(reg.Keys, vis, cls);
        var d := Decode(reg, opts, g.value, e, false, vis + {cls});
        Stepped(ToEffect(d.result), d.warnings)
    case FieldEntry(f) =>
      FieldStep(reg, opts, cls, e, warn, vis, attr, f)
    case Path(p) =>
      Stepped(PathEffect(opts, cls, reg[cls], e, attr, p), [])
  }

  /** The `str` branch of the mapping loop (mapper.py:157-213). */
  function PathEffect(opts: Options, cls: ClassName, def: ClassDef, e: Element, attr: string, p: string): Effect {
    match Locate(e, p)
    case EmptyPath => Raise(XPathError(cls, attr))
    case Absent => Skip
    case Found(text) => ScalarEffect(opts, cls, def, attr, text)
  }

  /** The `Field` branch of the mapping loop (mapper.py:130-156). */
  function FieldStep(reg: Registry, opts: Options, cls: ClassName, e: Element, warn: bool,
                     vis: set<ClassName>, attr: string, f: Field): Stepped
    requires cls in reg && cls !in vis
    decreases Size(e), |reg.Keys - vis|, 1, 0
  {
    match FieldName(reg, f)
    case Err(x) => Stepped(Raise(x), [])
    case Ok(name) =>
      if f.isParent then
        if f.child.None? then Stepped(Raise(AttributeError("NoneType")), [])
        else
          (match TagOf(reg, f.child.value.target)
           case Err(x) => Stepped(Raise(x), [])
           case Ok(itemTag) =>
             if name == "" then Stepped(Raise(XPathError(cls, attr)), [])
             else
               var dl := DecodeItems(reg, opts, f.child.value.target.value, e, warn,
                                     FindPath(e, name, itemTag), 0, [], []);
               Stepped(ListEffect(dl.result), dl.warnings))
      else if name == "" then Stepped(Raise(XPathError(cls, attr)), [])
      else
        match Find(e, name)
        case None => Stepped(Skip, [])
        case Some(c) =>
          if f.target.None? then Stepped(Raise(AttributeError("NoneType")), [])
          else
            ChildSmaller(e, c);
            var d := Decode(reg, opts, f.target.value, c, warn, {});
            Stepped(ToEffect(d.result), d.warnings)
  }

  /** The list comprehension over the `container/item` matches, from match
      `k` on. */
  function DecodeItems(reg: Registry, opts: Options, item: ClassName, parent: Element, warn: bool,
                       matches: seq<Element>, k: nat, acc: seq<Instance>, ws: seq<Warning>): DecodedList
    requires k <= |matches|
    requires forall x | x in matches :: Size(x) < Size(parent)
    decreases Size(parent), 0, 0, |matches| - k
  {
    if k == |matches| then DecodedList(Ok(acc), ws)
    else
      var d := Decode(reg, opts, item, matches[k], warn, {});
      match d.result
      case Err(x) => DecodedList(Err(x), ws + d.warnings)
      case Ok(o) => DecodeItems(reg, opts, item, parent, warn, matches, k + 1, acc + [o], ws + d.warnings)
  }
}
