/**
  `XMLMapper.__hash__` (mapper.py:37-41): the hash of the tuple made of the
  instance's type followed by the values of its `__dict__`, in order, with
  lists turned into tuples. `HashKey` is that tuple with Python's numeric
  hashing made explicit: `True`, `1` and `1.0` hash alike because they are
  equal numbers. Python's `hash` is a function of this key.
 */
module Hashing {
  import opened Fields
  import opened Mapper

  datatype HashItem =
    | HNone
    | HNum(n: real)
    | HStr(s: string)
    | HObj(key: HashKey)
    | HTuple(keys: seq<HashKey>)

  datatype HashKey = HashKey(cls: ClassName, items: seq<HashItem>)

  /** The number a `bool`, `int` or `float` stands for. */
  function NumberOf(v: Value): real
    requires v.VBool? || v.VInt? || v.VFloat?
  {
    match v
    case VBool(b) => if b then 1.0 else 0.0
    case VInt(i) => i as real
    case VFloat(r) => r
  }

  function ItemKey(v: Value): HashItem
    decreases v, 0
  {
    match v
    case VNone => HNone
    case VBool(_) => HNum(NumberOf(v))
    case VInt(_) => HNum(NumberOf(v))
    case VFloat(_) => HNum(NumberOf(v))
    case VStr(s) => HStr(s)
    case VObj(o) => HObj(Key(o))
    case VList(os) => HTuple(seq(|os|, i requires 0 <= i < |os| => Key(os[i])))
  }

  /** `(type(self),) + tuple(values)`. */
  function Key(o: Instance): HashKey
    decreases o, 2
  {
    HashKey(o.cls, seq(|o.attrs|, i requires 0 <= i < |o.attrs| => ItemKey(o.attrs[i].1)))
  }

  // ---------------------------------------------------------------------
  // When two instances hash alike, stated without the key

  predicate IsNumber(v: Value) { v.VBool? || v.VInt? || v.VFloat? }

  /** Two attribute values that Python's hash cannot tell apart. */
  predicate SameValue(v: Value, w: Value)
    decreases v, 0
  {
    if IsNumber(v) || IsNumber(w) then IsNumber(v) && IsNumber(w) && NumberOf(v) == NumberOf(w)
    else match v
      case VNone => w.VNone?
      case VStr(s) => w == VStr(s)
      case VObj(o) => w.VObj? && SameInstance(o, w.obj)
      case VList(os) =>
        w.VList? && |os| == |w.items| && forall i | 0 <= i < |os| :: SameInstance(os[i], w.items[i])
  }

  /** Same class, and pairwise the same values in the same order; the
      attribute names play no part. */
  predicate SameInstance(o: Instance, p: Instance)
    decreases o, 2
  {
    o.cls == p.cls && |o.attrs| == |p.attrs|
    && forall i | 0 <= i < |o.attrs| :: SameValue(o.attrs[i].1, p.attrs[i].1)
  }

  lemma {:induction false} ItemKeyExact(v: Value, w: Value)
    ensures ItemKey(v) == ItemKey(w) <==> SameValue(v, w)
    decreases v, 0
  {
    match v
    case VObj(o) =>
      if w.VObj? { KeyExact(o, w.obj); }
    case VList(os) =>
      if w.VList? {
        var ks, ls := ItemKey(v).keys, ItemKey(w).keys;
        assert |ks| == |os| && |ls| == |w.items|;
        if |os| == |w.items| {
          forall i | 0 <= i < |os|
            ensures ks[i] == ls[i] <==> SameInstance(os[i], w.items[i])
          {
            assert ks[i] == Key(os[i]) && ls[i] == Key(w.items[i]);
            KeyExact(os[i], w.items[i]);
          }
          if SameValue(v, w) {
            assert ks == ls;
          }
        }
      }
    case _ =>
  }

  /** Two instances have the same hash key exactly when they are of the same
      class and hold values Python hashes alike, in the same order. */
  lemma {:induction false} KeyExact(o: Instance, p: Instance)
    ensures Key(o) == Key(p) <==> SameInstance(o, p)
    decreases o, 2
  {
    var ks, ls := Key(o).items, Key(p).items;
    assert |ks| == |o.attrs| && |ls| == |p.attrs|;
    if o.cls == p.cls && |o.attrs| == |p.attrs| {
      forall i | 0 <= i < |o.attrs|
        ensures ks[i] == ls[i] <==> SameValue(o.attrs[i].1, p.attrs[i].1)
      {
        assert ks[i] == ItemKey(o.attrs[i].1) && ls[i] == ItemKey(p.attrs[i].1);
        ItemKeyExact(o.attrs[i].1, p.attrs[i].1);
      }
      if SameInstance(o, p) {
        assert ks == ls;
      }
    }
  }

  /** Renaming attributes does not change the hash; `True`, `1` and `1.0`
      hash alike, while `1` and `"1"` do not. */
  lemma NamesAndNumericTypesIgnored(c: ClassName)
    ensures Key(Instance(c, [("paid", VBool(true))])) == Key(Instance(c, [("count", VInt(1))]))
    ensures Key(Instance(c, [("count", VInt(1))])) == Key(Instance(c, [("amount", VFloat(1.0))]))
    ensures Key(Instance(c, [("count", VInt(1))])) != Key(Instance(c, [("count", VStr("1"))]))
    ensures Key(Instance(c, [])) != Key(Instance(c, [("x", VNone)]))
  {
    assert Key(Instance(c, [("paid", VBool(true))])).items == [HNum(1.0)];
    assert Key(Instance(c, [("count", VInt(1))])).items == [HNum(1.0)];
    assert Key(Instance(c, [("amount", VFloat(1.0))])).items == [HNum(1.0)];
    assert Key(Instance(c, [("count", VStr("1"))])).items == [HStr("1")];
    assert Key(Instance(c, [("x", VNone)])).items == [HNone];
  }
}
