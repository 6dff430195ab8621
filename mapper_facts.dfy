/**
  What the decoder promises, proved about the specification functions of
  `Mapper`: the effect of each table entry on the decoded instance, the
  expected-tag list and the untracked report.
 */
module MapperFacts {
  import opened Wrappers
  import opened Exceptions
  import opened Etree
  import opened PyText
  import opened Fields
  import opened Mapper

  /** A Python dict has no repeated keys. */
  predicate UniqueKeys(t: Table) {
    forall i, j | 0 <= i < j < |t| :: t[i].0 != t[j].0
  }

  /** Whether `k` is a key of `t`. */
  predicate HasKey(t: Table, k: string) {
    exists j | 0 <= j < |t| :: t[j].0 == k
  }

  /** The effect of entry `j` of `cls`'s table. */
  function EntryEffect(reg: Registry, opts: Options, cls: ClassName, e: Element, warn: bool,
                       vis: set<ClassName>, j: nat): Effect
    requires cls in reg && reg[cls].mapping.Some? && cls !in vis
    requires j < |reg[cls].mapping.value|
  {
    var t := reg[cls].mapping.value;
    Step(reg, opts, cls, e, warn, vis, t[j].0, t[j].1).effect
  }

  /** What an effect leaves in the dictionary, over what was there before. */
  function After(eff: Effect, before: Option<Value>): Option<Value> {
    if eff.Assign? then Some(eff.value) else before
  }

  /** The mapping loop from entry `i` on succeeds exactly when no entry
      raises. */
  lemma {:induction false} ApplyEntriesOk(reg: Registry, opts: Options, cls: ClassName, e: Element,
                                          warn: bool, vis: set<ClassName>, i: nat, o: Instance, ws: seq<Warning>)
    requires cls in reg && reg[cls].mapping.Some? && cls !in vis
    requires i <= |reg[cls].mapping.value|
    ensures ApplyEntries(reg, opts, cls, e, warn, vis, i, o, ws).result.Ok?
        <==> forall j | i <= j < |reg[cls].mapping.value| :: !EntryEffect(reg, opts, cls, e, warn, vis, j).Raise?
    decreases |reg[cls].mapping.value| - i
  {
    var t := reg[cls].mapping.value;
    if i < |t| {
      var s := Step(reg, opts, cls, e, warn, vis, t[i].0, t[i].1);
      assert s.effect == EntryEffect(reg, opts, cls, e, warn, vis, i);
      if !s.effect.Raise? {
        var o' := if s.effect.Assign? then SetAttr(o, t[i].0, s.effect.value) else o;
        ApplyEntriesOk(reg, opts, cls, e, warn, vis, i + 1, o', ws + s.warnings);
        assert (forall j | i <= j < |t| :: !EntryEffect(reg, opts, cls, e, warn, vis, j).Raise?)
           <==> (forall j | i + 1 <= j < |t| :: !EntryEffect(reg, opts, cls, e, warn, vis, j).Raise?);
      }
    }
  }

  /** A failing loop ends with the error of the first entry that raises. */
  lemma {:induction false} ApplyEntriesErr(reg: Registry, opts: Options, cls: ClassName, e: Element,
                                           warn: bool, vis: set<ClassName>, i: nat, o: Instance, ws: seq<Warning>)
    requires cls in reg && reg[cls].mapping.Some? && cls !in vis
    requires i <= |reg[cls].mapping.value|
    requires ApplyEntries(reg, opts, cls, e, warn, vis, i, o, ws).result.Err?
    ensures exists j | i <= j < |reg[cls].mapping.value| ::
      && EntryEffect(reg, opts, cls, e, warn, vis, j) == Raise(ApplyEntries(reg, opts, cls, e, warn, vis, i, o, ws).result.error)
      && forall j' | i <= j' < j :: !EntryEffect(reg, opts, cls, e, warn, vis, j').Raise?
    decreases |reg[cls].mapping.value| - i
  {
    var t := reg[cls].mapping.value;
    var d := ApplyEntries(reg, opts, cls, e, warn, vis, i, o, ws);
    var s := Step(reg, opts, cls, e, warn, vis, t[i].0, t[i].1);
    assert s.effect == EntryEffect(reg, opts, cls, e, warn, vis, i);
    if s.effect.Raise? {
      assert EntryEffect(reg, opts, cls, e, warn, vis, i) == Raise(d.result.error);
    } else {
      var o' := if s.effect.Assign? then SetAttr(o, t[i].0, s.effect.value) else o;
      assert d == ApplyEntries(reg, opts, cls, e, warn, vis, i + 1, o', ws + s.warnings);
      ApplyEntriesErr(reg, opts, cls, e, warn, vis, i + 1, o', ws + s.warnings);
      var j :| i + 1 <= j < |t|
        && EntryEffect(reg, opts, cls, e, warn, vis, j) == Raise(d.result.error)
        && forall j' | i + 1 <= j' < j :: !EntryEffect(reg, opts, cls, e, warn, vis, j').Raise?;
      assert forall j' | i <= j' < j :: !EntryEffect(reg, opts, cls, e, warn, vis, j').Raise?;
    }
  }

  /** The warnings printed before entry `i` stay at the head of the log. */
  lemma {:induction false} ApplyEntriesWarnings(reg: Registry, opts: Options, cls: ClassName, e: Element,
                                                warn: bool, vis: set<ClassName>, i: nat, o: Instance, ws: seq<Warning>)
    requires cls in reg && reg[cls].mapping.Some? && cls !in vis
    requires i <= |reg[cls].mapping.value|
    ensures ws <= ApplyEntries(reg, opts, cls, e, warn, vis, i, o, ws).warnings
    decreases |reg[cls].mapping.value| - i
  {
    var t := reg[cls].mapping.value;
    if i < |t| {
      var s := Step(reg, opts, cls, e, warn, vis, t[i].0, t[i].1);
      if !s.effect.Raise? {
        var o' := if s.effect.Assign? then SetAttr(o, t[i].0, s.effect.value) else o;
        ApplyEntriesWarnings(reg, opts, cls, e, warn, vis, i + 1, o', ws + s.warnings);
      }
    }
  }

  lemma HasKeyTail(t: Table, i: nat, k: string)
    requires i < |t|
    ensures HasKey(t[i..], k) <==> t[i].0 == k || HasKey(t[i + 1..], k)
  {
    if HasKey(t[i + 1..], k) {
      var j :| 0 <= j < |t[i + 1..]| && t[i + 1..][j].0 == k;
      assert t[i..][j + 1].0 == k;
    }
    if HasKey(t[i..], k) {
      var j :| 0 <= j < |t[i..]| && t[i..][j].0 == k;
      if j > 0 {
        assert t[i + 1..][j - 1].0 == k;
      }
    }
    assert t[i..][0].0 == t[i].0;
  }

  /** On success the class is kept and a key that no entry from `i` on
      names keeps what it held. */
  lemma {:induction false} ApplyEntriesKeeps(reg: Registry, opts: Options, cls: ClassName, e: Element,
                                             warn: bool, vis: set<ClassName>, i: nat, o: Instance, ws: seq<Warning>, k: string)
    requires cls in reg && reg[cls].mapping.Some? && cls !in vis
    requires i <= |reg[cls].mapping.value|
    requires ApplyEntries(reg, opts, cls, e, warn, vis, i, o, ws).result.Ok?
    ensures ApplyEntries(reg, opts, cls, e, warn, vis, i, o, ws).result.value.cls == o.cls
    ensures !HasKey(reg[cls].mapping.value[i..], k) ==>
      Lookup(ApplyEntries(reg, opts, cls, e, warn, vis, i, o, ws).result.value.attrs, k) == Lookup(o.attrs, k)
    decreases |reg[cls].mapping.value| - i
  {
    var t := reg[cls].mapping.value;
    if i < |t| {
      var s := Step(reg, opts, cls, e, warn, vis, t[i].0, t[i].1);
      var o' := if s.effect.Assign? then SetAttr(o, t[i].0, s.effect.value) else o;
      HasKeyTail(t, i, k);
      ApplyEntriesKeeps(reg, opts, cls, e, warn, vis, i + 1, o', ws + s.warnings, k);
    }
  }

  lemma UniqueTail(t: Table, i: nat)
    requires UniqueKeys(t) && i < |t|
    ensures !HasKey(t[i + 1..], t[i].0)
  {
  }

  /** On success, with unique keys, entry `j`'s key holds what entry `j`
      assigned, or what it held before when entry `j` was skipped. */
  lemma {:induction false} ApplyEntriesAssigns(reg: Registry, opts: Options, cls: ClassName, e: Element,
                                               warn: bool, vis: set<ClassName>, i: nat, o: Instance, ws: seq<Warning>, j: nat)
    requires cls in reg && reg[cls].mapping.Some? && cls !in vis
    requires UniqueKeys(reg[cls].mapping.value)
    requires i <= j < |reg[cls].mapping.value|
    requires ApplyEntries(reg, opts, cls, e, warn, vis, i, o, ws).result.Ok?
    ensures Lookup(ApplyEntries(reg, opts, cls, e, warn, vis, i, o, ws).result.value.attrs, reg[cls].mapping.value[j].0)
         == After(EntryEffect(reg, opts, cls, e, warn, vis, j), Lookup(o.attrs, reg[cls].mapping.value[j].0))
    decreases |reg[cls].mapping.value| - i
  {
    var t := reg[cls].mapping.value;
    var s := Step(reg, opts, cls, e, warn, vis, t[i].0, t[i].1);
    assert s.effect == EntryEffect(reg, opts, cls, e, warn, vis, i);
    var o' := if s.effect.Assign? then SetAttr(o, t[i].0, s.effect.value) else o;
    if j == i {
      UniqueTail(t, i);
      ApplyEntriesKeeps(reg, opts, cls, e, warn, vis, i + 1, o', ws + s.warnings, t[i].0);
    } else {
      ApplyEntriesAssigns(reg, opts, cls, e, warn, vis, i + 1, o', ws + s.warnings, j);
      assert t[i].0 != t[j].0;
    }
  }

  // ---------------------------------------------------------------------
  // A whole decode

  /** The class is an `XMLMapper` with a table whose expected tags can be
      collected, so decoding reaches the mapping loop. */
  predicate Configured(reg: Registry, cls: ClassName) {
    cls in reg && reg[cls].mapping.Some? && ExpectedTags(reg, reg[cls].mapping.value).Ok?
  }

  /** The configuration errors come before any instance exists and before
      any warning: a class that is not an `XMLMapper`, a class without a
      table (`NotImplementedError`), and a table whose expected tags cannot
      be collected. */
  lemma DecodeConfigErrors(reg: Registry, opts: Options, cls: ClassName, e: Element, warn: bool, vis: set<ClassName>)
    requires cls !in vis
    ensures cls !in reg ==> Decode(reg, opts, cls, e, warn, vis) == Decoded(Err(AttributeError(cls)), [])
    ensures cls in reg && reg[cls].mapping.None? ==>
      Decode(reg, opts, cls, e, warn, vis) == Decoded(Err(NotImplementedError(cls)), [])
    ensures cls in reg && reg[cls].mapping.Some? && ExpectedTags(reg, reg[cls].mapping.value).Err? ==>
      Decode(reg, opts, cls, e, warn, vis) == Decoded(Err(ExpectedTags(reg, reg[cls].mapping.value).error), [])
  {
  }

  /** A configured decode succeeds exactly when no entry raises; its result
      is an instance of the class holding only keys of the table. */
  lemma DecodeOk(reg: Registry, opts: Options, cls: ClassName, e: Element, warn: bool, vis: set<ClassName>)
    requires cls !in vis && Configured(reg, cls)
    ensures Decode(reg, opts, cls, e, warn, vis).result.Ok?
        <==> forall j | 0 <= j < |reg[cls].mapping.value| :: !EntryEffect(reg, opts, cls, e, warn, vis, j).Raise?
    ensures Decode(reg, opts, cls, e, warn, vis).result.Ok? ==>
      && Decode(reg, opts, cls, e, warn, vis).result.value.cls == cls
      && forall k | !HasKey(reg[cls].mapping.value, k) :: Lookup(Decode(reg, opts, cls, e, warn, vis).result.value.attrs, k).None?
  {
    var t := reg[cls].mapping.value;
    var ws := WarnFor(cls, Untracked(e.children, ExpectedTags(reg, t).value), warn);
    ApplyEntriesOk(reg, opts, cls, e, warn, vis, 0, Instance(cls, []), ws);
    var d := Decode(reg, opts, cls, e, warn, vis);
    if d.result.Ok? {
      forall k | !HasKey(t, k)
        ensures Lookup(d.result.value.attrs, k).None?
      {
        assert t[0..] == t;
        ApplyEntriesKeeps(reg, opts, cls, e, warn, vis, 0, Instance(cls, []), ws, k);
      }
      ApplyEntriesKeeps(reg, opts, cls, e, warn, vis, 0, Instance(cls, []), ws, "");
    }
  }

  /** The first entry that raises decides the error of the whole decode. */
  lemma DecodeFirstRaise(reg: Registry, opts: Options, cls: ClassName, e: Element, warn: bool,
                         vis: set<ClassName>, j: nat, x: Error)
    requires cls !in vis && Configured(reg, cls)
    requires j < |reg[cls].mapping.value|
    requires EntryEffect(reg, opts, cls, e, warn, vis, j) == Raise(x)
    requires forall j' | 0 <= j' < j :: !EntryEffect(reg, opts, cls, e, warn, vis, j').Raise?
    ensures Decode(reg, opts, cls, e, warn, vis).result == Err(x)
  {
    var t := reg[cls].mapping.value;
    var ws := WarnFor(cls, Untracked(e.children, ExpectedTags(reg, t).value), warn);
    var d := ApplyEntries(reg, opts, cls, e, warn, vis, 0, Instance(cls, []), ws);
    assert Decode(reg, opts, cls, e, warn, vis) == d;
    ApplyEntriesOk(reg, opts, cls, e, warn, vis, 0, Instance(cls, []), ws);
    assert d.result.Err?;
    ApplyEntriesErr(reg, opts, cls, e, warn, vis, 0, Instance(cls, []), ws);
    var j0 :| 0 <= j0 < |t| && EntryEffect(reg, opts, cls, e, warn, vis, j0) == Raise(d.result.error)
      && forall j' | 0 <= j' < j0 :: !EntryEffect(reg, opts, cls, e, warn, vis, j').Raise?;
    assert j0 == j;
  }

  /** On a successful decode with unique keys, entry `j`'s attribute is what
      entry `j` assigned, and absent from the instance when it was skipped. */
  lemma DecodeAttribute(reg: Registry, opts: Options, cls: ClassName, e: Element, warn: bool,
                        vis: set<ClassName>, j: nat)
    requires cls !in vis && Configured(reg, cls)
    requires UniqueKeys(reg[cls].mapping.value) && j < |reg[cls].mapping.value|
    requires Decode(reg, opts, cls, e, warn, vis).result.Ok?
    ensures Lookup(Decode(reg, opts, cls, e, warn, vis).result.value.attrs, reg[cls].mapping.value[j].0)
         == After(EntryEffect(reg, opts, cls, e, warn, vis, j), None)
  {
    var t := reg[cls].mapping.value;
    var ws := WarnFor(cls, Untracked(e.children, ExpectedTags(reg, t).value), warn);
    ApplyEntriesAssigns(reg, opts, cls, e, warn, vis, 0, Instance(cls, []), ws, j);
  }

  /** The untracked report for the class itself is printed first, whatever
      the entries then do. */
  lemma DecodeWarnsFirst(reg: Registry, opts: Options, cls: ClassName, e: Element, warn: bool, vis: set<ClassName>)
    requires cls !in vis && Configured(reg, cls)
    ensures WarnFor(cls, Untracked(e.children, ExpectedTags(reg, reg[cls].mapping.value).value), warn)
         <= Decode(reg, opts, cls, e, warn, vis).warnings
  {
    var t := reg[cls].mapping.value;
    var ws := WarnFor(cls, Untracked(e.children, ExpectedTags(reg, t).value), warn);
    ApplyEntriesWarnings(reg, opts, cls, e, warn, vis, 0, Instance(cls, []), ws);
  }
}
