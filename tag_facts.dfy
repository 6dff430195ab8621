/**
  The expected-tag list and the untracked report (mapper.py:94-115).
 */
module TagFacts {
  import opened Wrappers
  import opened Etree
  import opened Fields
  import opened Mapper

  /** The tags one table value makes expected, stated per descriptor: a
      string is itself; a `FieldGroup` brings the string values of its
      target's table, one level deep; a list `Field` brings its container tag;
      a single `Field` brings its tag override, else its target's XML tag. */
  predicate Expects(reg: Registry, entry: Entry, x: string) {
    match entry
    case Path(p) => x == p
    case GroupEntry(g) =>
      && g.Some? && g.value in reg && reg[g.value].mapping.Some?
      && exists i | 0 <= i < |reg[g.value].mapping.value| :: reg[g.value].mapping.value[i].1 == Path(x)
    case FieldEntry(f) =>
      if f.isParent || (f.tag.Some? && f.tag.value != "") then f.tag == Some(x)
      else f.target.Some? && f.target.value in reg && x == XmlTag(f.target.value, reg[f.target.value])
    case BaseEntry(_) => false
    case Foreign => false
  }

  /** Collecting fails on a `FieldGroup` whose target is None, not an
      `XMLMapper` or lacks a table, and on a single `Field` without a tag
      override whose target is None or not an `XMLMapper`. */
  lemma ContributionFails(reg: Registry, entry: Entry)
    ensures Contribution(reg, entry).Err? <==>
      || (entry.GroupEntry? && (entry.groupTarget.None? || entry.groupTarget.value !in reg
                                || reg[entry.groupTarget.value].mapping.None?))
      || (&& entry.FieldEntry? && !entry.field.isParent
          && !(entry.field.tag.Some? && entry.field.tag.value != "")
          && (entry.field.target.None? || entry.field.target.value !in reg))
  {
  }

  lemma ContributionMembers(reg: Registry, entry: Entry, x: string)
    requires Contribution(reg, entry).Ok?
    ensures x in Contribution(reg, entry).value <==> Expects(reg, entry, x)
  {
  }

  /** The loop from entry `i` on succeeds exactly when every entry contributes. */
  lemma {:induction false} CollectFromOk(reg: Registry, t: Table, i: nat, acc: seq<string>)
    requires i <= |t|
    ensures CollectFrom(reg, t, i, acc).Ok? <==> forall j | i <= j < |t| :: Contribution(reg, t[j].1).Ok?
    decreases |t| - i
  {
    if i < |t| && Contribution(reg, t[i].1).Ok? {
      CollectFromOk(reg, t, i + 1, acc + Contribution(reg, t[i].1).value);
    }
  }

  /** On success the list holds what was gathered and what each entry from
      `i` on contributes. */
  lemma {:induction false} CollectFromMembers(reg: Registry, t: Table, i: nat, acc: seq<string>, x: string)
    requires i <= |t| && CollectFrom(reg, t, i, acc).Ok?
    ensures x in CollectFrom(reg, t, i, acc).value <==>
      x in acc || exists j | i <= j < |t| :: Contribution(reg, t[j].1).Ok? && x in Contribution(reg, t[j].1).value
    decreases |t| - i
  {
    if i < |t| {
      var c := Contribution(reg, t[i].1).value;
      CollectFromMembers(reg, t, i + 1, acc + c, x);
      if x in c {
        assert x in Contribution(reg, t[i].1).value;
      }
      if exists j | i <= j < |t| :: Contribution(reg, t[j].1).Ok? && x in Contribution(reg, t[j].1).value {
        var j :| i <= j < |t| && Contribution(reg, t[j].1).Ok? && x in Contribution(reg, t[j].1).value;
        if j > i {
          assert exists j' | i + 1 <= j' < |t| :: Contribution(reg, t[j'].1).Ok? && x in Contribution(reg, t[j'].1).value;
        }
      }
    }
  }

  /** The expected-tag list of a table, as a set: exactly the tags some
      entry expects by the per-descriptor rules. */
  lemma ExpectedTagsMembers(reg: Registry, t: Table, x: string)
    requires ExpectedTags(reg, t).Ok?
    ensures x in ExpectedTags(reg, t).value <==> exists j | 0 <= j < |t| :: Expects(reg, t[j].1, x)
  {
    CollectFromMembers(reg, t, 0, [], x);
    CollectFromOk(reg, t, 0, []);
    forall j | 0 <= j < |t|
      ensures Contribution(reg, t[j].1).Ok? && (x in Contribution(reg, t[j].1).value <==> Expects(reg, t[j].1, x))
    {
      ContributionMembers(reg, t[j].1, x);
    }
  }

  lemma ExpectedTagsOk(reg: Registry, t: Table)
    ensures ExpectedTags(reg, t).Ok? <==> forall j | 0 <= j < |t| :: Contribution(reg, t[j].1).Ok?
  {
    CollectFromOk(reg, t, 0, []);
  }

  // ---------------------------------------------------------------------
  // The untracked report

  /** A tag is reported exactly when some child carries it and it is not
      expected. */
  lemma {:induction false} UntrackedMembers(cs: seq<Element>, expected: seq<string>, x: string)
    ensures x in Untracked(cs, expected) <==> x !in expected && x in ChildTags(cs)
  {
    if cs != [] {
      UntrackedMembers(cs[1..], expected, x);
      assert ChildTags(cs) == [cs[0].tag] + ChildTags(cs[1..]);
    }
  }

  /** The report is the children's tags, in order, without the expected ones. */
  lemma {:induction false} UntrackedAppend(a: seq<Element>, b: seq<Element>, expected: seq<string>)
    ensures Untracked(a + b, expected) == Untracked(a, expected) + Untracked(b, expected)
  {
    if a == [] {
      assert a + b == b;
    } else {
      UntrackedAppend(a[1..], b, expected);
      assert (a + b)[1..] == a[1..] + b;
    }
  }

  /** Repeated tags are reported as often as they occur. */
  lemma {:induction false} UntrackedCount(cs: seq<Element>, expected: seq<string>, x: string)
    ensures multiset(Untracked(cs, expected))[x] == if x in expected then 0 else multiset(ChildTags(cs))[x]
  {
    if cs != [] {
      UntrackedCount(cs[1..], expected, x);
      assert ChildTags(cs) == [cs[0].tag] + ChildTags(cs[1..]);
      var head := if cs[0].tag in expected then [] else [cs[0].tag];
      assert Untracked(cs, expected) == head + Untracked(cs[1..], expected);
    }
  }

  /** Nothing is reported exactly when every child's tag is expected. */
  lemma NothingUntracked(cs: seq<Element>, expected: seq<string>)
    ensures Untracked(cs, expected) == [] <==> forall c | c in cs :: c.tag in expected
  {
    if Untracked(cs, expected) == [] {
      forall c | c in cs
        ensures c.tag in expected
      {
        UntrackedMembers(cs, expected, c.tag);
        var i :| 0 <= i < |cs| && cs[i] == c;
        assert ChildTags(cs)[i] == c.tag;
      }
    } else {
      var x := Untracked(cs, expected)[0];
      UntrackedMembers(cs, expected, x);
      var i :| 0 <= i < |cs| && ChildTags(cs)[i] == x;
      assert cs[i] in cs && cs[i].tag !in expected;
    }
  }

  /** When no child tag is expected, every child is reported, in order. */
  lemma {:induction false} UntrackedAll(cs: seq<Element>, expected: seq<string>)
    requires forall c | c in cs :: c.tag !in expected
    ensures Untracked(cs, expected) == ChildTags(cs)
    decreases cs
  {
    if cs != [] {
      assert cs[0] in cs;
      UntrackedAll(cs[1..], expected);
      assert ChildTags(cs) == [cs[0].tag] + ChildTags(cs[1..]);
    }
  }
}
