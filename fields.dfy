/**
  The descriptors that may appear as values of a `__xml_mapping__` table
  (common/fields.py): plain strings, `Field`, `FieldGroup`, and whatever else
  a table author might put there.
 */
module Fields {
  import opened Wrappers

  /** A class is named by its `__name__`. */
  type ClassName = string

  /** The `Field` dataclass: `target`, a `tag` override, the `is_parent` list
      flag and the `child` descriptor naming the item type of a list. */
  datatype Field = Field(
    target: Option<ClassName>,
    tag: Option<string>,
    isParent: bool,
    child: Option<Field>)

  /** One value of a mapping table. */
  datatype Entry =
      /** A string: `"@name"`, `"#TEXT"` or a child tag. */
    | Path(path: string)
      /** A `Field`. */
    | FieldEntry(field: Field)
      /** A `FieldGroup`; it carries only `target`. */
    | GroupEntry(groupTarget: Option<ClassName>)
      /** A bare `BaseField`, which is neither a `Field` nor a `FieldGroup`. */
    | BaseEntry(baseTarget: Option<ClassName>)
      /** Any value that is neither a string nor a `BaseField`. */
    | Foreign

  /** `Field()`: every attribute at its dataclass default. */
  function EmptyField(): (f: Field)
    ensures f.target.None? && f.tag.None? && !f.isParent && f.child.None?
  {
    Field(None, None, false, None)
  }

  /** `Field(X)`: the positional argument sets only `target`. */
  function FieldOf(target: ClassName): (f: Field)
    ensures f.target == Some(target)
    ensures f == EmptyField().(target := Some(target))
  {
    Field(Some(target), None, false, None)
  }

  /** `Field(X, tag=t)`: a nested object read from the child tagged `t`. */
  function TaggedField(target: ClassName, tag: string): (f: Field)
    ensures f == FieldOf(target).(tag := Some(tag))
  {
    Field(Some(target), Some(tag), false, None)
  }

  /** `Field(tag=container, is_parent=True, child=Field(item))`: a list of
      `item` objects under a `container` element. */
  function ListField(container: string, item: ClassName): (f: Field)
    ensures f.isParent && f.tag == Some(container) && f.target.None?
    ensures f.child == Some(FieldOf(item))
  {
    Field(None, Some(container), true, Some(FieldOf(item)))
  }

  /** `isinstance(value, BaseField)`. */
  predicate IsBaseField(e: Entry) {
    e.FieldEntry? || e.GroupEntry? || e.BaseEntry?
  }

  /** The check the decoder makes before using a table value: a `str` or a
      `BaseField`; everything else raises `TypeError`. */
  predicate PassesTypeCheck(e: Entry) {
    e.Path? || IsBaseField(e)
  }

  /** Both descriptor classes derive from `BaseField`, so both pass the check;
      only a foreign value fails it. */
  lemma DescriptorsPassTypeCheck(e: Entry)
    ensures (e.FieldEntry? || e.GroupEntry?) ==> PassesTypeCheck(e)
    ensures !PassesTypeCheck(e) <==> e.Foreign?
  {
  }
}
