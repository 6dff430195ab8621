# easyfatt XML mapper: a Dafny model

easyfatt-db-connector turns the `.DefXml` export of the Danea Easyfatt
invoicing program into Python objects. The engine is `XMLMapper.from_xml`
in `xml/common/mapper.py`. Each schema class declares an `__xml_mapping__`
table from attribute names to descriptors, and `from_xml` walks that table
over one lxml element to build an instance. A descriptor is one of:

- a string: an `@attribute`, the element's own `#TEXT`, or a child tag;
- a `Field`: a single nested object, or a list of objects under a
  container element;
- a `FieldGroup`: an inline group decoded from the same element.

String values are coerced by the attribute's declared type (`bool`, `int`,
`float`, `str`, or anything else). The schema classes are `Product` (tag
`Row`), `VatCode`, `Payment`, `Document` with its four groups, `Company`
and the root `EasyfattXML` (tag `EasyfattDocuments`).

The model lives in these modules:

- `Etree`: the element tree as a datatype; `find` and `container/item`
  matching are functions.
- `PyText`: the string operations the engine uses (`strip`, `lower`,
  `upper`, Python's base-10 `int()`).
- `Exceptions`: the errors `from_xml` can raise.
- `Fields`: the descriptor classes.
- `Mapper`: the decoder as functions. `Decode` is `from_xml`,
  `ApplyEntries` its mapping loop, `Step` one table entry, and
  `DecodeItems` the list comprehension. It also holds the expected-tag
  loop and the untracked-child audit.
- `Decoder`: the same engine as methods with `while` loops, each proved
  equal to its specification function.
- `Hashing`: `__hash__`.
- The proof modules:
  - `MapperFacts`, `EntryFacts`, `TagFacts` and `ReadFacts` state what a
    decode does;
  - `VatCodeXml`, `ProductXml`, `DocumentXml`, `CompanyXml` and `RootXml`
    hold each schema's table and what decoding it yields.
- `RootXml.EasyfattXml`: a class whose methods edit a decoded file.

### How Python is represented

- **Instances.** An instance is its class name plus its `__dict__`, a
  sequence of (name, value) pairs in insertion order. `cls()` starts with
  an empty `__dict__`: these classes are dataclasses with `init=False`, so
  no `__init__` assigns anything. Class defaults are class attributes,
  read through `Mapper.Get`.
- **The class registry.** A registry maps each class name to its
  `__xml_name__`, its table, its resolved type hints and its class
  defaults.
- **Errors.** A table target that is not in the registry stands for a
  class that is not an `XMLMapper`. The `AttributeError` Python raises for
  it is modelled.
- **Group recursion.** A `FieldGroup` decodes the same element again. The
  decoder carries the set of classes already on that chain. Meeting one
  again is Python's unbounded recursion, modelled as `RecursionError`.
- **Untracked warning.** The warning `print`s become a returned list of
  `Warning` values.
- **The root object.** `EasyfattXML()` made directly has no `documents`
  attribute, because its `default_factory` only runs in a generated
  `__init__`. So `add_document` and `remove_document` on such an object
  raise `AttributeError`. A decoded file always has the list. The class
  models both cases.
- **Groups in the expected-tag list.** A `FieldGroup` contributes one
  level of its target's mapping values to the expected-tag list
  (`common/mapper.py:97-98`); only the string values among them can match
  a child's tag. A nested group's own tags are not flattened in. This is
  `Mapper.Contribution`.

## Model

| member | source | states |
|---|---|---|
| Exceptions.ConversionMessage | src/easyfatt_db_connector/xml/common/mapper.py:208-211 | the `TypeConversionError` message holds `Class.attr`, the offending text and the target type name, at fixed positions |
| Etree.Element.Get | src/easyfatt_db_connector/xml/common/mapper.py:162 | `element.get(name)` is Some exactly when the attribute is present, and then it is the attribute's value |
| Etree.Find | src/easyfatt_db_connector/xml/common/mapper.py:149 | `find(tag)` returns the first direct child with that tag; None exactly when no child has it |
| Etree.FindPath | src/easyfatt_db_connector/xml/common/mapper.py:138-140 | every `container/item` match has the item tag and is strictly smaller than the element |
| Etree.FindPathExact | src/easyfatt_db_connector/xml/common/mapper.py:138-140 | an element is matched exactly when it is an item-tagged child of a container child, and the matches are the containers' items concatenated in document order |
| Etree.PathInSplitAt | src/easyfatt_db_connector/xml/common/mapper.py:138-140 | the path search over a child list is the search before child k, then child k's items if it is a container, then the search after k |
| Etree.MatchingMembers | src/easyfatt_db_connector/xml/common/mapper.py:138-140 | a child is selected exactly when it carries the item tag |
| Etree.MatchingAppend | src/easyfatt_db_connector/xml/common/mapper.py:138-140 | selection by tag keeps document order across concatenated siblings |
| Etree.PathInMembers | src/easyfatt_db_connector/xml/common/mapper.py:138-140 | over a sibling list, matched exactly when an item child of some container sibling |
| Etree.PathInAppend | src/easyfatt_db_connector/xml/common/mapper.py:138-140 | the path over concatenated siblings is the concatenation of the paths |
| Etree.PathWithoutContainers | src/easyfatt_db_connector/xml/common/mapper.py:138-140 | without a container child the path matches nothing |
| Etree.ChildTags | src/easyfatt_db_connector/xml/common/mapper.py:109 | the tags of the children, one per child, in order |
| PyText.Strip | src/easyfatt_db_connector/xml/common/mapper.py:161 | the result has no surrounding whitespace and equals the input when the input has none; `StripExact` states what is removed |
| PyText.StripExact | src/easyfatt_db_connector/xml/common/mapper.py:161 | the result is the input with only its leading and trailing whitespace removed: a slice of the input with nothing but whitespace before and after it |
| PyText.Lower | src/easyfatt_db_connector/xml/common/mapper.py:188 | lower-cases each character, keeping the length |
| PyText.Upper | src/easyfatt_db_connector/xml/common/mapper.py:164 | upper-cases each character, keeping the length |
| PyText.LowerExamples | src/easyfatt_db_connector/xml/common/mapper.py:188 | "TRUE", "True" and "true" compare equal to "true"; "yes" and "false" do not |
| PyText.ParseInt | src/easyfatt_db_connector/xml/common/mapper.py:193 | definition: `int(text)` in base 10: surrounding whitespace, an optional sign, digit groups joined by single underscores, None where Python raises ValueError; stated by `ParseDigits`, `ParseNegated`, `ParseShowInt`, `ParseRejectsLetters`, `ParseRejectsBlank` |
| PyText.ParseShowInt | src/easyfatt_db_connector/xml/common/mapper.py:193 | `int(str(n)) == n` for every integer n, without the digit limit of newer Pythons (see Left out) |
| PyText.ParseDigits | src/easyfatt_db_connector/xml/common/mapper.py:193 | a digit string parses to its decimal value |
| PyText.ParseNegated | src/easyfatt_db_connector/xml/common/mapper.py:193 | a minus sign before digits parses to the negated value |
| PyText.ParseRejectsLetters | src/easyfatt_db_connector/xml/common/mapper.py:193 | text holding an ASCII letter at any position is not an integer |
| PyText.ParseRejectsBlank | src/easyfatt_db_connector/xml/common/mapper.py:193 | empty or all-whitespace text is not an integer |
| PyText.ParseTen | src/easyfatt_db_connector/xml/product.py:253 | "10" parses to 10 |
| PyText.ShowNatValue | src/easyfatt_db_connector/xml/common/mapper.py:193 | the decimal digits of n denote n |
| Fields.EmptyField | src/easyfatt_db_connector/xml/common/fields.py:11-28 | `Field()` has no target, no tag, `is_parent` false and no child |
| Fields.FieldOf | src/easyfatt_db_connector/xml/common/fields.py:11-28 | `Field(X)` sets only the target |
| Fields.TaggedField | src/easyfatt_db_connector/xml/common/fields.py:22 | `Field(X, tag=t)` is `Field(X)` with the tag override set |
| Fields.ListField | src/easyfatt_db_connector/xml/common/fields.py:25-28 | a list descriptor sets `is_parent`, the container tag and a child `Field` for the item class, and no target |
| Fields.DescriptorsPassTypeCheck | src/easyfatt_db_connector/xml/common/mapper.py:120 | `Field` and `FieldGroup` pass the str-or-BaseField check; exactly a foreign value fails it |
| Mapper.Lookup | src/easyfatt_db_connector/xml/common/mapper.py:39-40 | an attribute lookup in the `__dict__` is None exactly when the name was never assigned |
| Mapper.SetIn | src/easyfatt_db_connector/xml/common/mapper.py:124-128 | after `setattr` the name reads the new value and every other name reads what it did |
| Mapper.SetAttr | src/easyfatt_db_connector/xml/common/mapper.py:147 | `setattr` keeps the class, sets the attribute and leaves the others unchanged |
| Mapper.NamesSetIn | src/easyfatt_db_connector/xml/common/mapper.py:39-40 | `setattr` keeps an existing name's position and appends a new name at the end |
| Mapper.SetInAppends | src/easyfatt_db_connector/xml/common/mapper.py:117-128 | assigning a new name appends one pair |
| Mapper.Get | src/easyfatt_db_connector/xml/common/mapper.py:117 | reading an attribute gives the instance value if assigned, else the class default, else nothing |
| Mapper.XmlTag | src/easyfatt_db_connector/xml/common/mapper.py:43-45 | the XML tag is `__xml_name__` when non-empty, else the class name |
| Mapper.TagOf | src/easyfatt_db_connector/xml/common/mapper.py:43-46 | the tag of a descriptor target, failing exactly when the target is missing or not a mapper class |
| Mapper.PathValues | src/easyfatt_db_connector/xml/common/mapper.py:99 | a group contributes exactly the string values of its target's table |
| Mapper.WarnFor | src/easyfatt_db_connector/xml/common/mapper.py:112-115 | a warning naming the class and the untracked tags, emitted exactly when the list is non-empty and warnings are on |
| Mapper.RawValue | src/easyfatt_db_connector/xml/common/mapper.py:176-177 | with conversion off, a missing text is None and a present one is the text itself |
| Mapper.Contribution | src/easyfatt_db_connector/xml/common/mapper.py:95-106 | definition: what one mapping value adds to the expected tags (itself for a string, the group target's string values, a list field's tag, a single field's tag override or target tag, nothing otherwise) or the AttributeError that lookup raises; its members are stated by `TagFacts.ContributionMembers`/`ContributionFails` |
| Mapper.CollectFrom | src/easyfatt_db_connector/xml/common/mapper.py:94-106 | definition: the expected-tag loop over the mapping values, stopping at the first raise; stated by `TagFacts.CollectFromMembers`/`CollectFromOk` |
| Mapper.ExpectedTags | src/easyfatt_db_connector/xml/common/mapper.py:94-106 | definition: `child_tags` for a whole mapping; stated by `TagFacts.ExpectedTagsMembers`/`ExpectedTagsOk` |
| Mapper.Untracked | src/easyfatt_db_connector/xml/common/mapper.py:108-110 | definition: the tags of the direct children missing from `child_tags`, in document order with repetitions; stated by `TagFacts.UntrackedMembers`/`UntrackedCount`/`UntrackedAppend` |
| Mapper.Locate | src/easyfatt_db_connector/xml/common/mapper.py:158-174 | definition: where a string entry reads: `@name` an attribute, `#TEXT` the own text, otherwise the first child with the tag or nothing (the `continue`); stated by `EntryFacts.LocateAttribute`/`LocateText`/`LocateChild` |
| Mapper.Coerce | src/easyfatt_db_connector/xml/common/mapper.py:183-211 | definition: the bool/int/float/str/other conversion of a located text, None turned into "" or 0 first, a failed int or float conversion a TypeConversionError; stated by `EntryFacts.CoerceAbsent`/`CoerceBool`/`CoerceFails`/`CoerceIntRoundTrip`/`CoerceStr` |
| Mapper.ScalarEffect | src/easyfatt_db_connector/xml/common/mapper.py:176-213 | definition: the raw value without conversion, a KeyError for a name without a type hint, else the coerced value or its error; stated by `EntryFacts.NoConversionRaw`/`MissingHintRaises` |
| Mapper.PathEffect | src/easyfatt_db_connector/xml/common/mapper.py:157-213 | definition: the whole string branch: locate, skip when the child is missing, then convert and assign; stated by `EntryFacts.SkipOnlyWhenAbsent` and `ReadFacts.ChildEffect` |
| Mapper.FieldStep | src/easyfatt_db_connector/xml/common/mapper.py:130-156 | definition: the `Field` branch: the tag override or target tag, a list of the decoded `container/item` matches for `is_parent`, else the decoded first child or a skip; stated by `EntryFacts.SingleField`/`ListFieldStep` |
| Mapper.DecodeItems | src/easyfatt_db_connector/xml/common/mapper.py:142-145 | definition: the list comprehension decoding each match in order, stopping at the first raise; stated by `EntryFacts.DecodeItemsOutcome`/`DecodeItemsSucceeds`/`DecodeItemsValues` |
| Mapper.Step | src/easyfatt_db_connector/xml/common/mapper.py:119-213 | definition: one pass of the mapping loop body: TypeError for a foreign value, the same-element decode for a group, `FieldStep` or `PathEffect` otherwise; stated by `EntryFacts.BadEntriesRaise`/`GroupFromSameElement`/`GroupCycleRaises` |
| Mapper.ApplyEntries | src/easyfatt_db_connector/xml/common/mapper.py:117-215 | definition: the mapping loop over the entries in order from a fresh instance, skipping, assigning with setattr, stopping at the first raise; stated by `MapperFacts.ApplyEntriesOk`/`ApplyEntriesErr`/`ApplyEntriesAssigns`/`ApplyEntriesKeeps`/`ApplyEntriesWarnings` |
| Mapper.Decode | src/easyfatt_db_connector/xml/common/mapper.py:71-215 | definition: `from_xml`: AttributeError for a class that was never defined, NotImplementedError without a mapping, the expected-tag pass and the untracked warning, then the mapping loop; stated by `MapperFacts.DecodeConfigErrors`/`DecodeOk`/`DecodeFirstRaise`/`DecodeAttribute`/`DecodeWarnsFirst` and implemented by `Decoder.FromXml` |
| MapperFacts.DecodeConfigErrors | src/easyfatt_db_connector/xml/common/mapper.py:87-106 | a class without a table raises `NotImplementedError`, a non-mapper class `AttributeError`, and a table whose expected tags cannot be collected that error; all before any instance exists and with no warning |
| MapperFacts.DecodeOk | src/easyfatt_db_connector/xml/common/mapper.py:117-215 | a configured class decodes exactly when no table entry raises; the result is an instance of that class holding only names of its table |
| MapperFacts.DecodeFirstRaise | src/easyfatt_db_connector/xml/common/mapper.py:118-213 | the error of the first raising entry is the error of the decode |
| MapperFacts.DecodeAttribute | src/easyfatt_db_connector/xml/common/mapper.py:117-213 | with distinct attribute names, each attribute ends as its own entry left it: assigned, or unset when skipped |
| MapperFacts.DecodeWarnsFirst | src/easyfatt_db_connector/xml/common/mapper.py:108-117 | the class's own untracked warning comes first, before any nested decode's warnings |
| MapperFacts.ApplyEntriesOk | src/easyfatt_db_connector/xml/common/mapper.py:118-213 | the mapping loop succeeds exactly when none of its remaining entries raises |
| MapperFacts.ApplyEntriesErr | src/easyfatt_db_connector/xml/common/mapper.py:118-213 | a failed loop failed at the first raising entry, with that entry's error |
| MapperFacts.ApplyEntriesWarnings | src/easyfatt_db_connector/xml/common/mapper.py:118-213 | warnings only accumulate |
| MapperFacts.ApplyEntriesKeeps | src/easyfatt_db_connector/xml/common/mapper.py:118-213 | the loop keeps the class and never touches a name its remaining entries do not name |
| MapperFacts.ApplyEntriesAssigns | src/easyfatt_db_connector/xml/common/mapper.py:118-213 | each remaining entry's name ends with that entry's effect |
| EntryFacts.LocateAttribute | src/easyfatt_db_connector/xml/common/mapper.py:161-162 | `@name` reads the attribute, None exactly when it is missing |
| EntryFacts.AttributeSigil | src/easyfatt_db_connector/xml/common/mapper.py:161 | an `@name` descriptor is recognised after stripping |
| EntryFacts.LocateText | src/easyfatt_db_connector/xml/common/mapper.py:164-165 | `#TEXT` in any case reads the element's own text |
| EntryFacts.LocateChild | src/easyfatt_db_connector/xml/common/mapper.py:168-174 | a child tag is absent exactly when no child has it; otherwise the first such child's text is read |
| EntryFacts.CoerceAbsent | src/easyfatt_db_connector/xml/common/mapper.py:185-206 | None coerces to False, 0, 0.0 and "", and stays None for other types |
| EntryFacts.CoerceFails | src/easyfatt_db_connector/xml/common/mapper.py:183-211 | coercion fails exactly for present text that `int()` or `float()` rejects |
| EntryFacts.ConversionErrorNames | src/easyfatt_db_connector/xml/common/mapper.py:208-211 | a failed coercion is a `TypeConversionError` naming the class, the attribute, the text and the type |
| EntryFacts.CoerceBool | src/easyfatt_db_connector/xml/common/mapper.py:185-188 | a bool is true exactly for text that lower-cases to "true" |
| EntryFacts.CoerceIntRoundTrip | src/easyfatt_db_connector/xml/common/mapper.py:190-193 | an int attribute reads back the integer whose decimal text it holds |
| EntryFacts.CoerceStr | src/easyfatt_db_connector/xml/common/mapper.py:200-206 | a `str` hint, or a hint that no coercion rule names (such as a `Literal` type), keeps the text unchanged |
| EntryFacts.NoConversionRaw | src/easyfatt_db_connector/xml/common/mapper.py:176-178 | with `convert_types=False` the raw value is assigned |
| EntryFacts.MissingHintRaises | src/easyfatt_db_connector/xml/common/mapper.py:181 | a string entry without a type hint raises `KeyError` |
| EntryFacts.SkipOnlyWhenAbsent | src/easyfatt_db_connector/xml/common/mapper.py:149-172 | an entry is skipped exactly when its child (string or single field) is absent; groups and lists are never skipped |
| EntryFacts.BadEntriesRaise | src/easyfatt_db_connector/xml/common/mapper.py:119-121 | a foreign table value raises `TypeError`; a bare `BaseField` raises too |
| EntryFacts.GroupFromSameElement | src/easyfatt_db_connector/xml/common/mapper.py:123-128 | a group attribute is the group class decoded from the same element with warnings off, or that decode's error |
| EntryFacts.GroupCycleRaises | src/easyfatt_db_connector/xml/common/mapper.py:123-128 | a group that re-enters a class already decoding this element raises `RecursionError` |
| EntryFacts.SingleField | src/easyfatt_db_connector/xml/common/mapper.py:131-156 | a single field uses the tag override or the target's tag; it is skipped without the child, else it is the child's decode |
| EntryFacts.ListFieldStep | src/easyfatt_db_connector/xml/common/mapper.py:137-147 | a list field is always assigned the decoded `container/item` matches, or raises the first item's error |
| EntryFacts.DecodeItemsOutcome | src/easyfatt_db_connector/xml/common/mapper.py:142-145 | the list succeeds exactly when every match decodes, and holds each match's decode in order |
| EntryFacts.DecodeItemsSucceeds | src/easyfatt_db_connector/xml/common/mapper.py:142-145 | the list comprehension from a match on succeeds exactly when every remaining match decodes |
| EntryFacts.DecodeItemsValues | src/easyfatt_db_connector/xml/common/mapper.py:142-145 | a successful list keeps the items gathered so far and appends each remaining match's decode in order |
| EntryFacts.ListWithoutContainer | src/easyfatt_db_connector/xml/common/mapper.py:137-147 | without a container child a list field is the empty list |
| TagFacts.ContributionFails | src/easyfatt_db_connector/xml/common/mapper.py:95-106 | a descriptor's contribution to the expected tags fails exactly for a group or single field whose target is missing |
| TagFacts.ContributionMembers | src/easyfatt_db_connector/xml/common/mapper.py:96-106 | a string gives itself, a group its target's string values, a list its container tag, a single field its override or its target's tag |
| TagFacts.CollectFromOk | src/easyfatt_db_connector/xml/common/mapper.py:94-106 | the expected-tag loop succeeds exactly when every remaining contribution does |
| TagFacts.CollectFromMembers | src/easyfatt_db_connector/xml/common/mapper.py:94-106 | the loop's tags are those gathered plus every remaining entry's contribution |
| TagFacts.ExpectedTagsMembers | src/easyfatt_db_connector/xml/common/mapper.py:94-106 | a tag is expected exactly when some entry of the table expects it |
| TagFacts.ExpectedTagsOk | src/easyfatt_db_connector/xml/common/mapper.py:94-106 | the expected tags are computed exactly when every entry's contribution is |
| TagFacts.UntrackedMembers | src/easyfatt_db_connector/xml/common/mapper.py:108-110 | a tag is untracked exactly when some child has it and it is not expected |
| TagFacts.UntrackedAppend | src/easyfatt_db_connector/xml/common/mapper.py:108-110 | the untracked list follows document order |
| TagFacts.UntrackedCount | src/easyfatt_db_connector/xml/common/mapper.py:108-110 | each unexpected tag is listed once per child carrying it, duplicates kept |
| TagFacts.NothingUntracked | src/easyfatt_db_connector/xml/common/mapper.py:108-112 | nothing is untracked exactly when every child's tag is expected |
| TagFacts.UntrackedAll | src/easyfatt_db_connector/xml/common/mapper.py:108-110 | when no child is expected every child is listed |
| ReadFacts.DecodedChild | src/easyfatt_db_connector/xml/common/mapper.py:168-174 | a child-tag attribute is unset without the child, else the coercion of the child's text |
| ReadFacts.DecodedAttribute | src/easyfatt_db_connector/xml/common/mapper.py:161-162 | an `@` attribute is always assigned, from the XML attribute or None |
| ReadFacts.DecodedText | src/easyfatt_db_connector/xml/common/mapper.py:164-165 | a `#TEXT` attribute is always assigned, from the element's text |
| ReadFacts.SafeEntryEffect | src/easyfatt_db_connector/xml/common/mapper.py:157-213 | a bool or str string entry never raises |
| ReadFacts.PathsConfigured | src/easyfatt_db_connector/xml/common/mapper.py:94-97 | a table of strings always yields its expected tags |
| ReadFacts.SafeTableDecodes | src/easyfatt_db_connector/xml/common/mapper.py:117-215 | a table of bool and str strings always decodes |
| ReadFacts.StrScalar | src/easyfatt_db_connector/xml/common/mapper.py:200-203 | a str attribute reads its text, "" for None, or the raw value with conversion off |
| ReadFacts.DecodedStrChild | src/easyfatt_db_connector/xml/common/mapper.py:168-203 | a str child attribute is unset without the child, else its text or "" |
| ReadFacts.PathsPrintNothing | src/easyfatt_db_connector/xml/common/mapper.py:157-213 | string entries add no warnings |
| ReadFacts.PathsWarnings | src/easyfatt_db_connector/xml/common/mapper.py:108-115 | a table of strings warns only about its own untracked children |
| ReadFacts.ChildEffect | src/easyfatt_db_connector/xml/common/mapper.py:168-178 | a child entry skips without the child, else coerces its text |
| ReadFacts.DecodedScalar | src/easyfatt_db_connector/xml/common/mapper.py:168-213 | what a child entry of a decoded instance holds after its coercion |
| ReadFacts.StrTableReads | src/easyfatt_db_connector/xml/common/mapper.py:117-215 | a table of str children always decodes, each attribute its child's text or the class default |
| ReadFacts.ListEntryRaises | src/easyfatt_db_connector/xml/common/mapper.py:142-145 | a list entry raises exactly when some match fails to decode |
| ReadFacts.ListAttribute | src/easyfatt_db_connector/xml/common/mapper.py:137-147 | on a successful decode a list attribute holds the comprehension's list, which succeeded |
| ReadFacts.DecodedList | src/easyfatt_db_connector/xml/common/mapper.py:137-147 | a decoded list attribute holds one item per match, each that match's decode |
| ReadFacts.GroupEntryRaises | src/easyfatt_db_connector/xml/common/mapper.py:123-128 | a group entry raises exactly when the group's decode fails |
| ReadFacts.DecodedGroup | src/easyfatt_db_connector/xml/common/mapper.py:123-128 | a decoded group attribute holds the group's decode of the same element |
| ReadFacts.DecodedFlag | src/easyfatt_db_connector/xml/common/mapper.py:185-188 | a bool child attribute is unset without the child, else true exactly for "true" in any case |
| ReadFacts.DecodedStr | src/easyfatt_db_connector/xml/common/mapper.py:200-203 | a str child attribute without class default is unset without the child, else its text or "" |
| ReadFacts.StrRead | src/easyfatt_db_connector/xml/common/mapper.py:176-203 | a str read is a string holding the text when converting, and None for missing text when not |
| Hashing.ItemKey | src/easyfatt_db_connector/xml/common/mapper.py:40 | definition: the hashed form of one `__dict__` value: a number for bool/int/float, the string, the nested key of an object, a tuple of keys for a list; stated by `ItemKeyExact` |
| Hashing.Key | src/easyfatt_db_connector/xml/common/mapper.py:37-41 | definition: `(type(self),) + tuple(values)` for an instance; stated by `KeyExact` and `NamesAndNumericTypesIgnored` |
| Hashing.ItemKeyExact | src/easyfatt_db_connector/xml/common/mapper.py:40 | two attribute values have the same hash key exactly when their Python hashes agree by construction (lists as tuples, `True == 1 == 1.0`) |
| Hashing.KeyExact | src/easyfatt_db_connector/xml/common/mapper.py:37-41 | two instances have the same hash key (hence equal hashes) exactly when they have the same class and alike values in the same order |
| Hashing.NamesAndNumericTypesIgnored | src/easyfatt_db_connector/xml/common/mapper.py:39-40 | attribute names and numeric types do not reach the hash; strings differ from numbers; an unset attribute differs from one set to None |
| Decoder.FromXml | src/easyfatt_db_connector/xml/common/mapper.py:71-215 | the imperative `from_xml` (tag loop, audit, mapping loop) computes exactly `Mapper.Decode` |
| Decoder.ReadEntry | src/easyfatt_db_connector/xml/common/mapper.py:118-213 | one iteration of the mapping loop computes exactly `Mapper.Step` |
| Decoder.ReadField | src/easyfatt_db_connector/xml/common/mapper.py:130-156 | the `Field` branch computes exactly `Mapper.FieldStep` |
| Decoder.ReadScalar | src/easyfatt_db_connector/xml/common/mapper.py:157-213 | the string branch computes exactly `Mapper.PathEffect` |
| Decoder.ReadItems | src/easyfatt_db_connector/xml/common/mapper.py:142-145 | the list comprehension computes exactly `Mapper.DecodeItems` |
| VatCodeXml.VatCodeKeys | src/easyfatt_db_connector/xml/vat_code.py:10-15 | the `VatCode` mapping names four distinct attributes, so each is assigned by one entry |
| VatCodeXml.VatCodeTags | src/easyfatt_db_connector/xml/vat_code.py:8-15 | the tag is the class name `VatCode`; the expected tags are the four descriptors themselves |
| VatCodeXml.VatCodeDecodes | src/easyfatt_db_connector/xml/vat_code.py:10-15 | a `VatCode` always decodes and every child element is reported untracked |
| VatCodeXml.VatCodeReads | src/easyfatt_db_connector/xml/vat_code.py:10-52 | all four attributes are assigned: code from the own text, the others from `Description`, `Perc`, `Class`, "" when missing |
| VatCodeXml.CodeAttr | src/easyfatt_db_connector/xml/vat_code.py:11 | `code` is the element's own text |
| VatCodeXml.DescriptionAttr | src/easyfatt_db_connector/xml/vat_code.py:12 | `description` is the `Description` attribute |
| VatCodeXml.PercentageAttr | src/easyfatt_db_connector/xml/vat_code.py:13 | `percentage` is the `Perc` attribute |
| VatCodeXml.ClassAttr | src/easyfatt_db_connector/xml/vat_code.py:14 | `vat_class` is the `Class` attribute |
| VatCodeXml.CodeRead | src/easyfatt_db_connector/xml/vat_code.py:17 | the code entry assigns the str read of the text |
| VatCodeXml.DescriptionRead | src/easyfatt_db_connector/xml/vat_code.py:30 | the description entry assigns the str read of the attribute |
| VatCodeXml.PercentageRead | src/easyfatt_db_connector/xml/vat_code.py:41 | the percentage entry assigns the str read of the attribute |
| VatCodeXml.ClassRead | src/easyfatt_db_connector/xml/vat_code.py:52 | the class entry assigns the str read of the attribute |
| VatCodeXml.VatCodeSample | src/easyfatt_db_connector/xml/product.py:257 | `<VatCode Perc="20">My20VAT</VatCode>` gives code "My20VAT", percentage "20", the others "" |
| ProductXml.TableKeys | src/easyfatt_db_connector/xml/product.py:14-34 | the `Product` mapping names 19 distinct attributes |
| ProductXml.TablePaths | src/easyfatt_db_connector/xml/product.py:14-34 | every mapping value except `vat_info` is the plain child tag at its position |
| ProductXml.TableHints | src/easyfatt_db_connector/xml/product.py:36-236 | every string-mapped attribute has a type hint and a class default |
| ProductXml.RowTagsExpected | src/easyfatt_db_connector/xml/product.py:12-34 | the tag is `Row`, and the expected tags are exactly the 19 mapped children including `VatCode` |
| ProductXml.RowUntracked | src/easyfatt_db_connector/xml/product.py:14-34 | untracked children are those outside the 19 tags; a row using only them reports nothing |
| ProductXml.TableExpects | src/easyfatt_db_connector/xml/product.py:14-34 | each entry expects exactly its own child tag |
| ProductXml.EntryRaises | src/easyfatt_db_connector/xml/product.py:14-34 | an entry raises exactly when it is numeric and its present text does not convert |
| ProductXml.ProductDecodes | src/easyfatt_db_connector/xml/product.py:36-236 | a row decodes exactly when its quantity, price, eco fee and commission convert |
| ProductXml.ScalarRead | src/easyfatt_db_connector/xml/product.py:36-236 | a scalar attribute is the class default without its child, else its coerced text |
| ProductXml.ProductDefaults | src/easyfatt_db_connector/xml/product.py:36-236 | every attribute whose child is absent reads its class default |
| ProductXml.DefaultKept | src/easyfatt_db_connector/xml/product.py:36-236 | one attribute with an absent child reads its class default |
| ProductXml.ScalarMissing | src/easyfatt_db_connector/xml/product.py:36-236 | one scalar attribute with an absent child reads its class default |
| ProductXml.VatInfoEffect | src/easyfatt_db_connector/xml/product.py:28 | the `vat_info` entry skips without `<VatCode>`, else assigns its `VatCode` decode |
| ProductXml.VatInfoRead | src/easyfatt_db_connector/xml/product.py:181 | `vat_info` is None without `<VatCode>`, else that child decoded as `VatCode` |
| ProductXml.QuantityRead | src/easyfatt_db_connector/xml/product.py:71 | `quantity` is 0 when `<Qty>` is missing or empty, else its integer |
| ProductXml.QuantityTen | src/easyfatt_db_connector/xml/product.py:71 | `<Qty>10</Qty>` gives 10 |
| ProductXml.QuantityError | src/easyfatt_db_connector/xml/product.py:71 | non-integer `<Qty>` text makes the decode fail with `TypeConversionError` for `Product.quantity` |
| ProductXml.AmountsRead | src/easyfatt_db_connector/xml/product.py:148-236 | price, eco fee and commission are the default 0 without their child, 0.0 for an empty one, else the parsed float |
| ProductXml.FlagsRead | src/easyfatt_db_connector/xml/product.py:203-223 | `withholding_tax` and `stock` are None without their child, else true exactly for "true" |
| ProductXml.FlagFalse | src/easyfatt_db_connector/xml/product.py:214 | `<Stock>false</Stock>` gives False |
| ProductXml.TextsRead | src/easyfatt_db_connector/xml/product.py:36-225 | each str attribute is its child's text, "" when empty, and the class default (including `expiry_date` "2999-12-31") when absent |
| ProductXml.Attr | src/easyfatt_db_connector/xml/product.py:14-34 | each table name has a type hint and a class default |
| ProductXml.HintsAt | src/easyfatt_db_connector/xml/product.py:36-236 | each attribute's type hint, entry by entry: `quantity` `int`, the three amounts `float`, the two flags `Optional[bool]`, `vat_info` a class, the rest `str` |
| DocumentXml.PaymentKeys | src/easyfatt_db_connector/xml/document.py:39-44 | the `Payment` mapping names distinct attributes |
| DocumentXml.PaymentShape | src/easyfatt_db_connector/xml/document.py:39-88 | every `Payment` value is a plain child tag and its attribute has a type hint |
| DocumentXml.TransportKeys | src/easyfatt_db_connector/xml/document.py:179-188 | the `TransportInfo` mapping names eight distinct attributes |
| DocumentXml.TransportShape | src/easyfatt_db_connector/xml/document.py:179-275 | every `TransportInfo` value is its child tag with a type hint, and all but `pieces` are `str` |
| DocumentXml.DeliveryKeys | src/easyfatt_db_connector/xml/document.py:100-107 | the `DeliveryInfo` mapping names six distinct attributes |
| DocumentXml.DeliveryShape | src/easyfatt_db_connector/xml/document.py:100-175 | every `DeliveryInfo` value is its child tag and its attribute is `str` |
| DocumentXml.CustomerKeys | src/easyfatt_db_connector/xml/document.py:285-303 | the `CustomerInfo` mapping names distinct attributes |
| DocumentXml.CustomerPaths | src/easyfatt_db_connector/xml/document.py:285-303 | every `CustomerInfo` value is the plain child tag at its position |
| DocumentXml.CustomerHints | src/easyfatt_db_connector/xml/document.py:285-498 | every `CustomerInfo` attribute is hinted `str` |
| DocumentXml.CustomerShape | src/easyfatt_db_connector/xml/document.py:285-498 | every `CustomerInfo` entry is a `str` child entry |
| DocumentXml.NotesKeys | src/easyfatt_db_connector/xml/document.py:502-509 | the `DocumentNotes` mapping names six distinct attributes |
| DocumentXml.NotesShape | src/easyfatt_db_connector/xml/document.py:502-578 | every `DocumentNotes` entry is a `str` child entry defaulting to "" |
| DocumentXml.DocumentKeys | src/easyfatt_db_connector/xml/document.py:586-598 | the `Document` mapping names distinct attributes |
| DocumentXml.PaymentDecodes | src/easyfatt_db_connector/xml/document.py:39-44 | a payment decodes exactly when a present `<Amount>` text converts to float |
| DocumentXml.PaymentFields | src/easyfatt_db_connector/xml/document.py:39-88 | `advance` and `paid` are unset without their child, else true exactly for "true"; `date` is unset or its text |
| DocumentXml.PaymentAmount | src/easyfatt_db_connector/xml/document.py:57 | `amount` is unset without `<Amount>`, 0.0 for an empty one, else the parsed float |
| DocumentXml.PaidTrue | src/easyfatt_db_connector/xml/document.py:79 | `<Paid>true</Paid>` gives True |
| DocumentXml.TransportDecodes | src/easyfatt_db_connector/xml/document.py:179-188 | the transport group decodes exactly when a present `<NumOfPieces>` text is an integer |
| DocumentXml.PiecesRaise | src/easyfatt_db_connector/xml/document.py:183 | non-integer `<NumOfPieces>` text makes the `pieces` entry raise, and the three entries before it do not |
| DocumentXml.PiecesError | src/easyfatt_db_connector/xml/document.py:223 | non-integer `<NumOfPieces>` text fails with `TypeConversionError` for `TransportInfo.pieces` |
| DocumentXml.TransportTexts | src/easyfatt_db_connector/xml/document.py:179-188 | every transport attribute but `pieces` is unset without its child, else its text |
| DocumentXml.TransportPieces | src/easyfatt_db_connector/xml/document.py:223 | `pieces` is unset without its child, 0 for an empty one, else its integer |
| DocumentXml.DeliveryReads | src/easyfatt_db_connector/xml/document.py:98-107 | the tag falls back to `DeliveryInfo`; the group always decodes, each attribute unset or its child's text |
| DocumentXml.CustomerReads | src/easyfatt_db_connector/xml/document.py:285-303 | the customer group always decodes, each attribute unset or its child's text |
| DocumentXml.NotesReads | src/easyfatt_db_connector/xml/document.py:502-566 | the notes group always decodes, each note its child's text or "" |
| DocumentXml.DocumentConfigured | src/easyfatt_db_connector/xml/document.py:586-598 | the tag is `Document` and every entry yields its expected tags |
| DocumentXml.GroupExpects | src/easyfatt_db_connector/xml/document.py:594-597 | each group entry expects exactly its group's child tags |
| DocumentXml.DocumentExpects | src/easyfatt_db_connector/xml/document.py:586-598 | some entry expects a tag exactly when it is a document or group child tag |
| DocumentXml.DocumentTagsExpected | src/easyfatt_db_connector/xml/document.py:586-598 | the expected tags are the document's six and its groups' children |
| DocumentXml.DocumentUntracked | src/easyfatt_db_connector/xml/document.py:586-598 | untracked children are exactly those outside these tags, so group tags like `CustomerCode` are not reported |
| DocumentXml.WarehouseUntracked | src/easyfatt_db_connector/xml/document.py:765 | a `<Warehouse>` child is reported untracked |
| DocumentXml.RowsRaise | src/easyfatt_db_connector/xml/document.py:589 | the rows entry raises exactly when some `Rows/Row` does not convert |
| DocumentXml.PaymentsRaise | src/easyfatt_db_connector/xml/document.py:590 | the payments entry raises exactly when some payment amount does not convert |
| DocumentXml.DeliverySafe | src/easyfatt_db_connector/xml/document.py:594 | the delivery group never raises |
| DocumentXml.TransportRaise | src/easyfatt_db_connector/xml/document.py:595 | the transport group raises exactly when its pieces do not convert |
| DocumentXml.CustomerSafe | src/easyfatt_db_connector/xml/document.py:596 | the customer group never raises |
| DocumentXml.NotesSafe | src/easyfatt_db_connector/xml/document.py:597 | the notes group never raises |
| DocumentXml.DocumentEntryRaises | src/easyfatt_db_connector/xml/document.py:586-598 | which document entries raise, and exactly when |
| DocumentXml.DocumentDecodes | src/easyfatt_db_connector/xml/document.py:586-598 | a document decodes exactly when its rows, payment amounts and transport pieces convert |
| DocumentXml.DocumentRows | src/easyfatt_db_connector/xml/document.py:589 | `rows` holds one decoded `Product` per `Rows/Row`, in document order |
| DocumentXml.DocumentPayments | src/easyfatt_db_connector/xml/document.py:590 | `payments` holds one decoded `Payment` per `Payments/Payment`, in document order |
| DocumentXml.NoRows | src/easyfatt_db_connector/xml/document.py:589 | without `<Rows>`, `rows` is still assigned the empty list |
| DocumentXml.GroupAt | src/easyfatt_db_connector/xml/document.py:594-597 | entries 6 to 9 are the four groups |
| DocumentXml.GroupRead | src/easyfatt_db_connector/xml/document.py:594-597 | one group attribute holds its group decoded from the document element |
| DocumentXml.DocumentGroups | src/easyfatt_db_connector/xml/document.py:666-718 | all four groups replace their None defaults with decodes of the same element |
| DocumentXml.DocumentCustomer | src/easyfatt_db_connector/xml/document.py:596 | the customer object's attributes are read from the document's own `Customer...` children |
| DocumentXml.DateRead | src/easyfatt_db_connector/xml/document.py:587 | `date` is unset without `<Date>`, else its text |
| DocumentXml.NumberRead | src/easyfatt_db_connector/xml/document.py:588 | `number` is unset without `<Number>`, else its text |
| DocumentXml.NumberingRead | src/easyfatt_db_connector/xml/document.py:644 | `numbering` is None without `<Numbering>`, "" for `<Numbering/>`, else its text |
| DocumentXml.DocumentTexts | src/easyfatt_db_connector/xml/document.py:587-591 | `date`, `number` and `numbering` together, as above |
| DocumentXml.DocumentKind | src/easyfatt_db_connector/xml/document.py:655 | `type` is None without `<DocumentType>`, else its raw text such as "I" |
| CompanyXml.CompanyKeys | src/easyfatt_db_connector/xml/company.py:10-23 | the `Company` mapping names twelve distinct attributes |
| CompanyXml.CompanyHints | src/easyfatt_db_connector/xml/company.py:25-169 | every `Company` attribute is hinted `str` with default "" |
| CompanyXml.CompanyShape | src/easyfatt_db_connector/xml/company.py:10-169 | every `Company` entry is a `str` child entry defaulting to "" |
| CompanyXml.CompanyTagsExpected | src/easyfatt_db_connector/xml/company.py:10-23 | the tag is `Company`; the expected tags are exactly its twelve children |
| CompanyXml.CompanyPaths | src/easyfatt_db_connector/xml/company.py:10-23 | every entry is a plain child tag, such as `phone` from `Tel`; none is `@` or `#TEXT` |
| CompanyXml.CompanyReads | src/easyfatt_db_connector/xml/company.py:25-135 | a company always decodes; each attribute is its child's text, "" when the child is empty or absent |
| CompanyXml.CompanySample | src/easyfatt_db_connector/xml/company.py:10-23 | `<Name>Arredufficio Srl</Name><Fax/>` gives that name, fax "" and city "" |
| CompanyXml.TuttobimbiSample | src/easyfatt_db_connector/xml/company.py:147-162 | the demonstration company decodes name "Tuttobimbi Srl" and address "Via Armando Diaz, 162" |
| RootXml.SchemaProducts | src/easyfatt_db_connector/xml/document.py:9 | `VatCode` and `Product` are registered under their schema definitions |
| RootXml.SchemaGroups | src/easyfatt_db_connector/xml/document.py:594-597 | the four document groups are registered under their schema definitions |
| RootXml.SchemaDocuments | src/easyfatt_db_connector/xml/root.py:5 | `Payment` and `Document` are registered under their schema definitions |
| RootXml.SchemaRoot | src/easyfatt_db_connector/xml/root.py:4-23 | `Company` and `EasyfattXML` are registered under their schema definitions |
| RootXml.RootKeys | src/easyfatt_db_connector/xml/root.py:17-23 | the root mapping names five distinct attributes |
| RootXml.SchemaRegistered | src/easyfatt_db_connector/xml/root.py:4-6 | the ten schema classes, registered together, meet every schema's assumptions |
| RootXml.RootFacts | src/easyfatt_db_connector/xml/root.py:21-63 | `company` is a single `Company` field with default None; `documents` is a `Documents/Document` list with no class default |
| RootXml.RootTagsExpected | src/easyfatt_db_connector/xml/root.py:16-23 | the tag is `EasyfattDocuments`; the expected tags are the three attributes, `Company` and `Documents` |
| RootXml.RootUntracked | src/easyfatt_db_connector/xml/root.py:17-23 | every child other than `Company` and `Documents` is reported |
| RootXml.RootDecodes | src/easyfatt_db_connector/xml/root.py:17-23 | a file decodes exactly when every `Documents/Document` converts |
| RootXml.RootAttributes | src/easyfatt_db_connector/xml/root.py:18-20 | the three attributes are `AppVersion`, `Creator` and `CreatorUrl`, "" when missing |
| RootXml.RootCompany | src/easyfatt_db_connector/xml/root.py:21 | `company` is None without `<Company>`, else the first one decoded |
| RootXml.RootDocuments | src/easyfatt_db_connector/xml/root.py:22 | `documents` holds one decoded `Document` per `Documents/Document`, in order |
| RootXml.NoDocuments | src/easyfatt_db_connector/xml/root.py:22 | without `<Documents>`, `documents` is the empty list |
| RootXml.DecodedDocuments | src/easyfatt_db_connector/xml/root.py:63 | a decoded file always has its document list |
| RootXml.DocumentsRaise | src/easyfatt_db_connector/xml/root.py:22 | the documents entry raises exactly when some document does not convert |
| RootXml.CompanyEffect | src/easyfatt_db_connector/xml/root.py:21 | the company entry skips without `<Company>`, else assigns its decode, which never fails |
| RootXml.IndexOf | src/easyfatt_db_connector/xml/root.py:93 | the first position whose element equals the document, None exactly when none does |
| RootXml.RemoveFirst | src/easyfatt_db_connector/xml/root.py:93 | definition: `list.remove`: ValueError when no element is equal, else the list without the first equal element; stated by `RemoveFirstSpec`/`RemoveFirstLength`/`AddThenRemove` |
| RootXml.RemoveFirstSpec | src/easyfatt_db_connector/xml/root.py:93 | `remove` fails with `ValueError` exactly when nothing is equal; otherwise it drops exactly the first equal element and keeps the others in order |
| RootXml.RemoveFirstLength | src/easyfatt_db_connector/xml/root.py:93 | a removal shortens the list by one and removes exactly one occurrence |
| RootXml.AddThenRemove | src/easyfatt_db_connector/xml/root.py:89-93 | removing a not-yet-present document right after adding it gives the list back |
| RootXml.EasyfattXml.constructor | src/easyfatt_db_connector/xml/root.py:9-63 | `EasyfattXML()` reads the class defaults and has no document list |
| RootXml.EasyfattXml.FromInstance | src/easyfatt_db_connector/xml/root.py:25-63 | a decoded instance read through the class defaults |
| RootXml.EasyfattXml.AddDocument | src/easyfatt_db_connector/xml/root.py:89-90 | appends at the end, leaving earlier entries and the other fields unchanged; `AttributeError` naming `EasyfattXML` without a list |
| RootXml.EasyfattXml.RemoveDocument | src/easyfatt_db_connector/xml/root.py:92-93 | the list becomes `RemoveFirst` of the old one, or is unchanged with its `ValueError`; the other fields are unchanged |
| RootXml.EasyfattXml.SetCompany | src/easyfatt_db_connector/xml/root.py:95-96 | `company` becomes the argument; `documents` and the rest are unchanged |
| RootXml.EasyfattXml.RemoveCompany | src/easyfatt_db_connector/xml/root.py:98-99 | `company` becomes None; `documents` and the rest are unchanged |

## Left out

- lxml parsing (`from_xml_string`) and its XPath engine: the element is a
  datatype built beforehand. `find` and the two-step `container/item`
  path are functions.
- An empty list-container name: the source would build an absolute XPath.
  The model raises `XPathError` instead.
- The `print` of the untracked warning: the warning is returned as a value.
- `get_type_hints` and `setattr` by name: each class carries its resolved
  type hints as data, one scalar kind per attribute. Hints that are
  `Optional[...]` or `list[...]` are classified by their element type, as
  the source's `"[bool]" in str(type)` test does.
- `float()`: a parameter of the decode options (`parseFloat`). The model
  does not say which texts are floats.
- Mapper.Options: floats are Dafny `real`s. There is no NaN or infinity
  and no rounding to IEEE doubles. So `<Price>nan</Price>` or
  `<Price>1e999</Price>` cannot be given Python's value: `parseFloat`
  must reject the text or return some real. NaN's inequality with itself
  is not reflected in `Hashing.Key` either.
- Mapper.Coerce: the conversion error always names "int" or "float". The
  source names `expected_type.__name__`
  (`common/mapper.py:208-211`), which is "int" or "float" for every
  schema field. For an `Optional[int]` or `list[float]` hint it would be
  "Optional" or "list", or an `AttributeError` on Python 3.9. No schema
  class has such a numeric hint, so the model does not carry the hint's
  name.
- `int()`: the base-10 grammar is modelled on ASCII digits with
  surrounding whitespace, sign and single underscores. Other Unicode
  digits are not.
- PyText.ParseInt: Python 3.11 and later (and the 3.7-3.10 security
  releases) refuse to convert decimal strings of more than 4300 digits,
  a limit set per interpreter with `sys.set_int_max_str_digits`. The model
  has no limit. So a `<Qty>` of 4301 digits is assigned as an integer
  instead of raising `TypeConversionError`. For the same reason
  `PyText.ParseShowInt` does not hold in Python past 4300 digits.
- Etree.Element: children are elements only. lxml's `iterchildren()` also
  yields comment and processing-instruction children, whose `tag` is not a
  string. The source would list them as untracked and then fail with
  `TypeError` in the warning's `join`. Such children are not modelled.
- Hashing.Key: the key models `XMLMapper.__hash__` only for the classes
  declared with `eq=False` (`Product`, `VatCode`). The other eight schema
  classes are `eq=True` dataclasses, so Python sets their `__hash__` to
  None and `hash()` on them raises `TypeError`. That error is not
  modelled: `Key` gives their instances a key too, also when they are
  nested attribute values. A key is not Python's integer hash. Equal keys
  give equal hashes, but different keys may still collide.
- Python's case mapping: `lower`/`upper` are modelled on ASCII letters,
  enough for the comparisons with "true" and "#TEXT".
- Python's recursion limit: a `FieldGroup` cycle is detected and reported
  as `RecursionError`. Deep nesting of distinct elements is not bounded.
- Dataclass-generated `__eq__`, `__repr__` and `__str__`. `list.remove`
  compares with `==`, which is a parameter of `RemoveDocument`. Its
  identity short-cut is not modelled. Neither is the failure of that
  `==`: the generated `__eq__` reads every field, so comparing with a
  `Document` decoded without `<Date>` or `<Number>` raises
  `AttributeError` in Python. The model's `eq` is total.
- `RootXml.EasyfattXml`: the document list is a value. Aliasing between
  the decoded object's list and the caller's lists is not modelled.
- Exact equality of whole decoded instances: the lemmas state each
  attribute's value instead.
- The commented-out `to_xml`/`to_xml_string`: disabled in the source.
- `xml/common.py`: an older copy of the engine that the package
  `xml/common/` shadows. It is not part of this model.
- `xml/__init__.py` `read_xml`: file reading and byte decoding.
- The ORM, the database connections, the downloader and the integration
  scripts: I/O and foreign calls.
- `core/exceptions.py`: its classes are variants of `Exceptions.Error`.
