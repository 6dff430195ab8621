/**
  The exceptions the decoder can raise: the project's own `TypeConversionError`
  (core/exceptions.py) and the Python built-in exceptions that malformed mapping
  tables provoke at run time.
 */
module Exceptions {

  datatype Error =
      /** `__xml_mapping__` is None: the class has no mapping table. */
    | NotImplementedError(cls: string)
      /** A table value that is neither a `str` nor a `BaseField`. */
    | TypeError(cls: string, attr: string)
      /** A descriptor names no class, a class that is not an `XMLMapper`,
          a class without a table, or is a bare `BaseField`. */
    | AttributeError(cls: string)
      /** A scalar attribute without a type annotation (`get_type_hints(cls)[attr]`). */
    | KeyError(cls: string, attr: string)
      /** Text that `int()` or `float()` rejects. */
    | TypeConversionError(cls: string, attr: string, text: string, typeName: string)
      /** Two groups that include each other: the source recurses without end. */
    | RecursionError(cls: string)
      /** A list field whose container name is empty, which the source turns
          into an absolute XPath; not modelled. */
    | XPathError(cls: string, attr: string)
      /** `list.remove` of an absent item. */
    | ValueError

  /** The text the source puts into a `TypeConversionError`. */
  function ConversionMessage(cls: string, attr: string, text: string, typeName: string): (m: string)
    ensures |m| == 24 + |cls| + 1 + |attr| + 4 + |text| + 26 + |typeName| + 2
    ensures m[24..24 + |cls| + 1 + |attr|] == cls + "." + attr
    ensures m[29 + |cls| + |attr|..29 + |cls| + |attr| + |text|] == text
    ensures m[|m| - |typeName| - 2..|m| - 2] == typeName
  {
    "Error while converting `" + cls + "." + attr + "`: `" + text + "` cannot be converted to `" + typeName + "`."
  }
}
