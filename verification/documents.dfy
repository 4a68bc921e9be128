/** The data a view wraps: a document with raw content, an attribute map and an
    identifier. Items and layouts are both documents of this shape; they are
    told apart only by the kind of view wrapping them. */
module Documents {

  /** Attribute keys are Ruby symbols (`:animal`); a symbol is its name. */
  type Key = string

  /** A path-like identifier such as "/foo/"; it is the document's identity. */
  type Identifier = string

  /** Attribute values are arbitrary Ruby objects; the model keeps the kinds a
      site's attributes hold in practice. `Nil` is a stored `nil`, which is not
      the same as a missing key. */
  datatype Value =
    | Nil
    | Str(text: string)
    | Int(number: int)
    | Bool(flag: bool)
    | Sym(name: string)
    | List(items: seq<Value>)
    | Dict(entries: map<Key, Value>)

  /** `entity_class.new(content, attributes, identifier)`. The content is
      carried along but no behaviour depends on it. */
  datatype Document = Document(content: string, attributes: map<Key, Value>, identifier: Identifier)
}
