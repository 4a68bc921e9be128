/** The behaviour every document view shares (item views and layout views):
    identifier-based equality, a kind-sensitive hash, and four attribute
    readers that each post one visit of the wrapped document. */
module DocumentView {
  import opened Wrappers
  import opened Documents
  import opened Notifications

  /** The concrete view class wrapping the document. */
  datatype ViewKind = ItemView | LayoutView

  /** A view of one document. The second constructor argument (the view
      context) is threaded through by nanoc and never inspected, so it
      is not carried here. */
  datatype View = View(kind: ViewKind, doc: Document)

  /** Anything a view can be compared with. Documents and views carry an
      identifier; `nil` and plain values do not. */
  datatype Object =
    | NilObject
    | PlainObject(value: Value)
    | DocumentObject(document: Document)
    | ViewObject(view: View)

  /** The identifier an object carries, if it carries one. */
  function IdentifierOf(o: Object): Option<Identifier> {
    match o
    case DocumentObject(d) => Some(d.identifier)
    case ViewObject(w) => Some(w.doc.identifier)
    case _ => None
  }

  /** `view == other`, and equally `view.eql?(other)`: the view equals exactly
      the objects that carry its identifier, whatever their kind, content or
      attributes. */
  predicate Equal(v: View, other: Object)
    ensures Equal(v, other) <==> IdentifierOf(other) == Some(v.doc.identifier)
  {
    match other
    case NilObject => false
    case PlainObject(_) => false
    case DocumentObject(d) => d.identifier == v.doc.identifier
    case ViewObject(w) => w.doc.identifier == v.doc.identifier
  }

  // ---------------------------------------------------------------------------
  // Hash
  // ---------------------------------------------------------------------------

  /** Ruby's `Class#hash` and `String#hash` are opaque, process-randomised
      64-bit values; the model takes them as parameters. */
  datatype Hasher = Hasher(classHash: ViewKind -> bv64, stringHash: Identifier -> bv64)

  /** `view.hash`: the view class's hash mixed with the identifier's hash.
      Undoing the mix with the class hash gives back the identifier's hash. */
  function Hash(h: Hasher, v: View): (r: bv64)
    ensures r ^ h.classHash(v.kind) == h.stringHash(v.doc.identifier)
  {
    h.classHash(v.kind) ^ h.stringHash(v.doc.identifier)
  }

  // ---------------------------------------------------------------------------
  // Attribute readers
  // ---------------------------------------------------------------------------

  /** What an accessor returns, together with the notification log after it. */
  datatype Traced<+T> = Traced(result: T, log: Log)

  /** `view[key]`: the attribute's value, or `None` (Ruby's `nil`) when the
      key is absent; one visit is posted either way. */
  function Index(v: View, key: Key, log: Log): (r: Traced<Option<Value>>)
    ensures r.result.Some? <==> key in v.doc.attributes
    ensures r.result.Some? ==> r.result.value == v.doc.attributes[key]
    ensures RecordsOneVisit(log, r.log, v.doc)
  {
    var after := PostVisit(log, v.doc);
    if key in v.doc.attributes then Traced(Some(v.doc.attributes[key]), after)
    else Traced(None, after)
  }

  /** `view.attributes`: the whole attribute map, as the document holds it;
      reading all attributes is itself one visit. */
  function Attributes(v: View, log: Log): (r: Traced<map<Key, Value>>)
    ensures r.result.Keys == v.doc.attributes.Keys
    ensures forall k :: k in r.result ==> r.result[k] == v.doc.attributes[k]
    ensures RecordsOneVisit(log, r.log, v.doc)
  {
    Traced(v.doc.attributes, PostVisit(log, v.doc))
  }

  /** What `fetch` falls back on when the key is absent: nothing, a default
      value (`fetch(key, default)`) or a block (`fetch(key) { ... }`). */
  datatype Fallback = NoFallback | DefaultValue(value: Value) | Block(produce: () -> Value)

  /** The error `fetch` raises when the key is absent and there is no
      fallback. */
  datatype KeyError = KeyError(key: Key)

  /** `view.fetch(key, ...)`: the attribute's value when present whatever the
      fallback; otherwise the default, or the block's result, or a `KeyError`.
      One visit is posted in every case, the raising one included. */
  function Fetch(v: View, key: Key, fallback: Fallback, log: Log): (r: Traced<Result<Value, KeyError>>)
    ensures key in v.doc.attributes ==> r.result == Success(v.doc.attributes[key])
    ensures key !in v.doc.attributes && fallback.DefaultValue? ==> r.result == Success(fallback.value)
    ensures key !in v.doc.attributes && fallback.Block? ==> r.result == Success(fallback.produce())
    ensures key !in v.doc.attributes && fallback.NoFallback? ==> r.result == Failure(KeyError(key))
    ensures RecordsOneVisit(log, r.log, v.doc)
  {
    var after := PostVisit(log, v.doc);
    if key in v.doc.attributes then Traced(Success(v.doc.attributes[key]), after)
    else match fallback
      case DefaultValue(d) => Traced(Success(d), after)
      case Block(produce) => Traced(Success(produce()), after)
      case NoFallback => Traced(Failure(KeyError(key)), after)
  }

  /** `view.key?(key)`: whether the key is present; one visit either way. */
  function HasKey(v: View, key: Key, log: Log): (r: Traced<bool>)
    ensures r.result <==> key in v.doc.attributes
    ensures RecordsOneVisit(log, r.log, v.doc)
  {
    Traced(key in v.doc.attributes, PostVisit(log, v.doc))
  }

  // ---------------------------------------------------------------------------
  // Equality laws
  // ---------------------------------------------------------------------------

  /** Two views of documents with the same identifier are equal, and each
      equals the other's raw document, whatever the kinds, contents and
      attributes; with different identifiers none of these are equal. */
  lemma EqualIffSameIdentifier(k1: ViewKind, d1: Document, k2: ViewKind, d2: Document)
    ensures Equal(View(k1, d1), ViewObject(View(k2, d2))) <==> d1.identifier == d2.identifier
    ensures Equal(View(k1, d1), DocumentObject(d2)) <==> d1.identifier == d2.identifier
    ensures Equal(View(k2, d2), ViewObject(View(k1, d1))) <==> d1.identifier == d2.identifier
  {
  }

  /** A view equals nothing that carries no identifier, `nil` included. */
  lemma NeverEqualToNonDocument(v: View, other: Object)
    requires other.NilObject? || other.PlainObject?
    ensures !Equal(v, other)
  {
  }

  /** Among views, equality is an equivalence relation. */
  lemma EqualIsEquivalenceOnViews(u: View, v: View, w: View)
    ensures Equal(u, ViewObject(u))
    ensures Equal(u, ViewObject(v)) ==> Equal(v, ViewObject(u))
    ensures Equal(u, ViewObject(v)) && Equal(v, ViewObject(w)) ==> Equal(u, ViewObject(w))
  {
  }

  // ---------------------------------------------------------------------------
  // Hash laws
  // ---------------------------------------------------------------------------

  /** Mixing two hashes with the same third one keeps them apart exactly when
      they were apart. */
  lemma XorCancels(a: bv64, b: bv64, c: bv64)
    ensures (c ^ a == c ^ b) <==> a == b
    ensures (a ^ c == b ^ c) <==> a == b
  {
    assert (c ^ a) ^ c == a;
    assert (c ^ b) ^ c == b;
  }

  /** Views of one kind over documents with equal identifiers hash equally,
      whatever the contents and attributes. */
  lemma HashDependsOnKindAndIdentifierOnly(h: Hasher, k: ViewKind, d1: Document, d2: Document)
    requires d1.identifier == d2.identifier
    ensures Hash(h, View(k, d1)) == Hash(h, View(k, d2))
  {
  }

  /** Within one kind, equal hashes mean equal identifier hashes: the class
      hash adds no collisions of its own. */
  lemma HashInjectiveWithinKind(h: Hasher, v: View, w: View)
    requires v.kind == w.kind
    ensures Hash(h, v) == Hash(h, w) <==> h.stringHash(v.doc.identifier) == h.stringHash(w.doc.identifier)
  {
    var c, a, b := h.classHash(v.kind), h.stringHash(v.doc.identifier), h.stringHash(w.doc.identifier);
    assert Hash(h, v) == c ^ a && Hash(h, w) == c ^ b;
    XorCancels(a, b, c);
  }

  /** The hash is kind-sensitive: an item view and a layout view of the same
      identifier are equal, yet their hashes differ whenever the two classes
      hash differently. Ruby's rule that `eql?` objects hash alike therefore
      holds within a kind only. */
  lemma EqualAcrossKindsHashDiffers(h: Hasher, d1: Document, d2: Document)
    requires d1.identifier == d2.identifier
    requires h.classHash(ItemView) != h.classHash(LayoutView)
    ensures Equal(View(ItemView, d1), ViewObject(View(LayoutView, d2)))
    ensures Hash(h, View(ItemView, d1)) != Hash(h, View(LayoutView, d2))
  {
    XorCancels(h.classHash(ItemView), h.classHash(LayoutView), h.stringHash(d1.identifier));
  }

  // ---------------------------------------------------------------------------
  // Agreement between the readers
  // ---------------------------------------------------------------------------

  /** All four readers post the same notifications: given the same view and
      log, they leave the same log, so no reading path escapes tracking. */
  lemma ReadersPostAlike(v: View, key: Key, fallback: Fallback, log: Log)
    ensures Attributes(v, log).log == Index(v, key, log).log
    ensures Fetch(v, key, fallback, log).log == Index(v, key, log).log
    ensures HasKey(v, key, log).log == Index(v, key, log).log
  {
  }

  /** `[]`, `key?` and `fetch` read the same map `attributes` returns. */
  lemma ReadersAgreeWithAttributes(v: View, key: Key, fallback: Fallback, log: Log)
    ensures Index(v, key, log).result ==
            (if key in Attributes(v, log).result then Some(Attributes(v, log).result[key]) else None)
    ensures HasKey(v, key, log).result <==> key in Attributes(v, log).result
    ensures Fetch(v, key, fallback, log).result.Failure? <==> !HasKey(v, key, log).result && fallback.NoFallback?
  {
  }

  /** `fetch` with a default is `[]` with the default substituted for `nil`. */
  lemma FetchWithDefaultIsIndexOr(v: View, key: Key, default: Value, log: Log)
    ensures Fetch(v, key, DefaultValue(default), log).result == Success(Index(v, key, log).result.GetOr(default))
  {
  }

  /** Each reader keeps a well-nested notification log well-nested. */
  lemma ReadersKeepWellNested(v: View, key: Key, fallback: Fallback, log: Log)
    requires WellNested(log)
    ensures WellNested(Index(v, key, log).log)
    ensures WellNested(Attributes(v, log).log)
    ensures WellNested(Fetch(v, key, fallback, log).log)
    ensures WellNested(HasKey(v, key, log).log)
  {
    PostVisitKeepsWellNested(log, v.doc);
  }
}
