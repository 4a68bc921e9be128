# Document views of nanoc, modelled in Dafny

nanoc compiles a site's items and layouts. Code being compiled reads other
documents only through *views*: thin read-only wrappers around one document
(content, attribute map, identifier). This project models the behaviour all
document views share, as exercised by the shared examples
`'a document view'`. The examples' ordered visit expectations and the
`KeyError` of a bare `fetch` constrain the behaviour directly. The results
of `fetch` when it does not raise, and of `key?`, are written in the
examples as `it { should eql?(x) }`. That form calls `eql?` on the example
object itself and checks nothing. For those results the model follows
Ruby's `Hash#fetch` and `Hash#key?`, which is what the examples evidently
intend:

- **Equality by identity.** A view equals any document, or any view of any
  kind (item view, layout view), that has the same identifier. Content and
  attributes play no part. A view equals nothing without an identifier, such
  as `nil`. `==` and `eql?` behave identically in every example, so both are
  modelled by the one predicate `DocumentView.Equal`.
- **Readers.** `[]`, `attributes`, `fetch` and `key?` each return something
  derived from the attribute map. Each also posts `visit_started(doc)` and
  then `visit_ended(doc)`, whether the key is present or not. The global
  notification centre is modelled as an explicit, immutable log
  (`Notifications.Log`) that each reader takes and returns extended.
- **Hash.** A view's hash is its class's hash XOR its identifier's hash. Both
  of these are opaque Ruby values, so they come in as the functions of a
  `Hasher` parameter.

Files:

- `wrappers.dfy`: `Option` and `Result`.
- `documents.dfy`: attribute values and documents.
- `notifications.dfy`: visit events, the log, and `Replay`. `Replay` checks
  that every visit is closed by an end for the same document, in stack order.
- `document_view.dfy`: view kinds, equality, hash, the four readers, and the
  laws relating them.
- `reads.dfy`: a run of reads made one after another through views. This is
  the composition of the readers, with lemmas showing that every read is
  logged.

## Model

| member | source | states |
|---|---|---|
| DocumentView.Equal | spec/nanoc/base/views/document_view_spec.rb:2-49 | A view is equal to an object exactly when that object carries an identifier (a document or a view) equal to the view's document's identifier. |
| DocumentView.EqualIffSameIdentifier | spec/nanoc/base/views/document_view_spec.rb:3-40 | For any kinds, contents and attributes, a view equals another view, or a raw document, if and only if the identifiers are equal. Between two views this holds in both orders of the comparison. |
| DocumentView.NeverEqualToNonDocument | spec/nanoc/base/views/document_view_spec.rb:42-49 | A view is never equal to `nil` or to a plain value. |
| DocumentView.EqualIsEquivalenceOnViews | spec/nanoc/base/views/document_view_spec.rb:24-40 | Among views, equality is reflexive, symmetric and transitive. |
| DocumentView.Hash | spec/nanoc/base/views/document_view_spec.rb:152-159 | XOR-ing the view's hash with its class's hash gives back the identifier's hash. |
| DocumentView.HashDependsOnKindAndIdentifierOnly | spec/nanoc/base/views/document_view_spec.rb:152-159 | Two views of the same kind whose documents share an identifier have equal hashes, whatever their content or attributes. |
| DocumentView.HashInjectiveWithinKind | spec/nanoc/base/views/document_view_spec.rb:152-159 | Within one kind, two views have equal hashes exactly when their identifiers' hashes are equal. |
| DocumentView.EqualAcrossKindsHashDiffers | spec/nanoc/base/views/document_view_spec.rb:152-159 | An item view and a layout view with the same identifier are equal. Their hashes still differ whenever the two classes hash differently. |
| DocumentView.Index | spec/nanoc/base/views/document_view_spec.rb:52-71 | `view[key]` returns the stored value when the key is present and `None` (nil) when it is absent. Either way it appends exactly a start and then an end for the document, and earlier entries stay unchanged. |
| DocumentView.Attributes | spec/nanoc/base/views/document_view_spec.rb:74-87 | `attributes` returns a map with the document's keys and values. It appends exactly one visit of the document to the log. |
| DocumentView.Fetch | spec/nanoc/base/views/document_view_spec.rb:90-128 | A present key yields its value whatever the fallback. A missing key yields the default if one is given, else the block's result if a block is given, else a `KeyError` for that key. One visit is appended in every case, including the error case. |
| DocumentView.HasKey | spec/nanoc/base/views/document_view_spec.rb:130-150 | `key?` is true exactly when the key is in the attribute map. It appends one visit either way. |
| DocumentView.ReadersPostAlike | spec/nanoc/base/views/document_view_spec.rb:58-137 | Given the same view and log, all four readers leave the same log. |
| DocumentView.ReadersAgreeWithAttributes | spec/nanoc/base/views/document_view_spec.rb:52-149 | `[]`, `key?` and `fetch` agree with the map `attributes` returns. `fetch` fails exactly when `key?` is false and no fallback is given. |
| DocumentView.FetchWithDefaultIsIndexOr | spec/nanoc/base/views/document_view_spec.rb:99-113 | `fetch(key, default)` is `view[key]` with the default used in place of a missing key (`None`). |
| DocumentView.ReadersKeepWellNested | spec/nanoc/base/views/document_view_spec.rb:58-61 | Every reader keeps a well-nested log well-nested. |
| Notifications.PostVisit | spec/nanoc/base/views/document_view_spec.rb:58-61 | Posting a visit appends exactly `visit_started(d)` and then `visit_ended(d)`, leaving every earlier entry unchanged. |
| Notifications.ReplayConcat | spec/nanoc/base/views/document_view_spec.rb:58-61 | Replaying a concatenated log is the same as replaying the first part and then the second part from the stack the first part left. |
| Notifications.PostVisitKeepsOpenVisits | spec/nanoc/base/views/document_view_spec.rb:58-61 | A posted start/end pair leaves the stack of open visits as it found it. A malformed log stays malformed. |
| Notifications.PostVisitKeepsWellNested | spec/nanoc/base/views/document_view_spec.rb:58-61 | Posting a visit keeps a well-nested log well-nested. |
| Notifications.PostVisitCounts | spec/nanoc/base/views/document_view_spec.rb:58-61 | Posting a visit adds exactly one start and one end for that document. No other document's counts change. |
| Reads.PerformAll | spec/nanoc/base/views/document_view_spec.rb:52-149 | In a run of reads, each read's answer is what that read returns on its own. The log grows by exactly one start/end pair per read, in order, each for the document that read's view wraps. The earlier log stays unchanged. |
| Reads.PerformIgnoresLog | spec/nanoc/base/views/document_view_spec.rb:52-149 | A reader's answer does not depend on what was posted before. |
| Reads.PerformAllCountsVisits | spec/nanoc/base/views/document_view_spec.rb:58-137 | After a run, each document has gained exactly as many starts, and as many ends, as there were reads of it. |
| Reads.EveryReadIsVisited | spec/nanoc/base/views/document_view_spec.rb:58-137 | Every document read in a run appears in the log with both a start and an end. |
| Reads.PerformAllKeepsOpenVisits | spec/nanoc/base/views/document_view_spec.rb:58-137 | A run of reads leaves the stack of open visits unchanged. |
| Reads.PerformAllKeepsWellNested | spec/nanoc/base/views/document_view_spec.rb:58-137 | A run of reads keeps a well-nested log well-nested. |

## Left out

- The view classes' own implementation files are not part of this model. The behaviour follows the shared examples.
- The global notification centre and its subscribers are left out. Notifications are an explicit log instead of global state.
- The view context (the second constructor argument) is left out. The examples always pass `nil`, and nothing inspects it.
- Ruby's actual `Class#hash` and `String#hash` values are left out. They are randomised per process, so they are parameters (`Hasher`).
- DocumentView.Fetch: calling `fetch` with both a default and a block is not modelled. The examples do not pin down which one wins, so `Fallback` is one of none, a default or a block.
- DocumentView.Fetch: the block is modelled as a producer with no arguments. The example's block ignores whatever it is given.
- DocumentView.Index: the result tells a missing key (`None`) apart from a stored nil (`Some(Nil)`). Ruby's `[]` returns the same `nil` for both.
- Lookups with keys that are not symbols are not modelled. A key is the symbol's name, so `view['animal']` and `view[:animal]` are not told apart, whereas Ruby returns `nil` for the string key.
- Attribute values cover nil, strings, integers, booleans, symbols, lists and nested maps. Other Ruby objects are left out because no property depends on them.
- Document content is left out as a behavioural input. It is carried along, but no behaviour depends on it.
- Dependency tracking is left out. This covers the compiling stack, the dependency graph, outdatedness resolution and persistence, none of which the view examples exercise.
