# serr in Dafny

A model of the Go package `serr`: a structured error that wraps a cause,
carries a context map (string key to an ordered sequence of values), and
renders as two lines, `Error: <cause message>` followed by
`Context: <rendered context>`.

Layout:

- `serr.dfy`, module `Serr`: the context contents and their operations
  (append at a key, merge a map in, merge in a given key order), the
  formatter and its selection, the error text and its parser, the class
  `Context` (the Go map, a reference), and the datatype `StructuredError`
  (the Go struct) with `Error`, `Context`, `AddContext` and `AddContextMap`,
  plus the package-level `Wrap`.
- `scenarios.dfy`, module `SerrScenarios`: client methods that replay the
  package's tests (`serr_test.go`) and the aliasing cases around them.

How the Go program maps onto the model:

- A Go `Context` is a map and so a reference. It is the class
  `Serr.Context` with one field, `entries: map<string, seq<V>>`. Go reads a
  missing key as a nil slice; `Lookup` reads it as `[]`.
- `StructuredError` is a Go struct copied by value that holds that
  reference. It is a datatype holding a `Context` object. Its value-receiver
  methods `AddContext` and `AddContextMap` therefore write into the map
  shared with the receiver, have `modifies ctx`, and return `this`.
- A `ContextFormatter` is the datatype `Formatter`: either `JsonFormatter`
  or `Custom(render)`, where `render` is any function from contents to text.
- `encoding/json.Marshal` is the parameter `marshal` of `Error`. It returns
  `Marshalled(data)` or `MarshalError`. `JsonRender` drops the error as the
  source does, so a failed marshal renders as the empty string.
- The cause is `Cause(message)`, where `message` is its `Error()` text.
- The values stored under keys (Go's `any`) are the type parameter `V`.

`AddContext` and `AddContextMap` do not copy on write: they write in place
into the map that the receiver shares (serr.go:36, serr.go:43) and return
the receiver. The tests rely on this: they discard the returned values and
still see the additions through the receiver (serr_test.go:16-26). Only
`Context.Wrap` copies (serr.go:65-68), so the base map a caller holds is
never changed by later additions (serr_test.go:54).

## Model

| member | source | states |
|---|---|---|
| Serr.Lookup | serr.go:36 | no contract: reads a missing key as the empty sequence, as Go reads a missing map key as a nil slice (also at serr.go:43 and serr.go:67) |
| Serr.MergeInOrder | serr.go:42-44 | the loop of `AddContextMap` run in one fixed order of keys of `m`; its key set is the old keys plus the visited ones |
| Serr.Render | serr.go:29 | the interface call `se.fmt.Render(se.ctx)`: the JSON formatter renders through `JsonRender`, a custom one through its own function (serr.go:79-81) |
| Serr.Context.constructor | serr.go:54 | a `Context{...}` literal: a new map object holding exactly the given contents |
| Serr.Appended | serr.go:35-38 | appending at `key` makes `key` present (even for no values) holding the old sequence (empty if absent) followed by `vals`; every other key keeps its sequence |
| Serr.StructuredError.AddContext | serr.go:35-38 | writes the appended contents into the shared map in place and returns the same struct (same cause, map object and formatter) |
| Serr.AppendedTwice | serr.go:36 | two additions at one key concatenate in call order, exactly as one addition of both value lists; nothing is overwritten or deduplicated |
| Serr.AppendedNewKey | serr.go:36 | adding at an absent key stores exactly the given values |
| Serr.Merged | serr.go:41-46 | the merged key set is the union, and each key holds its old sequence followed by the merged map's sequence (absent reads as empty) |
| Serr.StructuredError.AddContextMap | serr.go:41-46 | the loop over the keys of `m` leaves the shared map equal to the merge of its old contents with `m`'s old contents; `m` is unchanged unless it is the receiver's own map, in which case every sequence is doubled |
| Serr.MergeOrderIndependent | serr.go:42-44 | running the loop in any enumeration of `m`'s keys without repeats gives the same contents, the merge |
| Serr.MergeInOrderMergesVisited | serr.go:42-44 | running the loop over any list of distinct keys of `m` merges exactly the part of `m` at those keys |
| Serr.AppendedIsMergedSingleton | serr.go:36-43 | adding values at one key equals merging the one-key map holding them |
| Serr.MergedTwice | serr.go:41-46 | two merges in a row equal one merge of the two maps merged first, so overlapping keys concatenate rather than overwrite |
| Serr.MergedEmpty | serr.go:41-46 | merging an empty map leaves the contents unchanged |
| Serr.MergedDisjoint | serr.go:41-46 | merging a map whose keys are all new is the plain union of the two maps |
| Serr.AppendedThenMerged | serr.go:42-44 | adding one key and then merging a map without it equals merging the map extended with that key |
| Serr.Visited | serr.go:42-44 | the part of the merged map that the loop has visited has exactly the keys not still to do |
| Serr.Context.Wrap | serr.go:57-75 | builds a fresh map, filled key by key, whose contents equal the receiver's; the cause is stored unchanged and the formatter is the selected one |
| Serr.SelectFormatter | serr.go:58-63 | the first supplied formatter when there is one, otherwise the JSON default |
| Serr.Wrap | serr.go:9-12 | the package-level wrap gives a fresh, empty map, the cause unchanged, and the selected formatter |
| Serr.JsonRender | serr.go:87-90 | the JSON formatter renders the marshalled text, or the empty string when marshalling fails (the error is dropped) |
| Serr.StructuredError.Error | serr.go:22-32 | the text is `Error: ` + cause message + newline + `Context: ` + rendered context, with no trailing newline; for a one-line message, parsing the text gives back the message and the rendered context |
| Serr.ParseErrorTextRoundTrip | serr.go:22-32 | the error text loses nothing: a message without a newline and the rendered context are recovered exactly |
| Serr.ParseErrorTextSound | serr.go:22-32 | any text that parses is an error text, and its message has no newline |
| Serr.IndexOf | serr.go:27 | parser helper inverting the text built at serr.go:25-29, not a model of the builder calls: the first position of the separator character, or the length when it is absent; no earlier position holds it |
| Serr.SplitLine | serr.go:25-28 | parser helper inverting the text built at serr.go:25-29: splitting at the first newline gives a newline-free first line, and putting the parts back together gives the original text |
| Serr.StripPrefix | serr.go:25-28 | parser helper inverting the text built at serr.go:25-29: the text after a fixed prefix, exactly when the text starts with that prefix |
| Serr.StructuredError.Context | serr.go:49-51 | returns the very map object the error holds, not a copy |
| Serr.ErrorDeterministic | serr.go:22-32 | two errors with the same cause, formatter and map contents render the same text, so repeated calls agree |
| SerrScenarios.WrapThenAdd | serr_test.go:13-29 | after `Wrap` and two additions whose results are discarded, the receiver sees all three keys, a `Context()` taken before the additions sees the same, and the text is the expected two lines |
| SerrScenarios.ContextWrapThenAdd | serr_test.go:34-55 | wrapping a base map and adding to the error gives all four keys, while the base map still holds only its own key |
| SerrScenarios.TwoChainsFromOneBase | serr.go:65-68 | two errors wrapped from one base do not see each other's additions, and the value an addition returns shares its receiver's map |
| SerrScenarios.AddTwice | serr.go:36 | two additions at one key on a fresh error keep both value lists in call order |
| SerrScenarios.MergeIntoItself | serr.go:41-46 | merging an error's own map into it doubles every sequence and adds no key |
| SerrScenarios.CustomFormatter | serr.go:58-63 | a formatter given at wrap time is the one that renders, and two calls of `Error` return the same text |
| SerrScenarios.MarshalFailure | serr.go:87-90 | when marshalling a context holding an added value fails, the context line is `Context: ` with nothing after it |
| SerrScenarios.WrapContents | serr_test.go:22-26 | the contents the first test expects are the merge of one added key with the two-key map |
| SerrScenarios.ContextWrapContents | serr_test.go:44-49 | the contents the second test expects are the base key, the added key and the two-key map |

## Left out

- The body of `encoding/json.Marshal`: the value encoding, escaping and sorted key order are library behaviour. The model takes `marshal` as a parameter, and the scenarios state the JSON text the tests expect as a requirement on it.
- The distinction between a nil slice and an empty slice. `AddContext(key)` with no values at an absent key stores a nil slice (at a present key the slice is stored again unchanged), and `Context.Wrap` turns an empty non-nil slice into nil. JSON renders the two differently (`null` and `[]`). The model has one empty sequence for both, so that difference in the rendered text is not captured.
- Slice backing arrays. Sequences are values in the model. In the source, `append` onto a nil slice always allocates, so the copies made by `Context.Wrap` and the sequences appended from `m` never share storage with their origin.
- A formatter that changes the map it is given. `Render` receives the map in Go; here a formatter sees only the contents.
- A nil cause or a nil formatter passed to `Wrap` (both make `Error` panic in Go). The model has no nil values.
- The cause's `error` interface. Only its `Error()` text is kept.
- Go's randomised map iteration order. The loops pick any remaining key, and `MergeOrderIndependent` shows the order does not matter.
- Concurrency. The source has none, and concurrent use of the shared map would race.
- `strings.Builder`. The text is a plain concatenation.
