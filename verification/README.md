# MongoDB `mongodb-atlas` tool adapter, modelled in Dafny

The model covers the `mongodb-atlas` tool of the toolbox, as written in
`internal/tools/mongodb/mongodb.go`. A tool configuration names a source,
a collection, a query template, the required auth services and the declared
parameters. `Initialize` binds it to a MongoDB source and yields a `Tool`.
`Invoke` writes the validated parameter values over the stored query, runs a
find with that filter, and decodes the returned documents in cursor order.

Files:

- `results.dfy`: `Option` and `Result`, which stand for Go's `(value, error)` pairs.
- `documents.dfy`: `Value` and `Document`, which stand for Go's `any` and `map[string]any`.
  `Value` covers the JSON-like values; BSON-specific ones (ObjectID, dates, ...) are an
  uninterpreted `Opaque` case, and no contract looks inside a value.
- `binder.dfy` (module `QueryBinder`): the parameter overlay and the `range` loop that performs it.
- `cursor.dfy` (module `Cursors`): the find outcome, the abstract cursor, the error kinds and the accumulation fold.
- `mongodb.dfy` (module `MongoTool`): `Config`, `Source`, `Tool`, `Initialize`, the manifests,
  `Authorized`, `ParseParams` and `Invoke`.

The query template is modelled as the Go code treats it. A `map[string]any` is a reference,
so the model holds it in a class, `QueryMap`. `Initialize` puts the configuration's own
map into the tool (line 73). `Invoke` takes `filter := t.Query` (line 102), which copies the
reference and not the map. So the overlay changes the stored template in place. Keys
written by one call stay in the template for every later call, and they are also visible
through the configuration. A copy per call would keep calls independent. The Go code makes
no copy, and the model follows the code. `Invoke` is tied to the value-level `Call`, and
`InvokeTwice`, `EarlierParametersPersist` and `SecondCallSeesFirstCallsFilter` state the
consequence.

The model abstracts the driver in three ways:

- A `Store` is a function from database, collection and filter to a `FindOutcome`.
- A `FindOutcome` is either a find error or an open cursor.
- A cursor is the sequence of items it yields, each of which decodes or fails, plus the
  optional error its `Err()` reports after iteration stops.

The host's parameter package supplies `ParseParams`, the authorization check and the two
parameter projections. The model takes each of these as a function-typed argument and
states nothing about its internals. `ToolConfigKind`, `ManifestOf`, `McpManifestOf`,
`Authorized`, `ParseParams` and `VisitInOrder` carry no contract of their own. The
lemmas in the table below state their properties, and each lemma's row names them.

## Model

| member | source | states |
|---|---|---|
| MongoTool.Initialize | internal/tools/mongodb/mongodb.go:48-81 | If the named source is missing, the result is a missing-source error and no tool. If it exists but is not a MongoDB source, the result is an incompatible-source error. Otherwise binding succeeds. A successful bind copies name, parameters, collection, auth list and the same query map from the configuration. The kind is always `"mongodb-atlas"`. Client and database come from the source. The two manifests are built from the configured description, auth list, name and parameter projections. |
| MongoTool.KindIgnoresConfiguredKind | internal/tools/mongodb/mongodb.go:44-80 | Covers `ToolConfigKind` (lines 44-46). Changing the configured kind does not change the bound tool. The tool's kind equals the kind the configuration reports, which is the package constant. |
| MongoTool.ManifestsFixedAtBind | internal/tools/mongodb/mongodb.go:61-78 | `ManifestOf` and `McpManifestOf` model `Manifest()` and `McpManifest()` (lines 135-141). They return the values fixed at bind time. Their description is the configured one and the manifest's auth list is the configured one. The MCP name is the configured name. Their parameter parts are the projections of the configured parameters. |
| MongoTool.DelegatesSeeConfiguredFields | internal/tools/mongodb/mongodb.go:131-145 | Covers `Authorized` (lines 143-145) and `ParseParams` (lines 131-133). For a bound tool, the authorization check runs on exactly the configured auth list. The parameter parser runs on exactly the configured parameters. |
| QueryBinder.Overlay | internal/tools/mongodb/mongodb.go:104-107 | After the overlay, every parameter key maps to its parameter value. Every template key that is not a parameter keeps its value. The key set is the union of template keys and parameter keys. |
| QueryBinder.VisitWritesVisited | internal/tools/mongodb/mongodb.go:105-106 | Covers `VisitInOrder`, the loop under one iteration order. Running the assignment loop over any sequence of parameter keys writes exactly the visited parameters over the filter, whatever the order and even with repeats. |
| QueryBinder.VisitOrderIrrelevant | internal/tools/mongodb/mongodb.go:105-107 | Every iteration order of the parameter map gives the same filter, and that filter is the overlay. |
| Cursors.Drain | internal/tools/mongodb/mongodb.go:115-128 | The fold succeeds exactly when every item decodes and the cursor reports no error. A success holds one document per item, in cursor order. If all items decode but the cursor has an error, the result is a cursor error. The fold never returns a partial result or a query error. |
| Cursors.FirstUndecodableAborts | internal/tools/mongodb/mongodb.go:116-120 | The first item that fails to decode decides the result: a parse error with that item's cause. No later item and no cursor error affects it. |
| Cursors.Gather | internal/tools/mongodb/mongodb.go:109-128 | A find error surfaces as a query error with the driver's cause, before any item is read. The result is a query error only in that case. A success means the find opened a cursor whose items all decoded and which ended cleanly. The success holds those documents in order. |
| Cursors.EmptyCursorGivesEmptyResult | internal/tools/mongodb/mongodb.go:115-128 | A cursor with no items and no error gives an empty result, not an error. |
| MongoTool.Call | internal/tools/mongodb/mongodb.go:102-128 | One call seen as values: the stored query after the call holds every template key and every parameter key, parameter keys hold the parameter values and other template keys keep theirs. The find is issued with exactly that stored map, and the result is the cursor fold of its outcome. |
| MongoTool.EarlierParametersPersist | internal/tools/mongodb/mongodb.go:102-107 | Take two consecutive calls on the same tool. The second call's filter holds every template key and every key either call wrote. A key written by the first call and not by the second keeps the first call's value. That filter is the one the second find receives. |
| MongoTool.SecondCallSeesFirstCallsFilter | internal/tools/mongodb/mongodb.go:102-109 | A call with `{"_id": 1}` on an empty template is followed by a call with no parameters. The second call's filter is `{"_id": 1}`, not the empty template, so there is no copy-on-overlay. |
| MongoTool.Invoke | internal/tools/mongodb/mongodb.go:100-128 | The tool's stored query map is updated in place to the overlay of its previous contents with the parameters, one key at a time in any order. The find is issued with that map, and the result is what the cursor fold gives for the find outcome. The new stored map and the result are exactly what `Call` gives for the old stored map, so the value-level lemmas about `Call` hold of `Invoke`. Only the query map is in the frame, so the manifests cannot change. |
| MongoTool.InvokeTwice | internal/tools/mongodb/mongodb.go:100-107 | Two consecutive `Invoke` calls on the same tool, through its shared query map. Afterwards the map holds every original key and every key either call wrote. A key the first call wrote and the second did not keeps the first call's value, and the second find receives that map. With an empty template, `{"_id": 1}` and then no parameters, the second find still filters on `{"_id": 1}`. |

## Left out

- Aggregate and vector-search operations do not exist in this version of the tool. Only find is modelled.
- Driver calls (`Database`, `Collection`, `Find`, `Next`, `Decode`, `Close`, `Err`) are I/O against a library outside the model. They appear only as the abstract `Store` and `Cursor`.
- Context cancellation and the deferred `cursor.Close` are left out for the same reason.
- `tools.ParseParams`, `tools.IsAuthorized`, `Parameters.Manifest()` and `Parameters.McpManifest()` belong to the host's tools package, which is not part of this model. They are uninterpreted function arguments. In particular, the OR semantics of the auth check are not stated.
- `ParamValues` is an ordered slice in the source. The model uses its `AsMap()` view, a `Document`, because `AsMap` is not part of this model.
- Error message texts are not modelled. Only the error kinds and the driver's cause are kept.
- Concurrent calls on one tool race on the shared query map in the source. The model covers only sequential calls.
- Go returns a nil slice when there are no documents. The model returns the empty sequence.
- The `validate:"required"` tags on `Config` are enforced by the host's configuration loader, which is not part of this model.
- The files under `tests/mongodb/` need a live database. One of them does not compile. They are not modelled.
