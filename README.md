# GraphQL-to-gRPC gateway: field selection and the `getData` resolver

The gateway serves one GraphQL query, `getData(id: String): Data`, by calling a downstream
gRPC `GetData` operation. Its translation step is modelled here:

- **Field selection extraction** (`extractFields`): the top-level selections of a GraphQL
  selection set become the paths of a `google.protobuf.FieldMask`. Plain-field nodes
  contribute their name (not their alias), in source order, duplicates included; fragment
  spreads and inline fragments are skipped without error; nested selection sets are not
  entered. The model has a specification function `FieldSelector.FieldNames`, an
  independent count `FieldSelector.CountFields`, and the loop itself as the method
  `FieldSelector.ExtractFields`, proved equal to the specification.
- **The `getData` resolver**: the `id` argument when it is a string, otherwise `""`; one
  `DataRequest { Id, FieldMask { Paths } }` whose paths are the extraction of the first field
  AST's selection set; one downstream call; the downstream error returned as is with a nil
  value, or the downstream record returned as is with a nil error. The downstream is a
  function parameter (`Resolver.Downstream`); the result records the requests sent.
- **Schema**: only the three field names of the `Data` type and the meta-field `__typename`
  that validation also admits, with the consequence that a validated query puts only those
  names in the mask; `__typename` itself is forwarded to the downstream as a path.

Modules: `Wrappers` (Option, Result), `GraphQLAst` (selection sets, fields, fragments, after
sections 2.4, 2.5 and 2.8 of the GraphQL specification, October 2021), `FieldSelector`,
`Resolver`, `Schema`.

## Model

| member | source | states |
|---|---|---|
| `FieldSelector.ExtractFields` | graphql_server.go:16-24 | the append loop returns exactly the field names of the selection list, left to right (loop invariant: the names of the prefix scanned so far) |
| `FieldSelector.FieldNamesAppend` | graphql_server.go:17-23 | extraction distributes over concatenation: extracting `a + b` gives the extraction of `a` followed by that of `b` |
| `FieldSelector.FieldNamesLength` | graphql_server.go:18-22 | the number of paths equals the number of plain-field nodes; other nodes add none |
| `FieldSelector.FieldNamesPlacement` | graphql_server.go:18-20 | each plain-field node contributes its name (not its alias) at the position equal to the number of plain-field nodes before it |
| `FieldSelector.FieldNamesOrigin` | graphql_server.go:18-20 | every path is the name of some plain-field node, the one with exactly as many plain-field nodes before it as the path's position |
| `FieldSelector.OrderAndDuplicatesKept` | graphql_server.go:18-20 | two plain-field nodes at i < j land at two distinct positions in that order, each with its own name, so a repeated name appears twice |
| `FieldSelector.NoPathsIffNoFields` | graphql_server.go:17-23 | the path list is empty if and only if no node is a plain field (so an empty selection set, or one of fragments only, yields no paths) |
| `FieldSelector.NonFieldContributesNothing` | graphql_server.go:19 | inserting a fragment spread or inline fragment anywhere leaves the path list unchanged: it is skipped, no error, no early exit |
| `FieldSelector.CountFieldsAtMostLength` | graphql_server.go:18-22 | a selection list has no more plain-field nodes than nodes |
| `FieldSelector.FieldNamesEnumerateFields` | graphql_server.go:16-24 | the extracted paths enumerate the plain-field nodes exactly: as many paths as such nodes, each node's name at its rank, no path from anywhere else |
| `Resolver.IdArgumentCases` | graphql_server.go:48 | the id sent is a given string exactly when the `id` argument is that string, or the string is `""` and the argument is missing or not a string |
| `Resolver.RequestMaskMatchesSelection` | graphql_server.go:51-59 | the request's field mask enumerates exactly the plain fields selected under the first field AST (`FieldASTs[0]`) |
| `Resolver.Resolve` | graphql_server.go:46-65 | exactly one downstream call, carrying the built request; exactly one of value and error is non-nil; the error is returned iff the downstream failed, and is the downstream's error unchanged; otherwise the value is the downstream record unchanged |
| `Resolver.ResolveDependsOnlyOnIdAndNames` | graphql_server.go:48-64 | two resolutions with the same id and the same top-level field names send the same request, whatever the aliases, fragments and nested selections, hence return the same result for the same downstream answer |
| `Resolver.FetchByIdExample` | graphql_server.go:46-65 | the query `getData(id: "42") { id name ...F again: name }` sends id `"42"` with mask `["id", "name", "name"]` and returns the downstream record; without an `id` the downstream's transport error comes back unchanged |
| `Schema.ValidatedMaskWithinSchema` | graphql_server.go:28-35 | when every selected plain field is one of `id`, `name`, `description` or the meta-field `__typename` (what the library's validation admits), every mask path is one of those names, and there are no more paths than selections |
| `Schema.TypenameReachesMask` | graphql_server.go:18-20 | the validated query `getData(id: "1") { __typename id }` sends the mask `["__typename", "id"]`, a path `Data` does not declare |

## Left out

- `main` (graphql_server.go:80-109): dialing the gRPC server, the HTTP handler reading the
  `query` URL parameter, JSON encoding of the result, logging and `ListenAndServe` are I/O.
- Schema construction (graphql_server.go:26-45, 66-78) is a call into the graphql-go library;
  only the declared field names of `Data` are kept, and the fatal exit on schema failure
  (line 75) is a startup side effect.
- Query parsing, validation against the schema and assembly of the `{data, errors}` response
  envelope all happen inside the library's `graphql.Do` (graphql_server.go:95-98), which is
  not part of this model; `Schema.ValidatedMaskWithinSchema` takes that validation as its
  precondition. Turning a resolver error into an entry of `errors` is therefore not modelled.
- The real `client.GetData` call and `context.Background()` (graphql_server.go:56) are a
  network client: the downstream is the function parameter of `Resolver.Resolve`, so timeouts,
  cancellation and transport behaviour are not modelled.
- Resolver.Resolve: requires at least one field AST; the Go code indexes `FieldASTs[0]` and
  would panic on an empty list, which the library never passes for a field being resolved.
- Resolver.Resolve: "called once" is recorded as the list of requests in the result; with a
  pure downstream function the model cannot observe side effects of the call itself.
- Argument values of kinds other than string, integer, boolean, null and list (floats,
  input objects) are not represented; like every non-string kind they yield the id `""`.
- Go distinguishes a nil `Paths` slice (no plain fields) from an empty one; both encode to
  the same empty field mask on the wire, and the model uses the empty sequence.
- The Go text of `extractFields` does not match the library's AST types as written: line 19
  asserts to `*graphql.Field`, the schema field configuration type of line 31 whose `Name` is
  a plain string, so `field.Name.Value` (line 20) does not fit it, and line 52 passes the
  address of the `SelectionSet` pointer field. The model follows the evident intent: AST
  field nodes and their names (not their aliases). A field written without a `{ }` block has
  a nil selection-set pointer, which line 18 would dereference; the model has no absent block
  and treats it as the empty block. Validation rejects a missing block on the object-typed
  `getData`, so the resolver never sees that case.
- Concurrency of HTTP handlers sharing one gRPC connection belongs to the host runtime.
- A variant of the endpoint that reads the query from a JSON body is not part of this model;
  the code modelled here reads only the URL parameter and leaves field validation to the
  library rather than checking fields itself before the mask is built.
