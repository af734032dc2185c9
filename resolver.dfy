/**
 * The `getData` resolver: it reads the `id` argument, builds one downstream `DataRequest`
 * whose field mask lists the fields selected under `getData`, calls the downstream once and
 * hands back either the downstream record or the downstream error, unchanged.
 *
 * The downstream `GetData` remote call is a parameter of the resolver: a function from the
 * request to the record or error it answers with.
 */
module Resolver {
  import opened Wrappers
  import opened GraphQLAst
  import opened FieldSelector

  /** The dynamic value of one coerced GraphQL argument. */
  datatype ArgValue =
    | StringValue(s: string)
    | IntValue(i: int)
    | BoolValue(b: bool)
    | NullValue
    | ListValue(items: seq<ArgValue>)

  /** What the executor passes to a resolver: the arguments and the field's AST nodes. */
  datatype ResolveInfo = ResolveInfo(fieldASTs: seq<Field>)
  datatype ResolveParams = ResolveParams(args: map<string, ArgValue>, info: ResolveInfo)

  /** The downstream wire types: a `google.protobuf.FieldMask`, the request and the record. */
  datatype FieldMask = FieldMask(paths: seq<string>)
  datatype DataRequest = DataRequest(id: string, fieldMask: FieldMask)
  datatype DataRecord = DataRecord(id: string, name: string, description: string)
  datatype RpcError = RpcError(code: nat, message: string)

  /** The downstream `GetData` call, as seen by the resolver. */
  type Downstream = DataRequest -> Result<DataRecord, RpcError>

  /**
   * One run of the resolver: the requests it sent downstream, in order, and its
   * `(value, error)` return pair, where `None` stands for Go's nil.
   */
  datatype Resolution = Resolution(calls: seq<DataRequest>, value: Option<DataRecord>, err: Option<RpcError>)

  /** The `id` argument when it is present and a string; the empty string otherwise. */
  function IdArgument(args: map<string, ArgValue>): (id: string)
  {
    if "id" in args && args["id"].StringValue? then args["id"].s else ""
  }

  /** The request sent downstream for one resolution of `getData`. */
  function BuildRequest(params: ResolveParams): (request: DataRequest)
    requires |params.info.fieldASTs| > 0
  {
    DataRequest(IdArgument(params.args),
                FieldMask(FieldNames(params.info.fieldASTs[0].selectionSet.selections)))
  }

  /** The resolver body, given the downstream it calls. */
  function Resolve(params: ResolveParams, client: Downstream): (r: Resolution)
    requires |params.info.fieldASTs| > 0
    ensures |r.calls| == 1 && r.calls[0] == BuildRequest(params)
    ensures r.value.Some? != r.err.Some?
    ensures r.err.Some? <==> client(r.calls[0]).Failure?
    ensures client(r.calls[0]).Failure? ==> r.err == Some(client(r.calls[0]).error)
    ensures client(r.calls[0]).Success? ==> r.value == Some(client(r.calls[0]).value)
  {
    var request := BuildRequest(params);
    match client(request)
    case Failure(e) => Resolution([request], None, Some(e))
    case Success(record) => Resolution([request], Some(record), None)
  }

  /**
   * The id sent downstream is the `id` argument verbatim when that is a string (the empty
   * string included), and the empty string when the argument is missing or of another kind.
   */
  lemma IdArgumentCases(args: map<string, ArgValue>, id: string)
    ensures IdArgument(args) == id <==>
              ("id" in args && args["id"] == StringValue(id))
              || (id == "" && !("id" in args && args["id"].StringValue?))
  {
  }

  /**
   * The request's mask enumerates exactly the plain fields selected under the first field
   * AST: one path per plain-field node, each at the rank of its node, no other path.
   */
  lemma RequestMaskMatchesSelection(params: ResolveParams)
    requires |params.info.fieldASTs| > 0
    ensures EnumeratesFields(params.info.fieldASTs[0].selectionSet.selections,
                             BuildRequest(params).fieldMask.paths)
  {
    FieldNamesEnumerateFields(params.info.fieldASTs[0].selectionSet.selections);
  }

  /**
   * Only the id and the top-level field names reach the downstream: two resolutions whose
   * first field ASTs select the same names with the same id send the same request, whatever
   * the aliases, fragments and nested selections, and so return the same result whenever the
   * downstream gives the same answer to that request.
   */
  lemma ResolveDependsOnlyOnIdAndNames(p: ResolveParams, q: ResolveParams, client: Downstream)
    requires |p.info.fieldASTs| > 0 && |q.info.fieldASTs| > 0
    requires IdArgument(p.args) == IdArgument(q.args)
    requires FieldNames(p.info.fieldASTs[0].selectionSet.selections)
             == FieldNames(q.info.fieldASTs[0].selectionSet.selections)
    ensures Resolve(p, client) == Resolve(q, client)
  {
  }

  /**
   * A worked query `getData(id: "42") { id name ...Extra again: name }` against a downstream that
   * answers with a record for id "42" and with a transport error otherwise.
   */
  lemma FetchByIdExample(extraFragment: string)
    ensures var top := [FieldSelection(Field(None, "id", SelectionSet([]))),
                        FieldSelection(Field(None, "name", SelectionSet([]))),
                        FragmentSpread(extraFragment),
                        FieldSelection(Field(Some("again"), "name", SelectionSet([])))];
            var params := ResolveParams(map["id" := StringValue("42")],
                                        ResolveInfo([Field(None, "getData", SelectionSet(top))]));
            var record := DataRecord("42", "Widget", "");
            var refused := RpcError(14, "connection refused");
            var client := (req: DataRequest) => if req.id == "42" then Success(record) else Failure(refused);
            var r := Resolve(params, client);
            r.calls == [DataRequest("42", FieldMask(["id", "name", "name"]))]
            && r.value == Some(record) && r.err == None
            && Resolve(ResolveParams(map[], params.info), client).err == Some(refused)
  {
    var top := [FieldSelection(Field(None, "id", SelectionSet([]))),
                FieldSelection(Field(None, "name", SelectionSet([]))),
                FragmentSpread(extraFragment),
                FieldSelection(Field(Some("again"), "name", SelectionSet([])))];
    assert FieldNames(top[3..]) == ["name"];
    assert FieldNames(top[2..]) == ["name"];
    assert FieldNames(top) == ["id", "name", "name"];
  }
}
