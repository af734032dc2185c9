/**
 * The declared shape of the gateway's schema: the `Data` object type with three string
 * fields and the root query field `getData(id: String): Data`. The schema is built once by
 * the GraphQL library, which also validates queries against it before any resolver runs;
 * only the declared names are recorded here.
 */
module Schema {
  import opened Wrappers
  import opened GraphQLAst
  import opened FieldSelector

  /** The fields of the `Data` object type, all of type `String`. */
  const DataFieldNames: set<string> := {"id", "name", "description"}

  /** The meta-field GraphQL allows in every object selection set, besides the declared fields. */
  const TypenameField := "__typename"

  /** The field names validation accepts directly under `getData`. */
  const SelectableNames: set<string> := DataFieldNames + {TypenameField}

  /** A selection set whose plain fields all pass validation against the `Data` type. */
  ghost predicate SelectsValidNames(sels: seq<Selection>)
  {
    forall i :: 0 <= i < |sels| && sels[i].FieldSelection? ==> sels[i].field.name in SelectableNames
  }

  /**
   * After validation every mask path is a declared field of `Data` or the meta-field
   * `__typename` (which the gateway forwards like any other name), and there are at most as
   * many paths as the selection set has nodes.
   */
  lemma {:induction false} ValidatedMaskWithinSchema(sels: seq<Selection>)
    requires SelectsValidNames(sels)
    ensures forall p :: p in FieldNames(sels) ==> p in DataFieldNames || p == TypenameField
    ensures |FieldNames(sels)| <= |sels|
  {
    forall p | p in FieldNames(sels)
      ensures p in SelectableNames
    {
      var k :| 0 <= k < |FieldNames(sels)| && FieldNames(sels)[k] == p;
      FieldNamesEnumerateFields(sels);
      assert ComesFromField(sels, FieldNames(sels), k);
    }
    FieldNamesLength(sels);
    CountFieldsAtMostLength(sels);
  }

  /**
   * `getData(id: "1") { __typename id }` passes validation, and `__typename` is forwarded to
   * the downstream as a mask path although `Data` declares no such field.
   */
  lemma TypenameReachesMask()
    ensures var sels := [FieldSelection(Field(None, TypenameField, SelectionSet([]))),
                         FieldSelection(Field(None, "id", SelectionSet([])))];
            SelectsValidNames(sels) && FieldNames(sels) == [TypenameField, "id"]
            && TypenameField !in DataFieldNames
  {
    var sels := [FieldSelection(Field(None, TypenameField, SelectionSet([]))),
                 FieldSelection(Field(None, "id", SelectionSet([])))];
    assert FieldNames(sels[1..]) == ["id"];
  }
}
