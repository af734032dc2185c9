/**
 * The part of a parsed GraphQL query that the gateway looks at: selection sets and the
 * nodes they hold (sections 2.4, 2.5 and 2.8 of the GraphQL specification, October 2021).
 * Arguments and directives of a node are not represented; the gateway never reads them.
 */
module GraphQLAst {
  import opened Wrappers

  /** The `{ ... }` block under a field or fragment, its nodes in source order. */
  datatype SelectionSet = SelectionSet(selections: seq<Selection>)

  /** One node of a selection set. */
  datatype Selection =
    | FieldSelection(field: Field)
    | FragmentSpread(fragmentName: string)
    | InlineFragment(typeCondition: Option<string>, selectionSet: SelectionSet)

  /**
   * A field node `alias: name { ... }`; the alias is optional. A field written without a
   * `{ ... }` block is represented with the empty block.
   */
  datatype Field = Field(alias: Option<string>, name: string, selectionSet: SelectionSet)
}
