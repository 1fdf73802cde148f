/**
 * The syntax tree the query parser builds (internal/query/query.go).
 * A Go `nil` map or `nil` selection-set pointer is `None`.
 */
module Ast {

  datatype Option<+T> = None | Some(value: T)

  datatype OperationType = Query | Mutation

  /** Operations and fragments, each keyed by name; an anonymous operation has the key "". */
  datatype Document = Document(operations: map<string, Operation>, fragments: map<string, Fragment>)

  datatype Operation = Operation(
    opType: OperationType,
    name: string,
    variables: Option<map<string, VariableDef>>,
    selSet: SelectionSet)

  /** A declared variable; a trailing `!` in the source text is not recorded. */
  datatype VariableDef = VariableDef(name: string, typ: string)

  datatype Fragment = Fragment(name: string, on: string, selSet: SelectionSet)

  /** Selections in source order. */
  datatype SelectionSet = SelectionSet(selections: seq<Selection>)

  datatype Selection =
    | Field(
        alias: string,
        name: string,
        arguments: Option<map<string, Value>>,
        directives: map<string, Directive>,
        selSet: Option<SelectionSet>)
    | FragmentSpread(name: string, directives: map<string, Directive>)

  datatype Directive = Directive(name: string, arguments: Option<map<string, Value>>)

  /** A literal holds either the content of a string token or the text of an identifier. */
  datatype Value = Variable(name: string) | Literal(value: string)

  /** Every directive is stored under its own name. */
  predicate DirectivesKeyedByName(m: map<string, Directive>) {
    forall k :: k in m ==> m[k].name == k
  }

  /** Every variable definition is stored under its own name. */
  predicate VariablesKeyedByName(m: map<string, VariableDef>) {
    forall k :: k in m ==> m[k].name == k
  }
}
