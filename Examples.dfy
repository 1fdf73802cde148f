/**
 * Small documents and what the parser makes of them: one example per
 * decision the grammar takes, and one per kind of syntax error.  The
 * accepted documents are instances of the round-trip theorem; the rejected
 * ones are evaluated directly.
 */
module Examples {
  import opened Lexer
  import opened Ast
  import opened Grammar
  import opened Syntax
  import RoundTrip

  function Leaf(name: string): Selection {
    Field(name, name, None, map[], None)
  }

  function LeafSyntax(name: string): SelectionSyntax {
    FieldSyntax(name, None, None, [], None)
  }

  /** `{ a b }` is the anonymous query, stored under "", with its fields in order. */
  lemma AnonymousQuery()
    ensures Parse(Cons(Punct('{'), Cons(Ident("a"), Cons(Ident("b"), Cons(Punct('}'), Nil))))) ==
      Ok(Document(map["" := Operation(Query, "", None, SelectionSet([Leaf("a"), Leaf("b")]))], map[]))
  {
    var defs := [AnonymousOperation(Braces([LeafSyntax("a"), LeafSyntax("b")]))];
    RoundTrip.ParseRendered(defs);
    assert RenderDocument(defs) == Cons(Punct('{'), Cons(Ident("a"), Cons(Ident("b"), Cons(Punct('}'), Nil))));
    assert AbstractSelections(defs[0].body.selections) == [Leaf("a"), Leaf("b")];
    assert OperationEntries(defs) == [("", Operation(Query, "", None, SelectionSet([Leaf("a"), Leaf("b")])))];
  }

  /** `query Q { x: y }`: a named query; the field's alias is `x` and its name `y`. */
  lemma NamedQueryWithAlias()
    ensures Parse(Cons(Ident("query"), Cons(Ident("Q"), Cons(Punct('{'), Cons(Ident("x"), Cons(Punct(':'), Cons(Ident("y"), Cons(Punct('}'), Nil)))))))) ==
      Ok(Document(map["Q" := Operation(Query, "Q", None, SelectionSet([Field("x", "y", None, map[], None)]))], map[]))
  {
    var defs := [OperationDefinition(Query, Some("Q"), None, Braces([FieldSyntax("x", Some("y"), None, [], None)]))];
    RoundTrip.ParseRendered(defs);
    assert RenderDocument(defs) ==
      Cons(Ident("query"), Cons(Ident("Q"), Cons(Punct('{'), Cons(Ident("x"), Cons(Punct(':'), Cons(Ident("y"), Cons(Punct('}'), Nil)))))));
    assert AbstractSelections(defs[0].body.selections) == [Field("x", "y", None, map[], None)];
    assert OperationEntries(defs) == [("Q", Operation(Query, "Q", None, SelectionSet([Field("x", "y", None, map[], None)])))];
  }

  /** `mutation { }`: an empty selection set is accepted. */
  lemma EmptyMutation()
    ensures Parse(Cons(Ident("mutation"), Cons(Punct('{'), Cons(Punct('}'), Nil)))) ==
      Ok(Document(map["" := Operation(Mutation, "", None, SelectionSet([]))], map[]))
  {
  }

  /** `(x: "s", x: $v)`: the repeated argument keeps its last value. */
  lemma RepeatedArgument()
    ensures ParseArguments(Cons(Punct('('), Cons(Ident("x"), Cons(Punct(':'), Cons(Str("s"), Cons(Punct(','),
      Cons(Ident("x"), Cons(Punct(':'), Cons(Punct('$'), Cons(Ident("v"), Cons(Punct(')'), Nil))))))))))) ==
      Ok(Parsed(map["x" := Variable("v")], Nil))
  {
    var args := [ArgSyntax("x", StringLit("s")), ArgSyntax("x", VarRef("v"))];
    RoundTrip.ArgumentsRoundTrip(args, Nil);
    assert RenderArguments(args, Nil) == Cons(Punct('('), Cons(Ident("x"), Cons(Punct(':'), Cons(Str("s"), Cons(Punct(','),
      Cons(Ident("x"), Cons(Punct(':'), Cons(Punct('$'), Cons(Ident("v"), Cons(Punct(')'), Nil))))))))));
    assert ArgumentEntries(args) == [("x", Literal("s")), ("x", Variable("v"))];
    assert map[]["x" := Literal("s")]["x" := Variable("v")] == map["x" := Variable("v")];
  }

  /** `($v: Int!)`: the variable is recorded without its `!`. */
  lemma NonNullVariable()
    ensures VariablesLoop(Cons(Punct('$'), Cons(Ident("v"), Cons(Punct(':'), Cons(Ident("Int"), Cons(Punct('!'),
      Cons(Punct(')'), Nil)))))), map[]) ==
      Ok(Parsed(map["v" := VariableDef("v", "Int")], Cons(Punct(')'), Nil)))
  {
  }

  /** `...G @d`: a fragment spread with one directive. */
  lemma SpreadWithDirective()
    ensures ParseSelection(Cons(Punct('.'), Cons(Punct('.'), Cons(Punct('.'), Cons(Ident("G"), Cons(Punct('@'), Cons(Ident("d"),
      Cons(Punct('}'), Nil)))))))) ==
      Ok(Parsed(FragmentSpread("G", map["d" := Directive("d", None)]), Cons(Punct('}'), Nil)))
  {
  }

  /** `query {` stops where a field should start and finds the end of the input. */
  lemma UnclosedSelectionSet()
    ensures Parse(Cons(Ident("query"), Cons(Punct('{'), Nil))) == Err(Unexpected(EOF, IdentToken))
  {
  }

  /** `bogus { a }`: an unknown keyword is reported as a missing `fragment`. */
  lemma UnknownKeyword()
    ensures Parse(Cons(Ident("bogus"), Cons(Punct('{'), Cons(Ident("a"), Cons(Punct('}'), Nil))))) ==
      Err(Unexpected(Ident("bogus"), Keyword("fragment")))
  {
  }

  /** `(a: b c: d)`: arguments must be separated by commas. */
  lemma MissingComma()
    ensures ParseArguments(Cons(Punct('('), Cons(Ident("a"), Cons(Punct(':'), Cons(Ident("b"),
      Cons(Ident("c"), Cons(Punct(':'), Cons(Ident("d"), Cons(Punct(')'), Nil))))))))) ==
      Err(Unexpected(Ident("c"), PunctToken(',')))
  {
  }

  /** `(n: 1)`: a number is not a value the parser accepts. */
  lemma NumberIsInvalid()
    ensures ParseArguments(Cons(Punct('('), Cons(Ident("n"), Cons(Punct(':'), Cons(Num("1"), Cons(Punct(')'), Nil)))))) ==
      Err(InvalidValue)
  {
  }
}
