/**
 * The query grammar of internal/query/query.go as functions over the token
 * stream.  Each function is one parse function of the Go code and returns
 * what it parsed together with the stream after it; each `for` loop of the
 * Go code is an accumulating function (`...Loop`) that stops where it peeks
 * the loop's terminator, which the caller then consumes, as the Go code does.
 * A panic with a syntax error is an `Err` result that every caller passes on
 * unchanged.
 */
module Grammar {
  import opened Lexer
  import opened Ast

  /** parseValue: one token of lookahead picks a variable, a string literal or an
      identifier literal; anything else, numbers included, is an invalid value. */
  function ParseValue(ts: Toks): (r: Result<Parsed<Value>>)
    ensures r.Ok? ==> Length(r.value.rest) < Length(ts)
    ensures r.Ok? <==>
      Peek(ts).Str? || Peek(ts).Ident? || (Peek(ts) == Punct('$') && Peek(ts.tail).Ident?)
    ensures r.Ok? && r.value.value.Variable? ==>
      ts == Cons(Punct('$'), Cons(Ident(r.value.value.name), r.value.rest))
    ensures r.Ok? && r.value.value.Literal? ==>
      ts in {Cons(Str(r.value.value.value), r.value.rest), Cons(Ident(r.value.value.value), r.value.rest)}
    ensures Peek(ts) == Punct('$') && !Peek(ts.tail).Ident? ==>
      r == Err(Unexpected(Peek(ts.tail), IdentToken))
    ensures !(Peek(ts).Str? || Peek(ts).Ident? || Peek(ts) == Punct('$')) ==>
      r == Err(InvalidValue)
  {
    var t := Peek(ts);
    if t == Punct('$') then
      var n :- ConsumeIdent(ConsumeToken(ts, '$').value);
      Ok(Parsed(Variable(n.value), n.rest))
    else if t.Str? then
      var s := ConsumeString(ts).value;
      Ok(Parsed(Literal(s.value), s.rest))
    else if t.Ident? then
      var s := ConsumeIdent(ts).value;
      Ok(Parsed(Literal(s.value), s.rest))
    else
      Err(InvalidValue)
  }

  /** parseArgument: `name : value`. */
  function ParseArgument(ts: Toks): (r: Result<Parsed<(string, Value)>>)
    ensures r.Ok? ==> Length(r.value.rest) < Length(ts)
    ensures r.Ok? ==> ts.Cons? && ts.head == Ident(r.value.value.0) && Peek(ts.tail) == Punct(':')
  {
    var n :- ConsumeIdent(ts);
    var c :- ConsumeToken(n.rest, ':');
    var v :- ParseValue(c);
    Ok(Parsed((n.value, v.value), v.rest))
  }

  /** The loop of parseArguments after the first argument: `, name : value` until `)`,
      a repeated name overwriting the earlier value. */
  function ArgumentsLoop(ts: Toks, acc: map<string, Value>): (r: Result<Parsed<map<string, Value>>>)
    decreases Length(ts)
    ensures r.Ok? ==> Length(r.value.rest) <= Length(ts) && Peek(r.value.rest) == Punct(')')
    ensures r.Ok? ==> acc.Keys <= r.value.value.Keys
    ensures Peek(ts) == Punct(')') ==> r == Ok(Parsed(acc, ts))
    ensures Peek(ts) !in {Punct(')'), Punct(',')} ==> r == Err(Unexpected(Peek(ts), PunctToken(',')))
  {
    if Peek(ts) == Punct(')') then
      Ok(Parsed(acc, ts))
    else
      var c :- ConsumeToken(ts, ',');
      var a :- ParseArgument(c);
      ArgumentsLoop(a.rest, acc[a.value.0 := a.value.1])
  }

  /** parseArguments: a parenthesised argument list; `()` is the empty map. */
  function ParseArguments(ts: Toks): (r: Result<Parsed<map<string, Value>>>)
    ensures r.Ok? ==> Length(r.value.rest) + 2 <= Length(ts)
    ensures r.Ok? ==> Peek(ts) == Punct('(')
    ensures Peek(ts) == Punct('(') && Peek(ts.tail) == Punct(')') ==> r == Ok(Parsed(map[], ts.tail.tail))
    ensures Peek(ts) != Punct('(') ==> r == Err(Unexpected(Peek(ts), PunctToken('(')))
  {
    var o :- ConsumeToken(ts, '(');
    var args :-
      if Peek(o) != Punct(')') then
        var a :- ParseArgument(o);
        ArgumentsLoop(a.rest, map[a.value.0 := a.value.1])
      else
        Ok(Parsed(map[], o));
    Ok(Parsed(args.value, ConsumeToken(args.rest, ')').value))
  }

  /** parseDirective: `@name` with an optional argument list. */
  function ParseDirective(ts: Toks): (r: Result<Parsed<Directive>>)
    ensures r.Ok? ==> Length(r.value.rest) + 2 <= Length(ts)
    ensures r.Ok? ==> ts.Cons? && ts.head == Punct('@') && Peek(ts.tail) == Ident(r.value.value.name)
    ensures r.Ok? ==> (r.value.value.arguments.Some? <==> Peek(ts.tail.tail) == Punct('('))
  {
    var at :- ConsumeToken(ts, '@');
    var n :- ConsumeIdent(at);
    if Peek(n.rest) == Punct('(') then
      var a :- ParseArguments(n.rest);
      Ok(Parsed(Directive(n.value, Some(a.value)), a.rest))
    else
      Ok(Parsed(Directive(n.value, None), n.rest))
  }

  /** The directive loop of parseField and parseFragmentSpread: directives while
      the next token is `@`, keyed by name, a later one replacing an earlier one. */
  function DirectivesLoop(ts: Toks, acc: map<string, Directive>): (r: Result<Parsed<map<string, Directive>>>)
    decreases Length(ts)
    ensures r.Ok? ==> Length(r.value.rest) <= Length(ts) && Peek(r.value.rest) != Punct('@')
    ensures r.Ok? ==> acc.Keys <= r.value.value.Keys
    ensures r.Ok? && DirectivesKeyedByName(acc) ==> DirectivesKeyedByName(r.value.value)
    ensures Peek(ts) != Punct('@') ==> r == Ok(Parsed(acc, ts))
  {
    if Peek(ts) == Punct('@') then
      var d :- ParseDirective(ts);
      DirectivesLoop(d.rest, acc[d.value.name := d.value])
    else
      Ok(Parsed(acc, ts))
  }

  /** parseFragmentSpread: three `.` tokens, the fragment name, then directives. */
  function ParseFragmentSpread(ts: Toks): (r: Result<Parsed<Selection>>)
    ensures r.Ok? ==> Length(r.value.rest) + 4 <= Length(ts)
    ensures r.Ok? ==>
      r.value.value.FragmentSpread? &&
      ts.Cons? && ts.head == Punct('.') && ts.tail.Cons? && ts.tail.head == Punct('.') &&
      Peek(ts.tail.tail) == Punct('.')
  {
    var d1 :- ConsumeToken(ts, '.');
    var d2 :- ConsumeToken(d1, '.');
    var d3 :- ConsumeToken(d2, '.');
    var n :- ConsumeIdent(d3);
    var ds :- DirectivesLoop(n.rest, map[]);
    Ok(Parsed(FragmentSpread(n.value, ds.value), ds.rest))
  }

  /** parseSelectionSet: `{`, selections until `}`, `}`. */
  function ParseSelectionSet(ts: Toks): (r: Result<Parsed<SelectionSet>>)
    decreases Length(ts), 3
    ensures r.Ok? ==> Length(r.value.rest) + 2 <= Length(ts)
    ensures r.Ok? ==> Peek(ts) == Punct('{')
    ensures Peek(ts) == Punct('{') && Peek(ts.tail) == Punct('}') ==> r == Ok(Parsed(SelectionSet([]), ts.tail.tail))
    ensures Peek(ts) != Punct('{') ==> r == Err(Unexpected(Peek(ts), PunctToken('{')))
  {
    var o :- ConsumeToken(ts, '{');
    var sels :- SelectionsLoop(o, []);
    Ok(Parsed(SelectionSet(sels.value), ConsumeToken(sels.rest, '}').value))
  }

  /** The loop of parseSelectionSet: one selection appended per round while the
      next token is not `}`. */
  function SelectionsLoop(ts: Toks, acc: seq<Selection>): (r: Result<Parsed<seq<Selection>>>)
    decreases Length(ts), 2
    ensures r.Ok? ==> Length(r.value.rest) <= Length(ts) && Peek(r.value.rest) == Punct('}')
    ensures r.Ok? ==> acc <= r.value.value
    ensures r.Ok? ==> |r.value.value| - |acc| <= Length(ts) - Length(r.value.rest)
    ensures Peek(ts) == Punct('}') ==> r == Ok(Parsed(acc, ts))
    ensures !(Peek(ts).Ident? || Peek(ts) in {Punct('.'), Punct('}')}) ==> r == Err(Unexpected(Peek(ts), IdentToken))
  {
    if Peek(ts) == Punct('}') then
      Ok(Parsed(acc, ts))
    else
      var s :- ParseSelection(ts);
      SelectionsLoop(s.rest, acc + [s.value])
  }

  /** parseSelection: a fragment spread when the next token is `.`, a field otherwise. */
  function ParseSelection(ts: Toks): (r: Result<Parsed<Selection>>)
    decreases Length(ts), 1
    ensures r.Ok? ==> Length(r.value.rest) < Length(ts)
    ensures r.Ok? ==> (r.value.value.FragmentSpread? <==> Peek(ts) == Punct('.'))
  {
    if Peek(ts) == Punct('.') then
      ParseFragmentSpread(ts)
    else
      ParseField(ts)
  }

  /** parseField: an alias, `: name` when a colon follows (otherwise the name is the
      alias), optional arguments, directives, and a nested selection set when `{` follows. */
  function ParseField(ts: Toks): (r: Result<Parsed<Selection>>)
    decreases Length(ts), 0
    ensures r.Ok? ==> Length(r.value.rest) < Length(ts)
    ensures r.Ok? ==> r.value.value.Field? && ts.Cons? && ts.head == Ident(r.value.value.alias)
    ensures r.Ok? ==>
      if Peek(ts.tail) == Punct(':')
      then Peek(ts.tail.tail) == Ident(r.value.value.name)
      else r.value.value.name == r.value.value.alias
    ensures !Peek(ts).Ident? ==> r == Err(Unexpected(Peek(ts), IdentToken))
  {
    var a :- ConsumeIdent(ts);
    var n :-
      if Peek(a.rest) == Punct(':') then
        ConsumeIdent(ConsumeToken(a.rest, ':').value)
      else
        Ok(Parsed(a.value, a.rest));
    var args :-
      if Peek(n.rest) == Punct('(') then
        var x :- ParseArguments(n.rest);
        Ok(Parsed(Some(x.value), x.rest))
      else
        Ok(Parsed(None, n.rest));
    var ds :- DirectivesLoop(args.rest, map[]);
    if Peek(ds.rest) == Punct('{') then
      var ss :- ParseSelectionSet(ds.rest);
      Ok(Parsed(Field(a.value, n.value, args.value, ds.value, Some(ss.value)), ss.rest))
    else
      Ok(Parsed(Field(a.value, n.value, args.value, ds.value, None), ds.rest))
  }

  /** parseVariableDef: `$name : Type`, then an optional `!` that is consumed and dropped. */
  function ParseVariableDef(ts: Toks): (r: Result<Parsed<VariableDef>>)
    ensures r.Ok? ==> Length(r.value.rest) + 4 <= Length(ts)
    ensures r.Ok? ==>
      var v := r.value.value;
      var after := Cons(Punct('$'), Cons(Ident(v.name), Cons(Punct(':'), Cons(Ident(v.typ), r.value.rest))));
      ts == after || (ts == Cons(Punct('$'), Cons(Ident(v.name), Cons(Punct(':'), Cons(Ident(v.typ), Cons(Punct('!'), r.value.rest))))))
    ensures r.Ok? && Peek(ts.tail.tail.tail.tail) == Punct('!') ==> r.value.rest == ts.tail.tail.tail.tail.tail
  {
    var d :- ConsumeToken(ts, '$');
    var n :- ConsumeIdent(d);
    var c :- ConsumeToken(n.rest, ':');
    var t :- ConsumeIdent(c);
    var e := if Peek(t.rest) == Punct('!') then ConsumeToken(t.rest, '!').value else t.rest;
    Ok(Parsed(VariableDef(n.value, t.value), e))
  }

  /** The loop of parseOperation: variable definitions until `)`, keyed by name. */
  function VariablesLoop(ts: Toks, acc: map<string, VariableDef>): (r: Result<Parsed<map<string, VariableDef>>>)
    decreases Length(ts)
    ensures r.Ok? ==> Length(r.value.rest) <= Length(ts) && Peek(r.value.rest) == Punct(')')
    ensures r.Ok? ==> acc.Keys <= r.value.value.Keys
    ensures r.Ok? && VariablesKeyedByName(acc) ==> VariablesKeyedByName(r.value.value)
    ensures Peek(ts) == Punct(')') ==> r == Ok(Parsed(acc, ts))
    ensures Peek(ts) !in {Punct(')'), Punct('$')} ==> r == Err(Unexpected(Peek(ts), PunctToken('$')))
  {
    if Peek(ts) == Punct(')') then
      Ok(Parsed(acc, ts))
    else
      var v :- ParseVariableDef(ts);
      VariablesLoop(v.rest, acc[v.value.name := v.value])
  }

  /** parseOperation: the keyword is already consumed; an optional name (only when
      the next token is an identifier), an optional variable list, a selection set. */
  function ParseOperation(ts: Toks, opType: OperationType): (r: Result<Parsed<Operation>>)
    ensures r.Ok? ==> Length(r.value.rest) + 2 <= Length(ts)
    ensures r.Ok? ==> r.value.value.opType == opType
    ensures r.Ok? ==> r.value.value.name == (if Peek(ts).Ident? then Peek(ts).text else "")
    ensures r.Ok? ==> (r.value.value.variables.Some? <==> Peek(if Peek(ts).Ident? then ts.tail else ts) == Punct('('))
  {
    var name := if Peek(ts).Ident? then ConsumeIdent(ts).value else Parsed("", ts);
    var vars :-
      if Peek(name.rest) == Punct('(') then
        var vs :- VariablesLoop(ConsumeToken(name.rest, '(').value, map[]);
        Ok(Parsed(Some(vs.value), ConsumeToken(vs.rest, ')').value))
      else
        Ok(Parsed(None, name.rest));
    var ss :- ParseSelectionSet(vars.rest);
    Ok(Parsed(Operation(opType, name.value, vars.value, ss.value), ss.rest))
  }

  /** parseFragment: the keyword is already consumed; `Name on Type` and a selection set. */
  function ParseFragment(ts: Toks): (r: Result<Parsed<Fragment>>)
    ensures r.Ok? ==> Length(r.value.rest) + 5 <= Length(ts)
    ensures r.Ok? ==>
      ts.Cons? && ts.head == Ident(r.value.value.name) && ts.tail.Cons? && ts.tail.head == Ident("on") &&
      Peek(ts.tail.tail) == Ident(r.value.value.on)
  {
    var n :- ConsumeIdent(ts);
    var k :- ConsumeKeyword(n.rest, "on");
    var on :- ConsumeIdent(k);
    var ss :- ParseSelectionSet(on.rest);
    Ok(Parsed(Fragment(n.value, on.value, ss.value), ss.rest))
  }

  /** The loop of parseDocument: definitions until EOF.  A leading `{` is the
      anonymous operation, stored under ""; otherwise a keyword picks a query, a
      mutation (both stored under the operation's name) or a fragment (stored
      under its name).  A later definition under the same key replaces the earlier one. */
  function DocumentLoop(ts: Toks, doc: Document): (r: Result<Document>)
    decreases Length(ts)
    ensures r.Ok? ==>
      doc.operations.Keys <= r.value.operations.Keys && doc.fragments.Keys <= r.value.fragments.Keys
    ensures Peek(ts) == EOF ==> r == Ok(doc)
    ensures Peek(ts).Ident? && Peek(ts).text !in {"query", "mutation", "fragment"} ==>
      r == Err(Unexpected(Peek(ts), Keyword("fragment")))
    ensures !(Peek(ts).Ident? || Peek(ts) in {EOF, Punct('{')}) ==>
      r == Err(Unexpected(Peek(ts), IdentToken))
  {
    if Peek(ts) == EOF then
      Ok(doc)
    else if Peek(ts) == Punct('{') then
      var ss :- ParseSelectionSet(ts);
      var anonymous := Operation(Query, "", None, ss.value);
      DocumentLoop(ss.rest, doc.(operations := doc.operations[anonymous.name := anonymous]))
    else
      var x :- ConsumeIdent(ts);
      if x.value == "query" then
        var q :- ParseOperation(x.rest, Query);
        DocumentLoop(q.rest, doc.(operations := doc.operations[q.value.name := q.value]))
      else if x.value == "mutation" then
        var q :- ParseOperation(x.rest, Mutation);
        DocumentLoop(q.rest, doc.(operations := doc.operations[q.value.name := q.value]))
      else if x.value == "fragment" then
        var f :- ParseFragment(x.rest);
        DocumentLoop(f.rest, doc.(fragments := doc.fragments[f.value.name := f.value]))
      else
        Err(Unexpected(Ident(x.value), Keyword("fragment")))
  }

  /** Parse: the whole token stream as a document, or the first syntax error. */
  function Parse(ts: Toks): Result<Document> {
    DocumentLoop(ts, Document(map[], map[]))
  }
}
