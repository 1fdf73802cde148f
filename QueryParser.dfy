/**
 * The parser of internal/query/query.go as the Go code runs it: one lexer
 * object whose remaining token stream every parse function advances in
 * place, maps and slices filled inside loops.  Each method is proved to
 * compute exactly what the matching function of module Grammar computes
 * from the stream the lexer held when the method was called.
 */
module QueryParser {
  import opened Lexer
  import opened Ast
  import Grammar

  /** A method's result paired with the stream it left behind, in the shape of Grammar's results. */
  function At<T>(r: Result<T>, rest: Toks): Result<Parsed<T>> {
    match r
    case Ok(v) => Ok(Parsed(v, rest))
    case Err(e) => Err(e)
  }

  /** An outcome paired with the stream it left behind, in the shape of the lexer's results. */
  function Moved(o: Outcome, rest: Toks): Result<Toks> {
    match o
    case Pass => Ok(rest)
    case Fail(e) => Err(e)
  }

  /** The lexer with the tokens it has not handed out yet, and the parse functions that advance it. */
  class Parser {
    var rest: Toks

    constructor (tokens: Toks)
      ensures rest == tokens
    {
      rest := tokens;
    }

    function Peek(): Tok
      reads this
    {
      Lexer.Peek(rest)
    }

    method ConsumeIdent() returns (r: Result<string>)
      modifies this
      ensures At(r, rest) == Lexer.ConsumeIdent(old(rest))
    {
      var t := Peek();
      if !t.Ident? {
        return Err(Unexpected(t, IdentToken));
      }
      rest := rest.tail;
      return Ok(t.text);
    }

    method ConsumeToken(c: char) returns (o: Outcome)
      modifies this
      ensures Moved(o, rest) == Lexer.ConsumeToken(old(rest), c)
    {
      var t := Peek();
      if t != Punct(c) {
        return Fail(Unexpected(t, PunctToken(c)));
      }
      rest := rest.tail;
      return Pass;
    }

    method ConsumeKeyword(word: string) returns (o: Outcome)
      modifies this
      ensures Moved(o, rest) == Lexer.ConsumeKeyword(old(rest), word)
    {
      var t := Peek();
      if t != Ident(word) {
        return Fail(Unexpected(t, Keyword(word)));
      }
      rest := rest.tail;
      return Pass;
    }

    method ConsumeString() returns (r: Result<string>)
      modifies this
      ensures At(r, rest) == Lexer.ConsumeString(old(rest))
    {
      var t := Peek();
      if !t.Str? {
        return Err(Unexpected(t, StringToken));
      }
      rest := rest.tail;
      return Ok(t.text);
    }

    /** parseValue */
    method ParseValue() returns (r: Result<Value>)
      modifies this
      ensures At(r, rest) == Grammar.ParseValue(old(rest))
    {
      var t := Peek();
      if t == Punct('$') {
        var _ := ConsumeToken('$');
        var name :- ConsumeIdent();
        return Ok(Variable(name));
      } else if t.Str? {
        var s := ConsumeString();
        return Ok(Literal(s.value));
      } else if t.Ident? {
        var s := ConsumeIdent();
        return Ok(Literal(s.value));
      }
      return Err(InvalidValue);
    }

    /** parseArgument */
    method ParseArgument() returns (r: Result<(string, Value)>)
      modifies this
      ensures At(r, rest) == Grammar.ParseArgument(old(rest))
    {
      var name :- ConsumeIdent();
      :- ConsumeToken(':');
      var value :- ParseValue();
      return Ok((name, value));
    }

    /** parseArguments */
    method ParseArguments() returns (r: Result<map<string, Value>>)
      modifies this
      ensures At(r, rest) == Grammar.ParseArguments(old(rest))
    {
      var args := map[];
      :- ConsumeToken('(');
      if Peek() != Punct(')') {
        var first :- ParseArgument();
        args := args[first.0 := first.1];
        ghost var loopStart := rest;
        while Peek() != Punct(')')
                    invariant Grammar.ArgumentsLoop(loopStart, map[first.0 := first.1])
                 == Grammar.ArgumentsLoop(rest, args)
          decreases Length(rest)
        {
          :- ConsumeToken(',');
          var a :- ParseArgument();
          args := args[a.0 := a.1];
        }
      }
      var _ := ConsumeToken(')');
      return Ok(args);
    }

    /** parseDirective */
    method ParseDirective() returns (r: Result<Directive>)
      modifies this
      ensures At(r, rest) == Grammar.ParseDirective(old(rest))
    {
      var arguments := None;
      :- ConsumeToken('@');
      var name :- ConsumeIdent();
      if Peek() == Punct('(') {
        var args :- ParseArguments();
        arguments := Some(args);
      }
      return Ok(Directive(name, arguments));
    }

    /** parseFragmentSpread */
    method ParseFragmentSpread() returns (r: Result<Selection>)
      modifies this
      ensures At(r, rest) == Grammar.ParseFragmentSpread(old(rest))
    {
      var directives := map[];
      :- ConsumeToken('.');
      :- ConsumeToken('.');
      :- ConsumeToken('.');
      var name :- ConsumeIdent();
      ghost var loopStart := rest;
      while Peek() == Punct('@')
        invariant Grammar.DirectivesLoop(loopStart, map[]) == Grammar.DirectivesLoop(rest, directives)
        decreases Length(rest)
      {
        var d :- ParseDirective();
        directives := directives[d.name := d];
      }
      return Ok(FragmentSpread(name, directives));
    }

    /** parseSelectionSet */
    method ParseSelectionSet() returns (r: Result<SelectionSet>)
      modifies this
      decreases Length(rest), 3
      ensures At(r, rest) == Grammar.ParseSelectionSet(old(rest))
    {
      var selections := [];
      :- ConsumeToken('{');
      ghost var loopStart := rest;
      while Peek() != Punct('}')
        invariant Length(loopStart) < Length(old(rest))
        invariant Grammar.SelectionsLoop(loopStart, []) == Grammar.SelectionsLoop(rest, selections)
        decreases Length(rest)
      {
        var s :- ParseSelection();
        selections := selections + [s];
      }
      var _ := ConsumeToken('}');
      return Ok(SelectionSet(selections));
    }

    /** parseSelection */
    method ParseSelection() returns (r: Result<Selection>)
      modifies this
      decreases Length(rest), 2
      ensures At(r, rest) == Grammar.ParseSelection(old(rest))
    {
      if Peek() == Punct('.') {
        r := ParseFragmentSpread();
      } else {
        r := ParseField();
      }
    }

    /** parseField */
    method ParseField() returns (r: Result<Selection>)
      modifies this
      decreases Length(rest), 1
      ensures At(r, rest) == Grammar.ParseField(old(rest))
    {
      var alias :- ConsumeIdent();
      var name := alias;
      if Peek() == Punct(':') {
        var _ := ConsumeToken(':');
        name :- ConsumeIdent();
      }
      var arguments := None;
      if Peek() == Punct('(') {
        var args :- ParseArguments();
        arguments := Some(args);
      }
      var directives := map[];
      ghost var loopStart := rest;
      while Peek() == Punct('@')
        invariant Length(loopStart) < Length(old(rest))
        invariant Grammar.DirectivesLoop(loopStart, map[]) == Grammar.DirectivesLoop(rest, directives)
        decreases Length(rest)
      {
        var d :- ParseDirective();
        directives := directives[d.name := d];
      }
      var selSet := None;
      if Peek() == Punct('{') {
        var ss :- ParseSelectionSet();
        selSet := Some(ss);
      }
      return Ok(Field(alias, name, arguments, directives, selSet));
    }

    /** parseVariableDef */
    method ParseVariableDef() returns (r: Result<VariableDef>)
      modifies this
      ensures At(r, rest) == Grammar.ParseVariableDef(old(rest))
    {
      var name: string;
      :- ConsumeToken('$');
      name :- ConsumeIdent();
      :- ConsumeToken(':');
      var typ :- ConsumeIdent();
      if Peek() == Punct('!') {
        var _ := ConsumeToken('!');  // consumed, not recorded
      }
      return Ok(VariableDef(name, typ));
    }

    /** parseOperation */
    method ParseOperation(opType: OperationType) returns (r: Result<Operation>)
      modifies this
      ensures At(r, rest) == Grammar.ParseOperation(old(rest), opType)
    {
      var name := "";
      if Peek().Ident? {
        var n := ConsumeIdent();
        name := n.value;
      }
      var variables := None;
      if Peek() == Punct('(') {
        var _ := ConsumeToken('(');
        var vars := map[];
        ghost var loopStart := rest;
        while Peek() != Punct(')')
                    invariant Grammar.VariablesLoop(loopStart, map[]) == Grammar.VariablesLoop(rest, vars)
          decreases Length(rest)
        {
          var v :- ParseVariableDef();
          vars := vars[v.name := v];
        }
        var _ := ConsumeToken(')');
        variables := Some(vars);
      }
      var selSet :- ParseSelectionSet();
      return Ok(Operation(opType, name, variables, selSet));
    }

    /** parseFragment */
    method ParseFragment() returns (r: Result<Fragment>)
      modifies this
      ensures At(r, rest) == Grammar.ParseFragment(old(rest))
    {
      var name :- ConsumeIdent();
      :- ConsumeKeyword("on");
      var on :- ConsumeIdent();
      var selSet :- ParseSelectionSet();
      return Ok(Fragment(name, on, selSet));
    }

    /** parseDocument */
    method ParseDocument() returns (r: Result<Document>)
      modifies this
      ensures r == Grammar.DocumentLoop(old(rest), Document(map[], map[]))
    {
      var d := Document(map[], map[]);
      while Peek() != EOF
        invariant Grammar.DocumentLoop(old(rest), Document(map[], map[])) == Grammar.DocumentLoop(rest, d)
        decreases Length(rest)
      {
        if Peek() == Punct('{') {
          var selSet :- ParseSelectionSet();
          d := d.(operations := d.operations["" := Operation(Query, "", None, selSet)]);
          continue;
        }
        var x :- ConsumeIdent();
        if x == "query" {
          var q :- ParseOperation(Query);
          d := d.(operations := d.operations[q.name := q]);
        } else if x == "mutation" {
          var q :- ParseOperation(Mutation);
          d := d.(operations := d.operations[q.name := q]);
        } else if x == "fragment" {
          var f :- ParseFragment();
          d := d.(fragments := d.fragments[f.name := f]);
        } else {
          return Err(Unexpected(Ident(x), Keyword("fragment")));
        }
      }
      return Ok(d);
    }
  }

  /** Parse: runs a fresh lexer over the whole token stream. */
  method Parse(tokens: Toks) returns (r: Result<Document>)
    ensures r == Grammar.Parse(tokens)
  {
    var parser := new Parser(tokens);
    r := parser.ParseDocument();
  }
}
