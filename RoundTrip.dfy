/**
 * The parser inverts rendering: parsing the tokens that spell a syntax tree
 * yields exactly the document `Syntax.AbstractDocument` assigns to it.  This
 * one theorem carries the parser's promises together: selections in source
 * order, a field's name defaulting to its alias, `()` giving the empty map,
 * last-write-wins for arguments, directives, variables and definitions, the
 * anonymous operation under "", the `!` marker dropped, and string and
 * identifier literals both becoming a Literal.
 *
 * Each lemma states what the matching Grammar function returns on the
 * rendering of a syntax tree followed by a stream `k`, given what token may
 * start `k` (the parser looks one token past every optional part).
 */
module RoundTrip {
  import opened Lexer
  import opened Ast
  import opened Syntax
  import opened Grammar

  /** Tokens that may follow a selection inside a selection set. */
  predicate SelectionFollower(t: Tok) {
    t.Ident? || t == Punct('.') || t == Punct('}')
  }

  lemma ValueRoundTrip(v: ValueSyntax, k: Toks)
    ensures ParseValue(RenderValue(v, k)) == Ok(Parsed(AbstractValue(v), k))
  {
  }

  lemma ArgumentRoundTrip(a: ArgSyntax, k: Toks)
    ensures ParseArgument(RenderArgument(a, k)) == Ok(Parsed((a.name, AbstractValue(a.value)), k))
  {
    ValueRoundTrip(a.value, k);
  }

  /** The comma-separated arguments after the first are stored one after another. */
  lemma {:induction false} ArgumentsLoopRoundTrip(args: seq<ArgSyntax>, acc: map<string, Value>, k: Toks)
    requires Peek(k) == Punct(')')
    ensures ArgumentsLoop(RenderArgumentTail(args, k), acc) == Ok(Parsed(Into(acc, ArgumentEntries(args)), k))
    decreases args
  {
    if args != [] {
      ArgumentRoundTrip(args[0], RenderArgumentTail(args[1..], k));
      ArgumentsLoopRoundTrip(args[1..], acc[args[0].name := AbstractValue(args[0].value)], k);
      assert ArgumentEntries(args)[1..] == ArgumentEntries(args[1..]);
    }
  }

  lemma ArgumentsRoundTrip(args: seq<ArgSyntax>, k: Toks)
    ensures ParseArguments(RenderArguments(args, k)) == Ok(Parsed(AbstractArguments(args), k))
  {
    if args != [] {
      var close := Cons(Punct(')'), k);
      ArgumentRoundTrip(args[0], RenderArgumentTail(args[1..], close));
      ArgumentsLoopRoundTrip(args[1..], map[args[0].name := AbstractValue(args[0].value)], close);
      assert ArgumentEntries(args)[1..] == ArgumentEntries(args[1..]);
    }
  }

  lemma {:induction false} ArgumentEntriesAt(args: seq<ArgSyntax>)
    ensures |ArgumentEntries(args)| == |args|
    ensures forall i :: 0 <= i < |args| ==> ArgumentEntries(args)[i] == (args[i].name, AbstractValue(args[i].value))
    decreases args
  {
    if args != [] {
      ArgumentEntriesAt(args[1..]);
    }
  }

  /** A parsed argument list has one key per argument name, and each name maps
      to the value of its last occurrence. */
  lemma LastArgumentWins(args: seq<ArgSyntax>, i: nat, k: Toks)
    requires i < |args|
    requires forall j :: i < j < |args| ==> args[j].name != args[i].name
    ensures ParseArguments(RenderArguments(args, k)).Ok?
    ensures ParseArguments(RenderArguments(args, k)).value.value.Keys == set a | a in args :: a.name
    ensures ParseArguments(RenderArguments(args, k)).value.value[args[i].name] == AbstractValue(args[i].value)
  {
    ArgumentsRoundTrip(args, k);
    ArgumentEntriesAt(args);
    IntoKeys(map[], ArgumentEntries(args));
    IntoLastWins(map[], ArgumentEntries(args), i);
    var entries := ArgumentEntries(args);
    var names := set a | a in args :: a.name;
    assert (set e | e in entries :: e.0) == names by {
      forall n | n in names
        ensures n in set e | e in entries :: e.0
      {
        var j :| 0 <= j < |args| && args[j].name == n;
        assert entries[j].0 == n;
      }
    }
  }

  /** A directive is followed by anything but `(`, which would be read as its arguments. */
  lemma DirectiveRoundTrip(d: DirectiveSyntax, k: Toks)
    requires Peek(k) != Punct('(')
    ensures ParseDirective(RenderDirective(d, k)) == Ok(Parsed(AbstractDirective(d), k))
  {
    if d.args.Some? {
      ArgumentsRoundTrip(d.args.value, k);
    }
  }

  lemma {:induction false} DirectivesLoopRoundTrip(ds: seq<DirectiveSyntax>, acc: map<string, Directive>, k: Toks)
    requires Peek(k) != Punct('(') && Peek(k) != Punct('@')
    ensures DirectivesLoop(RenderDirectives(ds, k), acc) == Ok(Parsed(Into(acc, DirectiveEntries(ds)), k))
    decreases ds
  {
    if ds != [] {
      DirectiveRoundTrip(ds[0], RenderDirectives(ds[1..], k));
      DirectivesLoopRoundTrip(ds[1..], acc[ds[0].name := AbstractDirective(ds[0])], k);
      assert DirectiveEntries(ds)[1..] == DirectiveEntries(ds[1..]);
    }
  }

  lemma {:induction false} SelectionRoundTrip(s: SelectionSyntax, k: Toks)
    requires SelectionFollower(Peek(k))
    ensures ParseSelection(RenderSelection(s, k)) == Ok(Parsed(AbstractSelection(s), k))
    decreases s, 1
  {
    if s.FieldSyntax? {
      FieldRoundTrip(s, k);
    } else {
      DirectivesLoopRoundTrip(s.directives, map[], k);
    }
  }

  /** The parts of a field are told apart by the token after each: `:`, `(`, `@`, `{`. */
  lemma {:induction false} FieldRoundTrip(s: SelectionSyntax, k: Toks)
    requires s.FieldSyntax? && SelectionFollower(Peek(k))
    ensures ParseField(RenderSelection(s, k)) == Ok(Parsed(AbstractSelection(s), k))
    decreases s, 0
  {
    var afterDirectives := if s.body.Some? then RenderSelectionSet(s.body.value, k) else k;
    if s.body.Some? {
      SelectionSetRoundTrip(s.body.value, k);
    }
    var afterArgs := RenderDirectives(s.directives, afterDirectives);
    DirectivesLoopRoundTrip(s.directives, map[], afterDirectives);
    if s.args.Some? {
      ArgumentsRoundTrip(s.args.value, afterArgs);
    }
    var afterName := RenderOptArguments(s.args, afterArgs);
    assert Peek(afterName) != Punct(':');
  }

  lemma {:induction false} SelectionSetRoundTrip(b: SelectionSetSyntax, k: Toks)
    ensures ParseSelectionSet(RenderSelectionSet(b, k)) == Ok(Parsed(AbstractSelectionSet(b), k))
    decreases b, 2
  {
    SelectionsLoopRoundTrip(b.selections, [], Cons(Punct('}'), k));
    assert [] + AbstractSelections(b.selections) == AbstractSelections(b.selections);
  }

  /** Selections are appended in source order. */
  lemma {:induction false} SelectionsLoopRoundTrip(ss: seq<SelectionSyntax>, acc: seq<Selection>, k: Toks)
    requires Peek(k) == Punct('}')
    ensures SelectionsLoop(RenderSelections(ss, k), acc) == Ok(Parsed(acc + AbstractSelections(ss), k))
    decreases ss, 3
  {
    if ss != [] {
      var rest := RenderSelections(ss[1..], k);
      assert RenderSelections(ss, k) == RenderSelection(ss[0], rest);
      SelectionRoundTrip(ss[0], rest);
      SelectionsLoopRoundTrip(ss[1..], acc + [AbstractSelection(ss[0])], k);
      assert AbstractSelections(ss) == [AbstractSelection(ss[0])] + AbstractSelections(ss[1..]);
      assert acc + AbstractSelections(ss) == (acc + [AbstractSelection(ss[0])]) + AbstractSelections(ss[1..]);
    } else {
      assert acc + [] == acc;
    }
  }

  /** A variable definition is followed by anything but `!`, which would be read as its marker. */
  lemma VariableDefRoundTrip(v: VarDefSyntax, k: Toks)
    requires Peek(k) != Punct('!')
    ensures ParseVariableDef(RenderVariableDef(v, k)) == Ok(Parsed(VariableDef(v.name, v.typ), k))
  {
  }

  lemma {:induction false} VariablesLoopRoundTrip(vs: seq<VarDefSyntax>, acc: map<string, VariableDef>, k: Toks)
    requires Peek(k) == Punct(')')
    ensures VariablesLoop(RenderVariableDefs(vs, k), acc) == Ok(Parsed(Into(acc, VariableEntries(vs)), k))
    decreases vs
  {
    if vs != [] {
      VariableDefRoundTrip(vs[0], RenderVariableDefs(vs[1..], k));
      VariablesLoopRoundTrip(vs[1..], acc[vs[0].name := VariableDef(vs[0].name, vs[0].typ)], k);
      assert VariableEntries(vs)[1..] == VariableEntries(vs[1..]);
    }
  }

  /** After its keyword, an operation definition parses to the operation it declares. */
  lemma OperationRoundTrip(t: OperationType, name: Option<string>, vars: Option<seq<VarDefSyntax>>, body: SelectionSetSyntax, k: Toks)
    ensures ParseOperation(RenderOperation(name, vars, body, k), t) ==
      Ok(Parsed(DefinedOperation(OperationDefinition(t, name, vars, body)).value, k))
  {
    SelectionSetRoundTrip(body, k);
    if vars.Some? {
      VariablesLoopRoundTrip(vars.value, map[], Cons(Punct(')'), RenderSelectionSet(body, k)));
    }
  }

  /** After its keyword, a fragment definition parses to the fragment it declares. */
  lemma FragmentRoundTrip(f: string, on: string, body: SelectionSetSyntax, k: Toks)
    ensures ParseFragment(RenderDefinition(FragmentDefinition(f, on, body), k).tail) ==
      Ok(Parsed(DefinedFragment(FragmentDefinition(f, on, body)).value, k))
  {
    SelectionSetRoundTrip(body, k);
  }

  /** The document after storing what one definition declares. */
  function Stored(doc: Document, d: DefinitionSyntax): Document {
    var op := DefinedOperation(d);
    var f := DefinedFragment(d);
    Document(
      if op.Some? then doc.operations[op.value.name := op.value] else doc.operations,
      if f.Some? then doc.fragments[f.value.name := f.value] else doc.fragments)
  }

  /** One round of the document loop reads one definition and stores what it declares. */
  lemma DefinitionRoundTrip(d: DefinitionSyntax, doc: Document, k: Toks)
    ensures DocumentLoop(RenderDefinition(d, k), doc) == DocumentLoop(k, Stored(doc, d))
  {
    match d
    case AnonymousOperation(body) =>
      SelectionSetRoundTrip(body, k);
    case OperationDefinition(t, name, vars, body) =>
      OperationRoundTrip(t, name, vars, body, k);
    case FragmentDefinition(f, on, body) =>
      FragmentRoundTrip(f, on, body, k);
  }

  /** Definitions are stored one after another, operations and fragments in their own maps. */
  lemma {:induction false} DocumentLoopRoundTrip(defs: seq<DefinitionSyntax>, doc: Document, k: Toks)
    requires Peek(k) == EOF
    ensures DocumentLoop(RenderDefinitions(defs, k), doc) ==
      Ok(Document(Into(doc.operations, OperationEntries(defs)), Into(doc.fragments, FragmentEntries(defs))))
    decreases defs
  {
    if defs != [] {
      DefinitionRoundTrip(defs[0], doc, RenderDefinitions(defs[1..], k));
      DocumentLoopRoundTrip(defs[1..], Stored(doc, defs[0]), k);
      StoredOperations(defs, doc);
      StoredFragments(defs, doc);
    }
  }

  /** Storing the operations of `defs` is storing that of the first definition, then the rest. */
  lemma StoredOperations(defs: seq<DefinitionSyntax>, doc: Document)
    requires defs != []
    ensures Into(doc.operations, OperationEntries(defs)) == Into(Stored(doc, defs[0]).operations, OperationEntries(defs[1..]))
  {
    if DefinedOperation(defs[0]).Some? {
      assert OperationEntries(defs)[1..] == OperationEntries(defs[1..]);
    } else {
      assert OperationEntries(defs) == OperationEntries(defs[1..]);
    }
  }

  /** Storing the fragments of `defs` is storing that of the first definition, then the rest. */
  lemma StoredFragments(defs: seq<DefinitionSyntax>, doc: Document)
    requires defs != []
    ensures Into(doc.fragments, FragmentEntries(defs)) == Into(Stored(doc, defs[0]).fragments, FragmentEntries(defs[1..]))
  {
    if DefinedFragment(defs[0]).Some? {
      assert FragmentEntries(defs)[1..] == FragmentEntries(defs[1..]);
    } else {
      assert FragmentEntries(defs) == FragmentEntries(defs[1..]);
    }
  }

  /** The main theorem: the parser reads a rendered document back as its abstract document. */
  lemma ParseRendered(defs: seq<DefinitionSyntax>)
    ensures Parse(RenderDocument(defs)) == Ok(AbstractDocument(defs))
  {
    DocumentLoopRoundTrip(defs, Document(map[], map[]), Nil);
  }
}
