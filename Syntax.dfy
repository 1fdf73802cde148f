/**
 * Concrete syntax of a query document: what the text says, before the parser
 * folds it into maps.  Lists keep repeated names, a field remembers whether
 * it was written `alias: name`, a variable definition whether it carried `!`,
 * and a literal whether it was a string or a bare identifier.
 *
 * `Render` gives the token stream that spells a syntax tree; `Abstract...`
 * gives the document the parser should build from it.  Module RoundTrip proves
 * that the parser builds exactly that document.
 */
module Syntax {
  import opened Lexer
  import opened Ast

  datatype ValueSyntax = VarRef(name: string) | StringLit(text: string) | IdentLit(text: string)

  datatype ArgSyntax = ArgSyntax(name: string, value: ValueSyntax)

  datatype DirectiveSyntax = DirectiveSyntax(name: string, args: Option<seq<ArgSyntax>>)

  /** `{ ... }` */
  datatype SelectionSetSyntax = Braces(selections: seq<SelectionSyntax>)

  datatype SelectionSyntax =
    | FieldSyntax(
        alias: string,
        name: Option<string>,              // Some(n) when written `alias: n`
        args: Option<seq<ArgSyntax>>,
        directives: seq<DirectiveSyntax>,
        body: Option<SelectionSetSyntax>)
    | SpreadSyntax(fragment: string, directives: seq<DirectiveSyntax>)

  datatype VarDefSyntax = VarDefSyntax(name: string, typ: string, nonNull: bool)

  datatype DefinitionSyntax =
    | AnonymousOperation(body: SelectionSetSyntax)
    | OperationDefinition(
        opType: OperationType,
        name: Option<string>,
        variables: Option<seq<VarDefSyntax>>,
        body: SelectionSetSyntax)
    | FragmentDefinition(fragment: string, on: string, body: SelectionSetSyntax)

  // ---------------------------------------------------------------------------
  // Tokens that spell a syntax tree.  Each function puts the tokens of its
  // tree in front of the stream `k` of whatever follows the tree.
  // ---------------------------------------------------------------------------

  function RenderValue(v: ValueSyntax, k: Toks): Toks {
    match v
    case VarRef(n) => Cons(Punct('$'), Cons(Ident(n), k))
    case StringLit(s) => Cons(Str(s), k)
    case IdentLit(s) => Cons(Ident(s), k)
  }

  function RenderArgument(a: ArgSyntax, k: Toks): Toks {
    Cons(Ident(a.name), Cons(Punct(':'), RenderValue(a.value, k)))
  }

  /** The arguments after the first, each preceded by a comma. */
  function RenderArgumentTail(args: seq<ArgSyntax>, k: Toks): (r: Toks)
    ensures Peek(r) == (if args == [] then Peek(k) else Punct(','))
  {
    if args == [] then k else Cons(Punct(','), RenderArgument(args[0], RenderArgumentTail(args[1..], k)))
  }

  function RenderArguments(args: seq<ArgSyntax>, k: Toks): Toks {
    var close := Cons(Punct(')'), k);
    Cons(Punct('('), if args == [] then close else RenderArgument(args[0], RenderArgumentTail(args[1..], close)))
  }

  function RenderOptArguments(args: Option<seq<ArgSyntax>>, k: Toks): (r: Toks)
    ensures Peek(r) == (if args.Some? then Punct('(') else Peek(k))
  {
    if args.Some? then RenderArguments(args.value, k) else k
  }

  function RenderDirective(d: DirectiveSyntax, k: Toks): Toks {
    Cons(Punct('@'), Cons(Ident(d.name), RenderOptArguments(d.args, k)))
  }

  function RenderDirectives(ds: seq<DirectiveSyntax>, k: Toks): (r: Toks)
    ensures Peek(r) == (if ds == [] then Peek(k) else Punct('@'))
  {
    if ds == [] then k else RenderDirective(ds[0], RenderDirectives(ds[1..], k))
  }

  function RenderSelection(s: SelectionSyntax, k: Toks): (r: Toks)
    ensures Peek(r) == (if s.FieldSyntax? then Ident(s.alias) else Punct('.'))
  {
    match s
    case FieldSyntax(alias, name, args, dirs, body) =>
      var afterDirectives := if body.Some? then RenderSelectionSet(body.value, k) else k;
      var afterName := RenderOptArguments(args, RenderDirectives(dirs, afterDirectives));
      Cons(Ident(alias), if name.Some? then Cons(Punct(':'), Cons(Ident(name.value), afterName)) else afterName)
    case SpreadSyntax(f, dirs) =>
      Cons(Punct('.'), Cons(Punct('.'), Cons(Punct('.'), Cons(Ident(f), RenderDirectives(dirs, k)))))
  }

  function RenderSelectionSet(b: SelectionSetSyntax, k: Toks): (r: Toks)
    ensures Peek(r) == Punct('{')
  {
    Cons(Punct('{'), RenderSelections(b.selections, Cons(Punct('}'), k)))
  }

  function RenderSelections(ss: seq<SelectionSyntax>, k: Toks): (r: Toks)
    ensures ss == [] ==> r == k
    ensures ss != [] ==> Peek(r) == (if ss[0].FieldSyntax? then Ident(ss[0].alias) else Punct('.'))
  {
    if ss == [] then k else RenderSelection(ss[0], RenderSelections(ss[1..], k))
  }

  function RenderVariableDef(v: VarDefSyntax, k: Toks): Toks {
    Cons(Punct('$'), Cons(Ident(v.name), Cons(Punct(':'), Cons(Ident(v.typ), if v.nonNull then Cons(Punct('!'), k) else k))))
  }

  function RenderVariableDefs(vs: seq<VarDefSyntax>, k: Toks): (r: Toks)
    ensures Peek(r) == (if vs == [] then Peek(k) else Punct('$'))
  {
    if vs == [] then k else RenderVariableDef(vs[0], RenderVariableDefs(vs[1..], k))
  }

  function OperationKeyword(t: OperationType): string {
    match t
    case Query => "query"
    case Mutation => "mutation"
  }

  /** An operation after its keyword. */
  function RenderOperation(name: Option<string>, vars: Option<seq<VarDefSyntax>>, body: SelectionSetSyntax, k: Toks): Toks {
    var afterName :=
      if vars.Some? then Cons(Punct('('), RenderVariableDefs(vars.value, Cons(Punct(')'), RenderSelectionSet(body, k))))
      else RenderSelectionSet(body, k);
    if name.Some? then Cons(Ident(name.value), afterName) else afterName
  }

  function RenderDefinition(d: DefinitionSyntax, k: Toks): Toks {
    match d
    case AnonymousOperation(body) =>
      RenderSelectionSet(body, k)
    case OperationDefinition(t, name, vars, body) =>
      Cons(Ident(OperationKeyword(t)), RenderOperation(name, vars, body, k))
    case FragmentDefinition(name, on, body) =>
      Cons(Ident("fragment"), Cons(Ident(name), Cons(Ident("on"), Cons(Ident(on), RenderSelectionSet(body, k)))))
  }

  function RenderDefinitions(defs: seq<DefinitionSyntax>, k: Toks): Toks {
    if defs == [] then k else RenderDefinition(defs[0], RenderDefinitions(defs[1..], k))
  }

  /** The token stream of a whole document. */
  function RenderDocument(defs: seq<DefinitionSyntax>): Toks {
    RenderDefinitions(defs, Nil)
  }

  // ---------------------------------------------------------------------------
  // Keyed collections: a later entry under the same key replaces an earlier one
  // ---------------------------------------------------------------------------

  /** The map obtained by storing the entries into `acc` one after another. */
  function Into<K, V>(acc: map<K, V>, entries: seq<(K, V)>): map<K, V>
    decreases |entries|
  {
    if entries == [] then acc else Into(acc[entries[0].0 := entries[0].1], entries[1..])
  }

  /** The keys are those already present and those of the entries. */
  lemma {:induction false} IntoKeys<K, V>(acc: map<K, V>, entries: seq<(K, V)>)
    ensures Into(acc, entries).Keys == acc.Keys + set e | e in entries :: e.0
    decreases |entries|
  {
    if entries != [] {
      IntoKeys(acc[entries[0].0 := entries[0].1], entries[1..]);
      assert entries == [entries[0]] + entries[1..];
    }
  }

  /** A key's value is that of the last entry with that key ... */
  lemma {:induction false} IntoLastWins<K, V>(acc: map<K, V>, entries: seq<(K, V)>, i: nat)
    requires i < |entries|
    requires forall j :: i < j < |entries| ==> entries[j].0 != entries[i].0
    ensures entries[i].0 in Into(acc, entries) && Into(acc, entries)[entries[i].0] == entries[i].1
    decreases |entries|
  {
    var acc' := acc[entries[0].0 := entries[0].1];
    if i == 0 {
      IntoKeeps(acc', entries[1..], entries[0].0);
    } else {
      IntoLastWins(acc', entries[1..], i - 1);
    }
  }

  /** ... and a key no entry mentions keeps the value it had. */
  lemma {:induction false} IntoKeeps<K, V>(acc: map<K, V>, entries: seq<(K, V)>, k: K)
    requires k in acc
    requires forall j :: 0 <= j < |entries| ==> entries[j].0 != k
    ensures k in Into(acc, entries) && Into(acc, entries)[k] == acc[k]
    decreases |entries|
  {
    if entries != [] {
      IntoKeeps(acc[entries[0].0 := entries[0].1], entries[1..], k);
    }
  }

  // ---------------------------------------------------------------------------
  // The document the parser builds from a syntax tree
  // ---------------------------------------------------------------------------

  /** A string and an identifier literal both become a Literal holding their text. */
  function AbstractValue(v: ValueSyntax): Value {
    match v
    case VarRef(n) => Variable(n)
    case StringLit(s) => Literal(s)
    case IdentLit(s) => Literal(s)
  }

  function ArgumentEntries(args: seq<ArgSyntax>): seq<(string, Value)> {
    if args == [] then [] else [(args[0].name, AbstractValue(args[0].value))] + ArgumentEntries(args[1..])
  }

  function AbstractArguments(args: seq<ArgSyntax>): map<string, Value> {
    Into(map[], ArgumentEntries(args))
  }

  function AbstractOptArguments(args: Option<seq<ArgSyntax>>): Option<map<string, Value>> {
    if args.Some? then Some(AbstractArguments(args.value)) else None
  }

  function AbstractDirective(d: DirectiveSyntax): Directive {
    Directive(d.name, AbstractOptArguments(d.args))
  }

  function DirectiveEntries(ds: seq<DirectiveSyntax>): seq<(string, Directive)> {
    if ds == [] then [] else [(ds[0].name, AbstractDirective(ds[0]))] + DirectiveEntries(ds[1..])
  }

  function AbstractDirectives(ds: seq<DirectiveSyntax>): map<string, Directive> {
    Into(map[], DirectiveEntries(ds))
  }

  /** A field written without `: name` is named after its alias. */
  function AbstractSelection(s: SelectionSyntax): Selection {
    match s
    case FieldSyntax(alias, name, args, dirs, body) =>
      Field(
        alias,
        if name.Some? then name.value else alias,
        AbstractOptArguments(args),
        AbstractDirectives(dirs),
        if body.Some? then Some(AbstractSelectionSet(body.value)) else None)
    case SpreadSyntax(f, dirs) =>
      FragmentSpread(f, AbstractDirectives(dirs))
  }

  function AbstractSelectionSet(b: SelectionSetSyntax): SelectionSet {
    SelectionSet(AbstractSelections(b.selections))
  }

  function AbstractSelections(ss: seq<SelectionSyntax>): seq<Selection> {
    if ss == [] then [] else [AbstractSelection(ss[0])] + AbstractSelections(ss[1..])
  }

  /** The `!` marker is dropped. */
  function VariableEntries(vs: seq<VarDefSyntax>): seq<(string, VariableDef)> {
    if vs == [] then [] else [(vs[0].name, VariableDef(vs[0].name, vs[0].typ))] + VariableEntries(vs[1..])
  }

  /** The operation a definition declares, if it declares one; the anonymous form
      is a query without name and without variable list. */
  function DefinedOperation(d: DefinitionSyntax): Option<Operation> {
    match d
    case AnonymousOperation(body) =>
      Some(Operation(Query, "", None, AbstractSelectionSet(body)))
    case OperationDefinition(t, name, vars, body) =>
      Some(Operation(
        t,
        if name.Some? then name.value else "",
        if vars.Some? then Some(Into(map[], VariableEntries(vars.value))) else None,
        AbstractSelectionSet(body)))
    case FragmentDefinition(_, _, _) =>
      None
  }

  function DefinedFragment(d: DefinitionSyntax): Option<Fragment> {
    match d
    case FragmentDefinition(name, on, body) => Some(Fragment(name, on, AbstractSelectionSet(body)))
    case _ => None
  }

  function OperationEntries(defs: seq<DefinitionSyntax>): seq<(string, Operation)> {
    if defs == [] then []
    else
      var op := DefinedOperation(defs[0]);
      (if op.Some? then [(op.value.name, op.value)] else []) + OperationEntries(defs[1..])
  }

  function FragmentEntries(defs: seq<DefinitionSyntax>): seq<(string, Fragment)> {
    if defs == [] then []
    else
      var f := DefinedFragment(defs[0]);
      (if f.Some? then [(f.value.name, f.value)] else []) + FragmentEntries(defs[1..])
  }

  /** Operations keyed by name, fragments keyed by name, a later definition under
      the same key replacing an earlier one. */
  function AbstractDocument(defs: seq<DefinitionSyntax>): Document {
    Document(Into(map[], OperationEntries(defs)), Into(map[], FragmentEntries(defs)))
  }
}
