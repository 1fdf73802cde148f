# GraphQL query parser of gqlgen, modelled in Dafny

This project models the query parser in `internal/query/query.go`. The parser reads
a GraphQL query document with one token of lookahead and builds a `Document`. A
`Document` holds the operations and the fragments, each keyed by name. Operations
and fragments hold selection sets. A selection set is an ordered list of fields and
fragment spreads. Fields carry an alias, a name, an optional argument map, a
directive map and an optional nested selection set. A value is a variable or a
literal. Any syntax error aborts the whole parse.

The model has five layers:

- `Lexer` is the token stream the parser reads.
  - Tokens are already classified: identifier, string, number, single character, EOF.
  - The remaining input is a cons-list of tokens (`Toks`).
  - Peeking past the end answers EOF, as the lexer does.
  - Each consume operation states when it succeeds, the stream it leaves behind, and the error it reports otherwise.
- `Ast` is the syntax tree of `query.go` (lines 12-84). A Go `nil` map or `nil` selection-set pointer is `None`.
- `Grammar` is the parser written as functions.
  - Each function takes the remaining stream and returns the parsed value with the stream after it, or the syntax error.
  - Each `for` loop of the Go code is an accumulating function (`...Loop`). It stops where it peeks the loop's terminator, and the caller consumes that terminator, as the Go code does.
- `QueryParser` is the parser as the Go code runs it.
  - A `Parser` object holds the lexer's remaining stream in a field, and each parse method advances it in place.
  - Maps and lists are filled inside `while` loops.
  - Each method is proved to return, and leave behind, exactly what the matching `Grammar` function computes.
- `Syntax` and `RoundTrip` hold the round trip.
  - `Syntax` is a concrete syntax tree. It keeps repeated names, the `alias: name` form, the `!` marker and string versus identifier literals.
  - `Syntax` also defines the tokens that spell such a tree and the `Document` the parser should build from it.
  - `RoundTrip` proves that parsing the spelled tokens gives exactly that document. That single theorem covers source order, alias defaulting, `()` and `{}` giving empty results, last-write-wins for every map, the anonymous operation stored under `""`, and the dropped `!`.
- `Examples` parses small documents, both accepted ones and each kind of syntax error.

Behaviour follows the code where the surrounding documentation suggests more.

- Number values are rejected. The scanner produces number tokens, but the value parser (`query.go:273-291`) has no case for them, so `f(n: 1)` is the "invalid value" error.
- An unknown word at the top level is reported as an unexpected token where `fragment` was expected (`query.go:129-130`).

## Model

| member | source | states |
|---|---|---|
| Grammar.ParseValue | internal/query/query.go:273-291 | A value is accepted exactly when the next token is a string, an identifier, or `$` followed by an identifier. `$name` gives a Variable, and a string or identifier gives a Literal with its text. `$` without an identifier is an unexpected-token error. Anything else, numbers included, is "invalid value". |
| Grammar.ParseArgument | internal/query/query.go:256-261 | A parsed argument starts with its name followed by `:`, and it consumes at least one token. |
| Grammar.ArgumentsLoop | internal/query/query.go:221-225 | The loop stops only in front of `)`. It never drops a stored name. Facing `)` it returns the map unchanged and consumes nothing. Facing anything other than `)` or `,` it fails, expecting a comma. |
| Grammar.ParseArguments | internal/query/query.go:215-229 | An argument list starts with `(`. `()` gives the empty map and leaves the stream after `)`. A missing `(` is an error naming the token found. |
| Grammar.ParseDirective | internal/query/query.go:231-239 | A directive is `@name`. It has an argument map exactly when `(` follows the name. |
| Grammar.DirectivesLoop | internal/query/query.go:205-208 | Directives are read only while the next token is `@`, and the loop stops in front of a token other than `@`. Each directive stays stored under its own name. With no `@` nothing changes. |
| Grammar.ParseFragmentSpread | internal/query/query.go:241-254 | A fragment spread begins with three `.` tokens and is never a field. |
| Grammar.ParseSelectionSet | internal/query/query.go:175-183 | A selection set starts with `{`. `{}` gives zero selections. A missing `{` is an error naming the token found. |
| Grammar.SelectionsLoop | internal/query/query.go:178-180 | Selections are appended in order: earlier ones are a prefix of the result. The loop stops only in front of `}`, and each selection consumes at least one token. Facing anything other than an identifier, `.` or `}` it fails, expecting an identifier. |
| Grammar.ParseSelection | internal/query/query.go:185-190 | The result is a fragment spread exactly when the next token is `.`. |
| Grammar.ParseField | internal/query/query.go:192-213 | A field starts with its alias. The name is the identifier after `:` when a colon follows, and the alias otherwise. A non-identifier in front is an unexpected-token error expecting an identifier. |
| Grammar.ParseVariableDef | internal/query/query.go:163-173 | A definition is `$ name : Type`, optionally followed by `!`. When `!` follows the type it is consumed, and it is not recorded. |
| Grammar.VariablesLoop | internal/query/query.go:144-147 | The loop stops only in front of `)`. Each definition stays stored under its own name. Facing `)` nothing changes. Facing anything other than `)` or `$` it fails, expecting `$`. |
| Grammar.ParseOperation | internal/query/query.go:136-152 | The operation kind is the keyword's. The name is the next identifier if there is one, and `""` otherwise. The variable map exists exactly when `(` follows the name. |
| Grammar.ParseFragment | internal/query/query.go:154-161 | A fragment is `Name on Type` followed by a selection set, and records both names. |
| Grammar.DocumentLoop | internal/query/query.go:105-134 | At EOF the document is complete. An identifier other than query, mutation or fragment is an error expecting "fragment". Any token other than an identifier, `{` or EOF is an error expecting an identifier. Stored keys are never lost. |
| QueryParser.Parser.ParseValue | internal/query/query.go:273-291 | Returns and consumes exactly what Grammar.ParseValue computes from the stream it started with. |
| QueryParser.Parser.ParseArgument | internal/query/query.go:256-261 | As above, for Grammar.ParseArgument. |
| QueryParser.Parser.ParseArguments | internal/query/query.go:215-229 | The in-place loop over the lexer computes what Grammar.ParseArguments computes. |
| QueryParser.Parser.ParseDirective | internal/query/query.go:231-239 | Agrees with Grammar.ParseDirective. |
| QueryParser.Parser.ParseFragmentSpread | internal/query/query.go:241-254 | The directive loop filling the map in place agrees with Grammar.ParseFragmentSpread. |
| QueryParser.Parser.ParseSelectionSet | internal/query/query.go:175-183 | The append loop agrees with Grammar.ParseSelectionSet. |
| QueryParser.Parser.ParseSelection | internal/query/query.go:185-190 | Agrees with Grammar.ParseSelection. |
| QueryParser.Parser.ParseField | internal/query/query.go:192-213 | Agrees with Grammar.ParseField. |
| QueryParser.Parser.ParseVariableDef | internal/query/query.go:163-173 | Agrees with Grammar.ParseVariableDef. |
| QueryParser.Parser.ParseOperation | internal/query/query.go:136-152 | The variable loop agrees with Grammar.ParseOperation. |
| QueryParser.Parser.ParseFragment | internal/query/query.go:154-161 | Agrees with Grammar.ParseFragment. |
| QueryParser.Parser.ParseDocument | internal/query/query.go:105-134 | The definition loop filling both maps agrees with Grammar.DocumentLoop started on the empty document. |
| QueryParser.Parse | internal/query/query.go:86-103 | Parsing a token stream gives either a complete document or the first syntax error, and never both. The result is Grammar.Parse of the stream. |
| Syntax.IntoKeys | internal/query/query.go:219-224 | Storing entries one after another into a map gives the old keys plus the keys of the entries. |
| Syntax.IntoLastWins | internal/query/query.go:219-224 | Storing entries one after another leaves each key with the value of its last entry. |
| Syntax.IntoKeeps | internal/query/query.go:219-224 | A key that no entry mentions keeps its value. |
| RoundTrip.ValueRoundTrip | internal/query/query.go:273-291 | Parsing a spelled value gives Variable for `$name`, and Literal with the text for a string or an identifier. |
| RoundTrip.ArgumentRoundTrip | internal/query/query.go:256-261 | Parsing a spelled `name : value` gives that pair. |
| RoundTrip.ArgumentsLoopRoundTrip | internal/query/query.go:221-225 | The comma-separated arguments are stored in order, a repeated name overwriting the earlier value. |
| RoundTrip.ArgumentsRoundTrip | internal/query/query.go:215-229 | Parsing a spelled argument list gives its last-write-wins map, and `()` gives the empty map. |
| RoundTrip.ArgumentEntriesAt | internal/query/query.go:219-224 | The i-th stored entry is the i-th argument's name and value. |
| RoundTrip.LastArgumentWins | internal/query/query.go:215-229 | A parsed argument list has one key per argument name. Each key maps to the value of its last occurrence, with no error for repeats. |
| RoundTrip.DirectiveRoundTrip | internal/query/query.go:231-239 | Parsing a spelled directive gives its name and optional argument map, whatever follows except `(`. |
| RoundTrip.DirectivesLoopRoundTrip | internal/query/query.go:205-208 | Spelled directives are stored by name, last one winning. |
| RoundTrip.SelectionRoundTrip | internal/query/query.go:185-190 | Parsing a spelled selection gives the field or the fragment spread it spells. |
| RoundTrip.FieldRoundTrip | internal/query/query.go:192-213 | Parsing a spelled field gives its alias. Its name is the alias when no `: name` was written. It also gives its optional arguments, its directives and its optional nested set. |
| RoundTrip.SelectionSetRoundTrip | internal/query/query.go:175-183 | Parsing a spelled selection set gives its selections in source order. |
| RoundTrip.SelectionsLoopRoundTrip | internal/query/query.go:178-180 | Selections are appended one per round, in source order. |
| RoundTrip.VariableDefRoundTrip | internal/query/query.go:163-173 | Parsing `$ name : Type` with or without `!` gives the same definition. |
| RoundTrip.VariablesLoopRoundTrip | internal/query/query.go:144-147 | Variable definitions are stored by name, last one winning. |
| RoundTrip.OperationRoundTrip | internal/query/query.go:136-152 | Parsing a spelled operation gives its kind, its name (or `""`), its optional variable map and its selection set. |
| RoundTrip.FragmentRoundTrip | internal/query/query.go:154-161 | Parsing a spelled fragment gives its name, its type condition and its selection set. |
| RoundTrip.DefinitionRoundTrip | internal/query/query.go:110-131 | One round of the document loop reads one definition. The anonymous operation is stored under `""`, a named operation under its name, and a fragment under its name. |
| RoundTrip.StoredOperations | internal/query/query.go:110-124 | The operation map is built one definition after another. |
| RoundTrip.StoredFragments | internal/query/query.go:125-127 | The fragment map is built one definition after another. |
| RoundTrip.DocumentLoopRoundTrip | internal/query/query.go:105-134 | Definitions are stored in order, and a later definition under the same key replaces the earlier one. |
| RoundTrip.ParseRendered | internal/query/query.go:86-134 | Parsing the tokens of any concrete document gives exactly the document it denotes. |
| Examples.AnonymousQuery | internal/query/query.go:111-113 | `{ a b }` is the anonymous query under `""`, with fields in order and each name equal to its alias. |
| Examples.NamedQueryWithAlias | internal/query/query.go:196-201 | In `query Q { x: y }` the field has alias `x` and name `y`, and the query is stored under `Q`. |
| Examples.EmptyMutation | internal/query/query.go:121-123 | `mutation { }` is an anonymous mutation with no selections. |
| Examples.RepeatedArgument | internal/query/query.go:215-229 | `(x: "s", x: $v)` keeps only `x: $v`. |
| Examples.NonNullVariable | internal/query/query.go:163-173 | `$v: Int!` records the variable without its `!`. |
| Examples.SpreadWithDirective | internal/query/query.go:241-254 | `...G @d` is a spread of `G` with directive `d`. |
| Examples.UnclosedSelectionSet | internal/query/query.go:178-196 | `query {` fails where a field should start, having found EOF. |
| Examples.UnknownKeyword | internal/query/query.go:129-130 | `bogus { a }` fails, naming `bogus` and expecting "fragment". |
| Examples.MissingComma | internal/query/query.go:221-222 | `(a: b c: d)` fails at `c`, expecting a comma. |
| Examples.NumberIsInvalid | internal/query/query.go:273-291 | `(n: 1)` is "invalid value". |

## Left out

- Character-level scanning is left out (`query.go:87-90`). The Go scanner is a foreign library, so the model starts from the stream of classified tokens.
- The lexer package is not part of this model. Only the peek and consume contracts the parser relies on are stated, in module `Lexer`.
- `panic` and `recover` are modelled as an `Err` result that every parse step passes on (`query.go:92-100`). A panic that is not a syntax error is re-raised by the Go code; no such panic arises in the modelled code, so it is not modelled.
- Error messages carry the unexpected token and what was expected, but no source position or formatted text.
- The `ValueType` enumeration (`query.go:263-271`) is declared but never used, so it is not modelled.
- `Literal.Value` is an `interface{}` in Go, and the model stores it as a string. Only string contents and identifier texts are ever stored in it.
- A `Str` token carries the content that the lexer's ConsumeString returns (`query.go:282`); how the lexer turns the quoted token text into that content is not part of this model.
- A token stream is taken to end at its first EOF token, since the lexer yields nothing after it; the parser never looks past that token.
- The cursor is the remaining token stream rather than an index into an array. The two carry the same information.
- Go stores pointers in its maps, so later changes through one pointer would be visible through the others. The model stores values instead. The parser never changes a stored object after storing it, so the two agree.
- RoundTrip.ParseRendered: proves one direction only, that every spelled document is accepted with the right result. It does not prove that every accepted stream spells some document. Instead, rejection is stated per decision point in the `Grammar` contracts: a missing comma in ArgumentsLoop, a missing `$` in VariablesLoop, a non-selection token in SelectionsLoop, and the value, field, selection-set and document errors.
