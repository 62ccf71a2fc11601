# SPL compiler front end, modelled in Dafny

This project models the front end of the SPL compiler in `Code/spl.py` and proves
properties of the model. It covers four parts:

- **The word lexer** (`Lexer`). The program text is split on whitespace. Each word is
  classified by the first rule of a fixed chain that it satisfies:
  1. the keyword list;
  2. the eight punctuation symbols;
  3. `:=`;
  4. the number pattern;
  5. the short-string pattern;
  6. the user-defined-name pattern.

  A word that no rule accepts goes to `subdivide`. Every token is stamped with the
  number of tokens emitted before it. The three regular expressions are written out
  as string predicates (module `Patterns`). Each one comes with a direct reading of
  the pattern and a lemma that the two agree.
- **The recursive-descent parser** (`Parser`). The state is a cursor over the token
  list (`token_index`, `current_token`) and the node counter `num_nodes`. There is
  one method per production.
  - `parser_error` (a `quit()`) and the Python exceptions the productions can raise
    become a `Fail` outcome, which every caller hands straight back.
  - A production that returns Python's `None` returns `Ok(Nil)`.
  - Each production is proved to keep the cursor consistent and never move it
    backwards.
  - A production that succeeds is proved to return a tree of its production's shape.
    Its node ids are stamped in post-order and lie within the range the counter
    covered during the call.
  - A production whose first token is wrong says which error it raises, with the
    token index at which `parser_error` is reached (`Keyword`, `Dec`, `VarDecl`,
    `BinOp`, `UnOp`, `Field`, `PCall`, `Expr`, `Lhs`, `Loop`, `Instr`, `PD`). The
    errors raised further inside a production (a missing `:=`, bracket, `until`,
    `do`, `main`, `halt` or `}`) are not stated: those contracts only say what a
    successful call returns.
- **The scope tree** (`Analyst.recursive_scope_analysis`). The method is proved to
  build exactly `Mirror`, the scope tree as a function of the syntax tree.
  - Each entry sits one level below its parent.
  - Each child entry links to its parent's node.
  - Entries have the same arity and order as the nodes, and leaves carry their token.
  - The depth counter is back at its starting value when the call returns.
- **The variable and function tables** (`Vtable`, `Ftable`). These are append-only
  lists whose lookup returns the earliest entry with the given name. The lookup is
  proved against a first-index specification, and adding an entry is proved to change
  no earlier answer.

The parser's defects are modelled as the code has them:

- `Branch` always ends in `parser_error`.
- `BinOp` wants `]` where `)` belongs and does not consume it.
- The `do` loop expects `)` before its condition and `(` after it.
- `Field` fails rather than returning None, so `Expr` is `Const` or `Var` only.
- `Algorithm` crashes on the keyword `if` (a `Node` call with a missing argument).
- `VarDecl` never consumes the `;`.

Facts about the lexer that the lemmas state:

- A one-letter name cannot be lexed.
- Every bracketed operator word such as `add(` already matches the name pattern, so
  it lexes as one name token.
- `do`, `while`, `until`, `output`, `call` and `loop` lex as names, not keywords.

Some behaviour of the source runs against the grammar it implements. The model follows
the code in these cases:

- There is no end-of-input token. `advance` stops updating the current token past the
  end of the list, so the last token stays current (`Parsing.Cursor`).
- `Const` nodes are stamped with the `TYP` node class.
- A `ProcDefs` node without a following `,` takes no fresh id. It shares its id with
  its `PD` child.

Files: `wrappers.dfy`, `patterns.dfy`, `lexing.dfy`, `ast.dfy`, `parser.dfy`,
`scope.dfy`, `tables.dfy`.

## Model

| member | source | states |
|---|---|---|
| Patterns.WordLength | Code/spl.py:59 | The length of the leading run of non-whitespace: none of the first n characters is whitespace, and the character after them is. |
| Patterns.SplitWords | Code/spl.py:59 | `str.split()` yields only non-empty words free of whitespace. |
| Patterns.RemoveSpacesAppend | Code/spl.py:59 | Dropping whitespace distributes over concatenation. |
| Patterns.RemoveSpacesOfWord | Code/spl.py:59 | Dropping whitespace leaves a whitespace-free word unchanged. |
| Patterns.SplitKeepsCharacters | Code/spl.py:59 | The words of the split, concatenated, are the text without its whitespace: splitting loses nothing else. |
| Patterns.WordLengthOfWord | Code/spl.py:59 | A word followed by a space is measured as exactly its own length. |
| Patterns.SplitJoinRoundTrip | Code/spl.py:59 | Splitting words joined by spaces gives the same words back. |
| Patterns.NumberBodyExtend | Code/spl.py:28 | Prefixing a digit to a number body keeps it a number body. |
| Patterns.NumberBodyShrink | Code/spl.py:28 | Removing a leading digit from a number body keeps it a number body. |
| Patterns.NumberBodyDigitHead | Code/spl.py:28 | With a leading digit, the string is a number body exactly when its tail is. |
| Patterns.NumberBodySeparatorHead | Code/spl.py:28 | With a leading `.` or `,`, the string is a number body exactly when the rest is all digits. |
| Patterns.NumberBodyOtherHead | Code/spl.py:28 | A string starting with anything but a digit or separator is no number body. |
| Patterns.DropFirst | Code/spl.py:28 | Cutting the first character keeps whether the string ends in a newline. |
| Patterns.NumberScanAfterSeparator | Code/spl.py:28 | After the separator the number pattern accepts exactly digits, optionally followed by one final newline. |
| Patterns.NumberRegexIsPattern | Code/spl.py:28 | The scan of `^[0-9]*[.,]{0,1}[0-9]*$` accepts exactly: digits, at most one `.` or `,`, digits, optionally followed by one final newline (both directions). |
| Patterns.NumberRegex | Code/spl.py:28 | Definition without a contract of its own: the scan of `^[0-9]*[.,]{0,1}[0-9]*$`. `NumberRegexIsPattern` proves it equal to the direct reading. |
| Patterns.NameRegexIsSearch | Code/spl.py:30 | The unanchored search for `[a-z].([a-z] \| [0-9])*` succeeds exactly when some lower-case letter is followed by a non-newline character. |
| Patterns.NameRegex | Code/spl.py:30 | Definition without a contract of its own: the leftmost-match scan of `[a-z].([a-z] \| [0-9])*`. `NameRegexIsSearch` proves it equal to the direct reading. |
| Patterns.ShortStringNeverMatchesWord | Code/spl.py:29 | No whitespace-free word matches the short-string pattern, whose groups all contain a literal space. |
| Patterns.ShortStringRegex | Code/spl.py:29 | Definition without a contract of its own: the scan of `^([A-Z][ ][0-9]){0,15}$`. `ShortStringRegexIsPattern` proves it equal to the direct reading. |
| Patterns.ShortStringBodyStep | Code/spl.py:29 | A non-empty string is at most b groups exactly when it starts with one group of upper-case letter, space, digit and the rest is at most b - 1 groups. |
| Patterns.ShortStringScanIsPattern | Code/spl.py:29 | The scan with budget b accepts exactly: at most b groups, optionally followed by one final newline (both directions). |
| Patterns.ShortStringRegexIsPattern | Code/spl.py:29 | The short-string pattern accepts exactly: at most 15 groups of upper-case letter, space, digit, optionally followed by one final newline (both directions). |
| Patterns.NameRegexOnWord | Code/spl.py:30 | On a word, the name pattern holds exactly when a lower-case letter is not the word's last character. |
| Lexing.IsKeywordIsListed | Code/spl.py:24-26 | The keyword test holds exactly for the members of `KEYWORDS`. |
| Lexing.IsBracketedWordIsListed | Code/spl.py:27 | The bracketed-word test holds exactly for the members of `BRACKETED_WORDS`. |
| Lexing.IsKeyword | Code/spl.py:24-26 | Definition without a contract of its own: membership in `KEYWORDS`, written out by word length. `IsKeywordIsListed` proves it equal to list membership. |
| Lexing.IsBracketedWord | Code/spl.py:27 | Definition without a contract of its own: membership in `BRACKETED_WORDS`. `IsBracketedWordIsListed` proves it equal to list membership. |
| Lexing.WordKind | Code/spl.py:62-101 | Definition without a contract of its own: the kind given by the first rule of the chain that the word satisfies, or None when the word goes to `subdivide`. Its properties are in `LexWordIsOneToken`, `LowerWordIsName`, `BracketedWordsAreNames`, `StatementWordsAreNames` and `NotNumber`. |
| Lexing.Subdivision | Code/spl.py:104-117 | Definition without a contract of its own: a bracketed operator word gives a keyword token without its `(` and then a `(` token; any other word cannot be lexed. `Lexer.Subdivide` is proved against it. |
| Lexing.LexWord | Code/spl.py:62-117 | Definition without a contract of its own: the tokens of one word. `LexWordNumbered` and `LexWordIsOneToken` state its properties. |
| Lexing.LexFrom | Code/spl.py:58-117 | Definition without a contract of its own: the lexing loop from word i on. `LexFromNumbered`, `LexFromFails` and `LexFromErrorAt` state its properties. |
| Lexing.LexWords | Code/spl.py:58-117 | Definition without a contract of its own: the whole lexing loop. `Lexer.BreakUpAndSplit` is proved equal to it, and `LexErrorAtFirstRejected` and `LexedWordForWord` state what it yields. |
| Lexing.Lexer.constructor | Code/spl.py:54-56 | A new lexer holds its text and an empty token list. |
| Lexing.Lexer.Subdivide | Code/spl.py:104-117 | A bracketed operator word appends a keyword token without its `(` and then a `(` token, ids continuing the list. Any other word reaches `advanced_subdivide`, which fails on `str.contains`: nothing is appended and failure is reported. |
| Lexing.Lexer.BreakUpAndSplit | Code/spl.py:58-102 | The tokens appended are those of lexing the split words in order, starting from the list's current length. It succeeds exactly when the pure lexer does. On failure the tokens of the words before the failing word are kept. |
| Lexing.Lexer.RunLexer | Code/spl.py:193-198 | Runs the lexer over its own text and returns the token list, or failure when a word could not be lexed. |
| Lexing.LexWordNumbered | Code/spl.py:63-109 | The tokens of one word carry consecutive ids starting from the count before it. |
| Lexing.LexFromNumbered | Code/spl.py:58-109 | Every token the loop appends carries the number of tokens before it. |
| Lexing.LexWordsNumbered | Code/spl.py:58-109 | Lexing a word list onto n tokens numbers the new tokens n, n+1, …. |
| Lexing.LexIdsAreIndices | Code/spl.py:58-109 | Every token of a fresh lexer has as id its index in the output: ids run 0, 1, 2, … in emission order. |
| Lexing.LowerWordIsName | Code/spl.py:62-99 | A non-keyword word starting with a lower-case letter followed by a non-newline is classified as a user-defined name. |
| Lexing.BracketedWordsAreNames | Code/spl.py:98-101 | Every bracketed operator word is already classified as a user-defined name, so `subdivide` never splits one during lexing. |
| Lexing.LexWordIsOneToken | Code/spl.py:62-117 | A word yields exactly one token, holding the word and the kind of the first rule it satisfies, or the lexer fails on it (both directions). |
| Lexing.LexFromWordForWord | Code/spl.py:58-102 | A loop that succeeds from word i on ends with one classified token per word. |
| Lexing.LexedWordForWord | Code/spl.py:58-102 | A successful lex yields one token per word, in order, each holding its word and the kind the rule chain gives it. |
| Lexing.LexFromFails | Code/spl.py:58-117 | The loop from word i fails exactly when some word from i on is rejected by every rule. |
| Lexing.LexFromErrorAt | Code/spl.py:58-117 | A failing loop stops at the first rejected word, after the tokens of all earlier words. |
| Lexing.LexErrorAtFirstRejected | Code/spl.py:58-117 | Lexing fails exactly when some word is rejected by every rule. It then fails at the first such word, with one token for each word before it. |
| Lexing.LexKeepsCharacters | Code/spl.py:58-102 | A successful lex keeps every character of the text except whitespace, in order. |
| Lexing.ContentsAreWords | Code/spl.py:58-102 | Tokens that hold the words in order have exactly the word list as contents. |
| Lexing.AssignmentIsOneToken | Code/spl.py:89-90 | `:=` lexes as one assignment-operator token. |
| Lexing.SingleLetterIsUnlexable | Code/spl.py:92-117 | A one-letter lower-case word matches no rule, so the lexer fails on it. |
| Lexing.StatementWordsAreNames | Code/spl.py:24-26 | `do`, `while`, `until`, `output`, `call` and `loop` are missing from `KEYWORDS` and lex as user-defined names. |
| Lexing.NotNumber | Code/spl.py:92 | A word starting with a lower-case letter never matches the number pattern. |
| Ast.HasChildren | Code/spl.py:243-244 | Definition without a contract of its own: a node has children exactly when its contents are a list rather than a token. `Scope.Mirror` uses it to decide between a child list and text. |
| Ast.ArrDecShape | Code/spl.py:322-333 | The array declaration node built from a keyword, type, constant and variable has the `Dec` shape. |
| Ast.PlainDecShape | Code/spl.py:334-342 | The plain declaration node built from a type and a variable has the `Dec` shape. |
| Ast.DoLoopShape | Code/spl.py:595-609 | The node built from `do`, the body, `until` and the guard has the do-loop shape. |
| Ast.WhileLoopShape | Code/spl.py:610-625 | The node built from `while`, the guard, `do` and the body has the while-loop shape. |
| Ast.PDShape | Code/spl.py:784-823 | The procedure-definition node has the `PD` shape. |
| Ast.VarDeclShape | Code/spl.py:367-378 | A `Dec` followed by a declaration list gives a `VarDecl` node. |
| Ast.ProcDefsShape | Code/spl.py:835-850 | A `PD` with or without a following `ProcDefs` gives a `ProcDefs` node. |
| Ast.ProgramShape | Code/spl.py:852-881 | The program node built from its five parts has the program shape. |
| Ast.BinOpShape | Code/spl.py:380-405 | The binary-operator node has the `BinOp` shape. |
| Ast.ChainLower | Code/spl.py:230-238 | Lowering the lower bound keeps an id chain valid. |
| Ast.ChainAppend | Code/spl.py:230-238 | Two id runs stamped one after the other join into one ascending run. |
| Ast.StampedChildren | Code/spl.py:230-238 | Children parsed one after another have ascending ids across the whole counter range. |
| Ast.StampNode | Code/spl.py:230-238 | A compound node whose id is taken after its children are parsed is stamped over the whole run. |
| Ast.Stamp1 | Code/spl.py:230-238 | The same for a node with one child. |
| Ast.Stamp2 | Code/spl.py:230-238 | The same for a node with two children. |
| Ast.Stamp3 | Code/spl.py:230-238 | The same for a node with three children. |
| Ast.Stamp4 | Code/spl.py:230-238 | The same for a node with four children. |
| Ast.Stamp5 | Code/spl.py:230-238 | The same for a node with five children. |
| Ast.Stamp6 | Code/spl.py:230-238 | The same for a node with six children. |
| Ast.ChainMeans | Code/spl.py:230-238 | An id chain lies within (lo, hi] and never decreases. |
| Ast.StampedMeans | Code/spl.py:230-238 | The node ids of a production's tree lie within (lo, hi] and never decrease in post-order. The root carries the final counter value, the largest of them. |
| Parsing.Cursor | Code/spl.py:255-259 | Definition without a contract of its own: no current token for an empty list, otherwise the token at the index, or the last token once the index has run past the end. `Parser.Advance` and the parser's `Valid()` invariant prove that the cursor follows it. |
| Parsing.AfterTyp | Code/spl.py:281-288 | Definition without a contract of its own: the index after `TYP` has been tried. `Parser.Typ` proves the one-step move. |
| Parsing.AfterConst | Code/spl.py:300-307 | Definition without a contract of its own: the index after `Const` has been tried. `Parser.Const` proves the one-step move. |
| Parsing.AfterVar | Code/spl.py:290-298 | Definition without a contract of its own: the index after `Var` has been tried. `Parser.Var` proves the one-step move. |
| Parsing.Parser.constructor | Code/spl.py:248-253 | The cursor starts on the first token and the node counter at 0. |
| Parsing.Parser.Advance | Code/spl.py:255-259 | The index moves on by one. The current token follows it while it is in range and stays put after. |
| Parsing.Parser.NextId | Code/spl.py:267 | The node counter goes up by one; the cursor does not move. |
| Parsing.Parser.Keyword | Code/spl.py:261-270 | On a keyword: consumes exactly one token, takes exactly one fresh id, and returns that keyword leaf. Any other token is a parse error at the current index. |
| Parsing.Parser.UserDefinedName | Code/spl.py:272-279 | On a name: one token consumed, one fresh id, a name leaf. Otherwise None, with cursor and counter unchanged. |
| Parsing.Parser.Typ | Code/spl.py:281-288 | On a type keyword: one token consumed, one fresh id, a `TYP` leaf. Otherwise None, with cursor and counter unchanged. |
| Parsing.Parser.Var | Code/spl.py:290-298 | On a name: one token consumed, one fresh id, a `Var` leaf. Otherwise None, with cursor and counter unchanged. |
| Parsing.Parser.Const | Code/spl.py:300-307 | On a number, short string or boolean keyword: one token consumed, one fresh id, a leaf stamped `TYP`. Otherwise None, with cursor and counter unchanged. |
| Parsing.Parser.Dec | Code/spl.py:309-345 | A type word gives a two-child `[TYP, Var]` node and leaves the cursor after the type word and the optional name. `arr` never fails: it gives the four-child `[Keyword, TYP, Const, Var]` node, or None exactly when the `[` after the optional type or the `]` after the optional constant is missing. Any other token is a parse error at the current index. |
| Parsing.Parser.ArrDec | Code/spl.py:322-333 | The `arr` form always moves the cursor on and never fails. It gives a four-child `Dec` node stamped over the call, or None exactly when a bracket is missing. |
| Parsing.Parser.ArrBounds | Code/spl.py:325-331 | Reports the `[ Const ] Var` part present exactly when `[` stands at the cursor and `]` stands after the optional constant. The constant and the variable are then stamped one after the other. |
| Parsing.Parser.VarDecl | Code/spl.py:347-378 | A token that is not a type word gives None without consuming or stamping anything. A type word that is not a keyword is a parse error. A type keyword gives None exactly when the token after its declaration is not a type keyword; that declaration's tokens are then consumed and its ids stamped, so the last declaration of a list is dropped. A tree that is returned has the `VarDecl` shape. |
| Parsing.Parser.BinOp | Code/spl.py:380-405 | Only a binary-operator keyword is accepted; anything else is a parse error. Success leaves the cursor on the `]` it checked for, not consumed. |
| Parsing.Parser.UnOp | Code/spl.py:407-437 | A non-keyword token is a parse error; a result has the `UnOp` shape. |
| Parsing.Parser.Field | Code/spl.py:439-470 | Always fails: a parse error on every non-empty token list, at the current index when the token is not a name. |
| Parsing.Parser.PCall | Code/spl.py:472-496 | Anything but `call` is a parse error; a result has the `PCall` shape. |
| Parsing.Parser.Expr | Code/spl.py:498-545 | A constant gives an `Expr` node wrapping a constant leaf, and a name one wrapping a `Var` leaf. Each takes one token and two fresh ids. Any other token is a parse error, because `Field` fails before `UnOp` and `BinOp` are tried. |
| Parsing.Parser.Lhs | Code/spl.py:547-576 | A name not followed by `[` gives an `Lhs` node wrapping a `Var` leaf. A name followed by `[` fails. A name as the last token crashes on the lookahead. Anything but a name or `output` is a parse error. |
| Parsing.Parser.Loop | Code/spl.py:578-631 | `do` gives a do-loop node ending on the `(` its guard wants, and `while` a while-loop node ending on the `}`. Any other token is a parse error at the current index. |
| Parsing.Parser.DoLoop | Code/spl.py:595-609 | A successful `do` loop has the do-loop shape (never the while-loop shape), with ids stamped over the call, and ends on a `(`. |
| Parsing.Parser.WhileLoop | Code/spl.py:610-625 | A successful `while` loop has the while-loop shape (never the do-loop shape), with ids stamped over the call, and ends on a `}`. |
| Parsing.Parser.Alternat | Code/spl.py:633-654 | Anything but `else` gives None, with cursor and counter unchanged. A node has the `Alternat` shape and ends on a `}`. |
| Parsing.Parser.Branch | Code/spl.py:656-682 | Never succeeds. |
| Parsing.Parser.Assign | Code/spl.py:684-703 | A result has the assignment shape with ids stamped over the call. |
| Parsing.Parser.Instr | Code/spl.py:705-743 | `if` never succeeds. A token that is neither a name nor one of `output`, `if`, `do`, `loop`, `call` is a parse error. A result has the instruction shape. |
| Parsing.Parser.Algorithm | Code/spl.py:745-782 | A keyword among `do`, `if`, `loop`, `call` crashes on the `Node` call with a missing argument. Any other keyword gives None with cursor and counter unchanged. |
| Parsing.Parser.PD | Code/spl.py:784-823 | Anything but `proc` is a parse error. A result has the `PD` shape, and the call consumed tokens and stamped at least one node. |
| Parsing.Parser.ProcEnd | Code/spl.py:808-816 | When the procedure's `return ; VarDecl }` tail parses, the `return` leaf and the declarations are stamped one after the other and the cursor has moved on. |
| Parsing.Parser.ProcDefs | Code/spl.py:825-850 | An index past the end crashes on the token copy. A token that is not `proc` gives None with cursor and counter unchanged. A result has the `ProcDefs` shape. |
| Parsing.Parser.SplProgr | Code/spl.py:852-881 | A result has the program shape, stamped over the call, and the cursor rests on its closing `}`. An index past the end crashes. |
| Parsing.Parse | Code/spl.py:883-894 | A parse that succeeds yields a program tree whose ids all lie in 1..root id and never decrease in post-order. An empty token list crashes. |
| Scope.Mirror | Code/spl.py:950-972 | The entry for a node holds the level, parent and node it was built with. It has a child list exactly for an inner node, and text exactly for a leaf. |
| Scope.Analyst.constructor | Code/spl.py:943-948 | A new analyst holds the program node and node list, at scope level 0 with no parent entry. |
| Scope.Analyst.RecursiveScopeAnalysis | Code/spl.py:950-972 | The entry built is exactly `Mirror` of the node at the starting level, and the scope level is restored when the call returns. |
| Scope.Analyst.AnalyseScope | Code/spl.py:977-983 | The root entry is `Mirror` of the program node with no parent, and it is also stored as `parent_node`. |
| Scope.MirrorLevels | Code/spl.py:963-968 | The root entry is at the starting level, and every child entry sits one level below its parent. |
| Scope.MirrorParents | Code/spl.py:963-968 | Every child entry names its parent entry's node as its parent. |
| Scope.MirrorShape | Code/spl.py:960-971 | One child entry per child node, in the same order, and each leaf entry carries its node's token as text. |
| Scope.MirrorSize | Code/spl.py:960-971 | The scope tree has exactly as many entries as the syntax tree has positions. |
| Scope.MirrorSizeAll | Code/spl.py:963-968 | The same for a list of children. |
| Tables.FirstIndex | Code/spl.py:1170-1175 | None exactly when the name is absent. Otherwise the position of a matching name with no match before it. |
| Tables.FirstIndexAppend | Code/spl.py:1167-1168 | Appending a name does not move the first match of a name already present. A new name is found at the appended position. |
| Tables.LookupVariableAfterAdd | Code/spl.py:1167-1175 | Adding a variable changes no earlier answer. Only a name not present before can find the new entry. |
| Tables.LookupFunctionAfterAdd | Code/spl.py:1182-1190 | Adding a function changes no earlier answer. Only a name not present before can find the new entry. |
| Tables.FirstIndexIs | Code/spl.py:1170-1175 | A matching position with no earlier match is the first index. |
| Tables.LookupVariable | Code/spl.py:1170-1175 | A found entry has the name and sits at a position with no earlier entry of that name. None exactly when no entry has the name. |
| Tables.LookupFunction | Code/spl.py:1185-1190 | A found entry has the name and sits at a position with no earlier entry of that name. None exactly when no entry has the name. |
| Tables.Vtable.constructor | Code/spl.py:1164-1165 | A new table is empty. |
| Tables.Vtable.AddVariable | Code/spl.py:1167-1168 | Appends the entry and leaves every earlier entry unchanged. |
| Tables.Vtable.FindVariable | Code/spl.py:1170-1175 | Returns the earliest entry with the name. It returns None exactly when no entry has that name. |
| Tables.Ftable.constructor | Code/spl.py:1178-1180 | A new table is empty. |
| Tables.Ftable.AddFunction | Code/spl.py:1182-1183 | Appends the entry and leaves every earlier entry unchanged. |
| Tables.Ftable.FindFunction | Code/spl.py:1185-1190 | Returns the earliest entry with the name. It returns None exactly when no entry has that name. |

## Left out

- `FileReader`, `Runner`, `Code/main.py` and `Code/server.py` are not part of this model. They are file reading, command-line handling and a web route.
- The `print` tracing of the lexer, parser and analyst is left out; it is diagnostic output only.
- The `parser_error` message is left out; only its end of the run is kept, as a `ParserError` carrying the token index.
- `Lexer.break_up` is not part of this model. Nothing calls it.
- `Analyst.analyse_syntactic_objects` is not part of this model. Its body is a bare `pass`; the check it describes is commented out.
- `Analyst.nested_procedure_def_error` is not part of this model. It prints a message and calls `quit()`, and its only call site is in the commented-out code of `analyse_syntactic_objects`.
- `Analyst.check_types` and `convert_types` are not part of this model. Nothing in the front end calls them. `check_types` calls `convert_types` with one argument where two are needed, and `convert_types` calls `str.contains`, which Python strings do not have.
- `AstIntermediateGenerator` and `VariableItem` are not part of this model. The generator's recursion does not match its caller, and it writes files and starts OS programs.
- `Ftable.performs` (Code/spl.py:1180) is not modelled. The constructor sets it to None and nothing in the core reads it.
- `get_fresh_token_list_copy` is modelled as a direct read of the token list. The deep copy is only used to look at one token.
- Python's `re` engine is replaced by hand-written predicates for the three patterns, each proved equal to a direct reading of its pattern.
- `str.split()` is modelled with Python's whitespace set over single characters. Strings are sequences of characters, without any encoding.
- Object identity and aliasing are not modelled. Tokens, nodes and scope entries are values, so a scope entry's `parent` and `node` are copies of the syntax-tree nodes rather than references to them.
- Lexing.Lexer.Subdivide: the body of `advanced_subdivide` after its first `str.contains` call is not modelled, because that call always raises before anything is appended.
- Parsing.Parser.VarDecl: the crash is modelled as a `RecursionLimit` failure once the index runs past the end while the last token is a type keyword. Python's recursion depth is not counted.
- `Parsing.Parser.DoLoop`, `WhileLoop`, `ArrDec`, `ArrBounds`, `ProcEnd` and `NextId` split the bodies of `Loop`, `Dec`, `PD` and the `num_nodes += 1` steps so that each proof stays small. The functions `Parsing.AfterTyp`, `AfterConst`, `AfterVar` and `Bracketed` name the cursor positions those contracts mention. None of them adds behaviour.
- Parsing.Parser.Assign, Alternat, DoLoop, WhileLoop, Branch, UnOp, PCall, PD, ProcEnd, SplProgr: the errors raised after the first token (a missing `:=`, bracket, `until`, `do`, `return`, `;`, `main`, `halt` or `}`) are not stated. Their contracts give the shape of a result and, where the first token is wrong, the error raised, not the exact tree and cursor position for every input.
- `Parser.vardec_recursion_layer` (Code/spl.py:347-377) is not modelled. `VarDecl` raises and lowers it, but only commented-out tracing reads it.
