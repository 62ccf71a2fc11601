/**
  * The word lexer of Code/spl.py:7-198. The program text is split on
  * whitespace and every word is classified by the first rule of a fixed chain
  * that it satisfies; each token is stamped with the number of tokens
  * emitted before it.
  */
module Lexing {
  import opened Wrappers
  import opened Patterns

  datatype TokenType =
    | Number | UserDefinedName | ShortString
    | LSquareBracket | RSquareBracket | LBrace | RBrace | LBracket | RBracket
    | Comma | Semicolon | Keyword | AssignmentOperator

  /** `Token(token_type, token_id, contents)`: `id` is the token's position in the lexer's output. */
  datatype Token = Token(kind: TokenType, id: int, contents: string)

  const Keywords: seq<string> :=
    ["arr", "sub", "mult", "add", "larger", "eq", "or", "and", "not",
     "input", "true", "false", "if", "then", "else", "proc", "main",
     "return", "halt", "num", "bool", "string"]

  /** An operator keyword glued to its opening bracket. */
  const BracketedWords: seq<string> :=
    ["and(", "or(", "eq(", "larger(", "add(", "sub(", "mult(", "input(", "not("]

  /** `w in KEYWORDS`, written out by word length (see `IsKeywordIsListed`). */
  predicate IsKeyword(w: string) {
    match |w|
    case 2 => w == "eq" || w == "or" || w == "if"
    case 3 => w == "arr" || w == "sub" || w == "add" || w == "and" || w == "not" || w == "num"
    case 4 => w == "mult" || w == "true" || w == "then" || w == "else" || w == "proc" || w == "main" || w == "halt" || w == "bool"
    case 5 => w == "input" || w == "false"
    case 6 => w == "larger" || w == "return" || w == "string"
    case _ => false
  }

  /** `w in BRACKETED_WORDS`, written out by word length (see `IsBracketedWordIsListed`). */
  predicate IsBracketedWord(w: string) {
    match |w|
    case 3 => w == "or(" || w == "eq("
    case 4 => w == "and(" || w == "add(" || w == "sub(" || w == "not("
    case 5 => w == "mult("
    case 6 => w == "input("
    case 7 => w == "larger("
    case _ => false
  }

  lemma IsKeywordIsListed(w: string)
    ensures IsKeyword(w) <==> w in Keywords
  {
  }

  lemma IsBracketedWordIsListed(w: string)
    ensures IsBracketedWord(w) <==> w in BracketedWords
  {
  }

  /**
    * The rule chain of `break_up_and_split` (Code/spl.py:62-100): the kind a
    * whole word receives, tried in order keyword, the eight punctuation
    * symbols, `:=`, number, short string, user-defined name. None means the
    * word is handed to `subdivide`.
    */
  function WordKind(w: string): Option<TokenType> {
    if IsKeyword(w) then Some(Keyword)
    else if w == "," then Some(Comma)
    else if w == ";" then Some(Semicolon)
    else if w == "(" then Some(LBracket)
    else if w == ")" then Some(RBracket)
    else if w == "{" then Some(LBrace)
    else if w == "}" then Some(RBrace)
    else if w == "[" then Some(LSquareBracket)
    else if w == "]" then Some(RSquareBracket)
    else if w == ":=" then Some(AssignmentOperator)
    else if NumberRegex(w) then Some(Number)
    else if ShortStringRegex(w) then Some(ShortString)
    else if NameRegex(w) then Some(UserDefinedName)
    else None
  }

  /** What one word adds to the token list: some tokens, or a lexical failure. */
  datatype WordLexing = Emit(tokens: seq<Token>) | Unlexable

  /**
    * `subdivide` (Code/spl.py:104-111) with `n` tokens already emitted: a
    * bracketed operator word becomes a keyword and a `(`; any other word
    * reaches `advanced_subdivide`, which fails on its first step because
    * Python strings have no `contains` method (Code/spl.py:117).
    */
  function Subdivision(w: string, n: int): WordLexing {
    if IsBracketedWord(w) then
      Emit([Token(Keyword, n, w[..|w| - 1]), Token(LBracket, n + 1, "(")])
    else
      Unlexable
  }

  /** The tokens one word produces when `n` tokens have been emitted before it. */
  function LexWord(w: string, n: int): WordLexing {
    match WordKind(w)
    case Some(k) => Emit([Token(k, n, w)])
    case None => Subdivision(w, n)
  }

  /**
    * The outcome of lexing a list of words: the tokens emitted, and for a
    * failure also the word that could not be lexed (the tokens of the words
    * before it have already been appended when the failure happens).
    */
  datatype LexResult = Lexed(tokens: seq<Token>) | LexError(tokens: seq<Token>, word: string)

  /**
    * The loop of `break_up_and_split` from word `i` on, when the earlier
    * words have appended `acc` to a list that held `n` tokens before the loop.
    */
  function LexFrom(ws: seq<string>, i: nat, acc: seq<Token>, n: int): LexResult
    decreases |ws| - i
  {
    if i >= |ws| then Lexed(acc)
    else
      match LexWord(ws[i], n + |acc|)
      case Unlexable => LexError(acc, ws[i])
      case Emit(more) => LexFrom(ws, i + 1, acc + more, n)
  }

  /** The words lexed left to right onto a list that already holds `n` tokens. */
  function LexWords(ws: seq<string>, n: int): LexResult {
    LexFrom(ws, 0, [], n)
  }

  /** Tokens stamped consecutively from `n`. */
  predicate NumberedFrom(ts: seq<Token>, n: int) {
    forall i :: 0 <= i < |ts| ==> ts[i].id == n + i
  }

  /** A token is what the rule chain makes of its own contents. */
  predicate Classified(t: Token) {
    WordKind(t.contents) == Some(t.kind)
  }

  class Lexer {
    const text: string
    var tokens: seq<Token>

    constructor (text: string)
      ensures this.text == text && tokens == []
    {
      this.text := text;
      tokens := [];
    }

    /** `subdivide`: on success appends its tokens; a failure appends nothing. */
    method Subdivide(fullWord: string) returns (ok: bool)
      modifies this
      ensures ok == Subdivision(fullWord, |old(tokens)|).Emit?
      ensures ok ==> tokens == old(tokens) + Subdivision(fullWord, |old(tokens)|).tokens
      ensures !ok ==> tokens == old(tokens)
    {
      if IsBracketedWord(fullWord) {
        var fixedWord := fullWord[..|fullWord| - 1];
        tokens := tokens + [Token(Keyword, |tokens|, fixedWord)];
        tokens := tokens + [Token(LBracket, |tokens|, "(")];
        return true;
      }
      // advanced_subdivide: `part_word.contains(')')` raises on the first part.
      return false;
    }

    /**
      * `break_up_and_split`: every word of the text, in order, appends what the
      * rule chain or `subdivide` makes of it; the first word that cannot be
      * lexed stops the lexer, with the tokens of the earlier words appended.
      */
    method BreakUpAndSplit(fullText: string) returns (ok: bool)
      modifies this
      ensures ok == LexWords(SplitWords(fullText), |old(tokens)|).Lexed?
      ensures tokens == old(tokens) + LexWords(SplitWords(fullText), |old(tokens)|).tokens
    {
      var split := SplitWords(fullText);
      var start := |tokens|;
      ghost var added: seq<Token> := [];
      for i := 0 to |split|
        invariant tokens == old(tokens) + added
        invariant LexFrom(split, i, added, start) == LexWords(split, start)
      {
        var fullWord := split[i];
        var kind := WordKind(fullWord);
        if kind.Some? {
          var t := Token(kind.value, |tokens|, fullWord);
          tokens := tokens + [t];
          added := added + [t];
        } else {
          ghost var sub := Subdivision(fullWord, |tokens|);
          var done := Subdivide(fullWord);
          if !done {
            return false;
          }
          added := added + sub.tokens;
        }
      }
      return true;
    }

    /** `run_lexer`: lex the text the lexer was built with and return its tokens. */
    method RunLexer() returns (r: Option<seq<Token>>)
      modifies this
      ensures tokens == old(tokens) + LexWords(SplitWords(text), |old(tokens)|).tokens
      ensures r == if LexWords(SplitWords(text), |old(tokens)|).Lexed? then Some(tokens) else None
    {
      var ok := BreakUpAndSplit(text);
      r := if ok then Some(tokens) else None;
    }
  }

  /** A fresh lexer over `text`: the whole of `run_lexer` as one function. */
  function Lex(text: string): LexResult {
    LexWords(SplitWords(text), 0)
  }

  // ---------------------------------------------------------------------
  // Properties of the lexer.

  /** The tokens of one word are stamped consecutively from the count before it. */
  lemma LexWordNumbered(w: string, n: int)
    ensures LexWord(w, n).Emit? ==> NumberedFrom(LexWord(w, n).tokens, n)
  {
  }

  /** Every token emitted is stamped with the number of tokens emitted before it. */
  lemma {:induction false} LexFromNumbered(ws: seq<string>, i: nat, acc: seq<Token>, n: int)
    requires NumberedFrom(acc, n)
    ensures NumberedFrom(LexFrom(ws, i, acc, n).tokens, n)
    decreases |ws| - i
  {
    if i < |ws| {
      var r := LexWord(ws[i], n + |acc|);
      if r.Emit? {
        LexWordNumbered(ws[i], n + |acc|);
        LexFromNumbered(ws, i + 1, acc + r.tokens, n);
      }
    }
  }

  lemma LexWordsNumbered(ws: seq<string>, n: int)
    ensures NumberedFrom(LexWords(ws, n).tokens, n)
  {
    LexFromNumbered(ws, 0, [], n);
  }

  /** The tokens of a fresh lexer have ids 0, 1, 2, ... in emission order. */
  lemma LexIdsAreIndices(text: string)
    ensures forall i :: 0 <= i < |Lex(text).tokens| ==> Lex(text).tokens[i].id == i
  {
    LexWordsNumbered(SplitWords(text), 0);
  }

  /**
    * A word that is not a keyword and starts with a lower-case letter followed
    * by a character other than a newline lexes as a user-defined name: the
    * punctuation, number and short-string rules all fail on its first letter.
    */
  lemma LowerWordIsName(w: string)
    requires |w| >= 2 && IsLower(w[0]) && w[1] != '\n' && w !in Keywords
    ensures WordKind(w) == Some(UserDefinedName)
  {
    IsKeywordIsListed(w);
    NotNumber(w);
  }

  /**
    * Every bracketed operator word already matches the user-defined-name
    * pattern, so the rule chain classifies it as a name and `subdivide`
    * never splits a word that `break_up_and_split` hands it.
    */
  lemma BracketedWordsAreNames()
    ensures forall w :: w in BracketedWords ==> WordKind(w) == Some(UserDefinedName)
  {
    forall i | 0 <= i < |BracketedWords|
      ensures WordKind(BracketedWords[i]) == Some(UserDefinedName)
    {
      var w := BracketedWords[i];
      assert |w| >= 2 && IsLower(w[0]) && w[1] != '\n';
      assert w !in Keywords by {
        assert w[|w| - 1] == '(';
        forall j | 0 <= j < |Keywords| ensures Keywords[j] != w {
          var kw := Keywords[j];
          assert kw[|kw| - 1] != '(';
        }
      }
      LowerWordIsName(w);
    }
  }

  /** A word yields exactly one token carrying the word, or is a lexical failure. */
  lemma LexWordIsOneToken(w: string, n: int)
    ensures LexWord(w, n).Emit? <==> WordKind(w).Some?
    ensures LexWord(w, n).Emit? ==> LexWord(w, n).tokens == [Token(WordKind(w).value, n, w)]
  {
    BracketedWordsAreNames();
    IsBracketedWordIsListed(w);
  }

  /** The first `i` tokens stand for the first `i` words, one each, in order. */
  predicate WordForWord(ts: seq<Token>, ws: seq<string>, i: nat)
    requires i <= |ws| && |ts| == i
  {
    forall j :: 0 <= j < i ==> ts[j].contents == ws[j] && Classified(ts[j])
  }

  lemma {:induction false} LexFromWordForWord(ws: seq<string>, i: nat, acc: seq<Token>, n: int)
    requires i <= |ws| && |acc| == i && WordForWord(acc, ws, i)
    requires LexFrom(ws, i, acc, n).Lexed?
    ensures |LexFrom(ws, i, acc, n).tokens| == |ws|
    ensures WordForWord(LexFrom(ws, i, acc, n).tokens, ws, |ws|)
    decreases |ws| - i
  {
    if i < |ws| {
      LexWordIsOneToken(ws[i], n + i);
      var more := LexWord(ws[i], n + i).tokens;
      LexFromWordForWord(ws, i + 1, acc + more, n);
    }
  }

  /**
    * A successful lex yields one token per word, in order, each holding its
    * word and the kind the rule chain gives it.
    */
  lemma LexedWordForWord(ws: seq<string>, n: int)
    requires LexWords(ws, n).Lexed?
    ensures |LexWords(ws, n).tokens| == |ws|
    ensures forall i :: 0 <= i < |ws| ==>
      LexWords(ws, n).tokens[i].contents == ws[i] && Classified(LexWords(ws, n).tokens[i])
  {
    LexFromWordForWord(ws, 0, [], n);
  }

  lemma {:induction false} LexFromFails(ws: seq<string>, i: nat, acc: seq<Token>, n: int)
    requires i <= |ws|
    ensures LexFrom(ws, i, acc, n).LexError? <==> exists j :: i <= j < |ws| && WordKind(ws[j]).None?
    decreases |ws| - i
  {
    if i < |ws| {
      LexWordIsOneToken(ws[i], n + |acc|);
      if WordKind(ws[i]).Some? {
        LexFromFails(ws, i + 1, acc + LexWord(ws[i], n + |acc|).tokens, n);
      }
    }
  }

  lemma {:induction false} LexFromErrorAt(ws: seq<string>, i: nat, acc: seq<Token>, n: int)
    requires i <= |ws| && |acc| == i
    requires forall j :: 0 <= j < i ==> WordKind(ws[j]).Some?
    requires LexFrom(ws, i, acc, n).LexError?
    ensures var k := |LexFrom(ws, i, acc, n).tokens|;
      k < |ws| && LexFrom(ws, i, acc, n).word == ws[k] && WordKind(ws[k]).None?
      && forall j :: 0 <= j < k ==> WordKind(ws[j]).Some?
    decreases |ws| - i
  {
    LexWordIsOneToken(ws[i], n + i);
    if WordKind(ws[i]).Some? {
      LexFromErrorAt(ws, i + 1, acc + LexWord(ws[i], n + i).tokens, n);
    }
  }

  /** A lexical failure happens exactly at the first word the rule chain rejects. */
  lemma LexErrorAtFirstRejected(ws: seq<string>, n: int)
    ensures LexWords(ws, n).LexError? <==> exists i :: 0 <= i < |ws| && WordKind(ws[i]).None?
    ensures LexWords(ws, n).LexError? ==>
      var k := |LexWords(ws, n).tokens|;
      k < |ws| && LexWords(ws, n).word == ws[k] && WordKind(ws[k]).None?
      && forall j :: 0 <= j < k ==> WordKind(ws[j]).Some?
  {
    LexFromFails(ws, 0, [], n);
    if LexWords(ws, n).LexError? {
      LexFromErrorAt(ws, 0, [], n);
    }
  }

  /** Lexing loses no character of the text other than whitespace. */
  lemma LexKeepsCharacters(text: string)
    requires Lex(text).Lexed?
    ensures Concat(ContentsOf(Lex(text).tokens)) == RemoveSpaces(text)
  {
    var ws := SplitWords(text);
    LexedWordForWord(ws, 0);
    ContentsAreWords(Lex(text).tokens, ws);
    SplitKeepsCharacters(text);
  }

  function ContentsOf(ts: seq<Token>): seq<string> {
    if ts == [] then [] else [ts[0].contents] + ContentsOf(ts[1..])
  }

  lemma {:induction false} ContentsAreWords(ts: seq<Token>, ws: seq<string>)
    requires |ts| == |ws| && forall i :: 0 <= i < |ws| ==> ts[i].contents == ws[i]
    ensures ContentsOf(ts) == ws
    decreases |ts|
  {
    if ts != [] {
      ContentsAreWords(ts[1..], ws[1..]);
    }
  }

  // ---------------------------------------------------------------------
  // How particular words lex.

  /** `:=` is one assignment-operator token, never two. */
  lemma AssignmentIsOneToken(n: int)
    ensures LexWord(":=", n) == Emit([Token(AssignmentOperator, n, ":=")])
  {
  }

  /** A single lower-case letter matches no rule: the lexer fails on a one-letter name. */
  lemma SingleLetterIsUnlexable(c: char, n: int)
    requires IsLower(c)
    ensures LexWord([c], n) == Unlexable
  {
    NotNumber([c]);
    ShortStringNeverMatchesWord([c]);
  }

  /** Words the grammar uses as statement keywords although they are missing from the keyword list. */
  const StatementWords: seq<string> := ["do", "while", "until", "output", "call", "loop"]

  /** `do`, `while`, `until`, `output`, `call` and `loop` are not keywords: they lex as user-defined names. */
  lemma StatementWordsAreNames()
    ensures forall w :: w in StatementWords ==> WordKind(w) == Some(UserDefinedName)
  {
    forall w | w in StatementWords
      ensures WordKind(w) == Some(UserDefinedName)
    {
      LowerWordIsName(w);
    }
  }

  /** A word that starts with a lower-case letter is not a number. */
  lemma NotNumber(w: string)
    requires |w| > 0 && IsLower(w[0])
    ensures !NumberRegex(w)
  {
  }

}
