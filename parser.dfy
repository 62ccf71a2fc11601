/**
  * The recursive-descent parser of Code/spl.py:247-913. The state is a
  * cursor over the token list (`tokenIndex`, `currentToken`) and the node
  * counter `numNodes`; there is one method per production.
  *
  * `parser_error` ends the program with `quit()`, and several productions
  * end it with a Python exception instead; both become a `Fail` outcome,
  * which every caller hands straight back. A production that returns Python's
  * `None` returns `Ok(Nil)`.
  *
  * Every production keeps `Valid()`, never moves the cursor backwards, and
  * when it does not fail returns a tree of the production's shape (see the
  * shape predicates of `Ast`) whose ids are `Stamped` over the counter values
  * before and after the call.
  */
module Parsing {
  import opened Wrappers
  import opened Lexing
  import opened Ast

  /** The Python exceptions the parser can raise. */
  datatype Cause =
    | NoCurrentToken   // an attribute of `current_token` read while it is None (empty token list)
    | IndexOutOfRange  // `tokens[i]` with `i` past the end of the list
    | BadNodeCall      // `Node(0, kind)` called with a missing argument
    | RecursionLimit   // `VarDecl` calling itself without end

  datatype Failure = ParserError(at: int) | Crash(cause: Cause)

  datatype Outcome = Ok(tree: Tree) | Fail(failure: Failure)

  /**
    * The token under the cursor. `advance` stops updating the current token
    * once the index runs past the end, so the last token stays current.
    */
  function Cursor(ts: seq<Token>, i: nat): Option<Token> {
    if |ts| == 0 then None else Some(ts[if i < |ts| then i else |ts| - 1])
  }

  /** The token `t` has type `k`. */
  predicate Is(t: Option<Token>, k: TokenType) {
    t.Some? && t.value.kind == k
  }

  /** The token `t` is the keyword `w`. */
  predicate IsWord(t: Option<Token>, w: string) {
    t.Some? && t.value.kind == TokenType.Keyword && t.value.contents == w
  }

  /** Where the cursor stands once `TYP` has been tried at index `i`: it takes one type keyword. */
  function AfterTyp(ts: seq<Token>, i: nat): nat {
    if Cursor(ts, i).Some? && IsTypToken(Cursor(ts, i).value) then i + 1 else i
  }

  /** Where the cursor stands once `Const` has been tried at index `i`: it takes one constant. */
  function AfterConst(ts: seq<Token>, i: nat): nat {
    if Cursor(ts, i).Some? && IsConstToken(Cursor(ts, i).value) then i + 1 else i
  }

  /** Where the cursor stands once `Var` has been tried at index `i`: it takes one name. */
  function AfterVar(ts: seq<Token>, i: nat): nat {
    if Is(Cursor(ts, i), TokenType.UserDefinedName) then i + 1 else i
  }

  /**
    * The `[` of an array bound stands at `open`, and its `]` right after the
    * constant that may follow it.
    */
  predicate Bracketed(ts: seq<Token>, open: nat) {
    Is(Cursor(ts, open), LSquareBracket) && Is(Cursor(ts, AfterConst(ts, open + 1)), RSquareBracket)
  }

  /** The keywords `Algorithm` treats as the start of an instruction. */
  predicate IsInstrWord(w: string) {
    match |w|
    case 2 => w == "do" || w == "if"
    case 4 => w == "loop" || w == "call"
    case _ => false
  }

  class Parser {
    const tokens: seq<Token>
    var tokenIndex: int
    var currentToken: Option<Token>
    var numNodes: int

    ghost predicate Valid()
      reads this
    {
      0 <= tokenIndex && currentToken == Cursor(tokens, tokenIndex)
    }

    /** `token_index` starts at -1 and is advanced once; the counter starts at 0. */
    constructor (tokens: seq<Token>)
      ensures Valid() && this.tokens == tokens
      ensures tokenIndex == 0 && numNodes == 0
    {
      this.tokens := tokens;
      tokenIndex := 0;
      currentToken := if 0 < |tokens| then Some(tokens[0]) else None;
      numNodes := 0;
    }

    method Advance()
      requires Valid()
      modifies this
      ensures Valid()
      ensures tokenIndex == old(tokenIndex) + 1 && numNodes == old(numNodes)
      ensures currentToken == if tokenIndex < |tokens| then Some(tokens[tokenIndex]) else old(currentToken)
    {
      tokenIndex := tokenIndex + 1;
      if tokenIndex < |tokens| {
        currentToken := Some(tokens[tokenIndex]);
      }
    }

    /** `num_nodes += 1`: the step that gives the next node its id. */
    method NextId()
      requires Valid()
      modifies this
      ensures Valid() && numNodes == old(numNodes) + 1
      ensures tokenIndex == old(tokenIndex) && currentToken == old(currentToken)
    {
      numNodes := numNodes + 1;
    }

    // -------------------------------------------------------------------------
    // Leaf productions: one token, one fresh id

    method Keyword() returns (r: Outcome)
      requires Valid()
      modifies this
      ensures Valid() && old(tokenIndex) <= tokenIndex
      ensures r.Ok? ==> Stamped(r.tree, old(numNodes), numNodes)
      ensures old(currentToken).None? ==> r == Fail(Crash(NoCurrentToken))
      ensures Is(old(currentToken), TokenType.Keyword) ==>
        tokenIndex == old(tokenIndex) + 1 && numNodes == old(numNodes) + 1
        && r == Ok(Node(numNodes, NodeKind.Keyword, Leaf(old(currentToken).value)))
        && IsKeywordLeaf(r.tree, old(currentToken).value.contents)
      ensures old(currentToken).Some? && !Is(old(currentToken), TokenType.Keyword) ==>
        r == Fail(ParserError(old(tokenIndex)))
    {
      if currentToken.None? {
        return Fail(Crash(NoCurrentToken));
      }
      var token := currentToken.value;
      if token.kind == TokenType.Keyword {
        Advance();
        NextId();
        return Ok(Node(numNodes, NodeKind.Keyword, Leaf(token)));
      }
      return Fail(ParserError(tokenIndex));
    }

    method UserDefinedName() returns (r: Outcome)
      requires Valid()
      modifies this
      ensures Valid() && old(tokenIndex) <= tokenIndex
      ensures r.Ok? ==> Stamped(r.tree, old(numNodes), numNodes)
      ensures old(currentToken).None? ==> r == Fail(Crash(NoCurrentToken))
      ensures Is(old(currentToken), TokenType.UserDefinedName) ==>
        tokenIndex == old(tokenIndex) + 1 && numNodes == old(numNodes) + 1
        && r == Ok(Node(numNodes, NodeKind.UserDefinedName, Leaf(old(currentToken).value)))
      ensures old(currentToken).Some? && !Is(old(currentToken), TokenType.UserDefinedName) ==>
        r == Ok(Nil) && tokenIndex == old(tokenIndex) && numNodes == old(numNodes)
    {
      if currentToken.None? {
        return Fail(Crash(NoCurrentToken));
      }
      var token := currentToken.value;
      if token.kind == TokenType.UserDefinedName {
        Advance();
        NextId();
        return Ok(Node(numNodes, NodeKind.UserDefinedName, Leaf(token)));
      }
      return Ok(Nil);
    }

    method Typ() returns (r: Outcome)
      requires Valid()
      modifies this
      ensures Valid() && old(tokenIndex) <= tokenIndex
      ensures r.Ok? ==> Stamped(r.tree, old(numNodes), numNodes) && (r.tree.Nil? || IsTypLeaf(r.tree))
      ensures old(currentToken).Some? ==> r.Ok?
      ensures old(currentToken).None? ==> r == Fail(Crash(NoCurrentToken))
      ensures old(currentToken).Some? && IsTypToken(old(currentToken).value) ==>
        tokenIndex == old(tokenIndex) + 1 && numNodes == old(numNodes) + 1
        && r == Ok(Node(numNodes, NodeKind.Typ, Leaf(old(currentToken).value)))
      ensures old(currentToken).Some? && !IsTypToken(old(currentToken).value) ==>
        r == Ok(Nil) && tokenIndex == old(tokenIndex) && numNodes == old(numNodes)
    {
      if currentToken.None? {
        return Fail(Crash(NoCurrentToken));
      }
      var token := currentToken.value;
      if IsTypToken(token) {
        Advance();
        NextId();
        return Ok(Node(numNodes, NodeKind.Typ, Leaf(token)));
      }
      return Ok(Nil);
    }

    method Var() returns (r: Outcome)
      requires Valid()
      modifies this
      ensures Valid() && old(tokenIndex) <= tokenIndex
      ensures r.Ok? ==> Stamped(r.tree, old(numNodes), numNodes) && (r.tree.Nil? || IsVarLeaf(r.tree))
      ensures old(currentToken).Some? ==> r.Ok?
      ensures old(currentToken).None? ==> r == Fail(Crash(NoCurrentToken))
      ensures Is(old(currentToken), TokenType.UserDefinedName) ==>
        tokenIndex == old(tokenIndex) + 1 && numNodes == old(numNodes) + 1
        && r == Ok(Node(numNodes, NodeKind.Var, Leaf(old(currentToken).value)))
      ensures old(currentToken).Some? && !Is(old(currentToken), TokenType.UserDefinedName) ==>
        r == Ok(Nil) && tokenIndex == old(tokenIndex) && numNodes == old(numNodes)
    {
      if currentToken.None? {
        return Fail(Crash(NoCurrentToken));
      }
      var token := currentToken.value;
      if token.kind == TokenType.UserDefinedName {
        Advance();
        NextId();
        return Ok(Node(numNodes, NodeKind.Var, Leaf(token)));
      }
      return Ok(Nil);
    }

    /** A number, a short string or a boolean keyword; the node is stamped `Typ`. */
    method Const() returns (r: Outcome)
      requires Valid()
      modifies this
      ensures Valid() && old(tokenIndex) <= tokenIndex
      ensures r.Ok? ==> Stamped(r.tree, old(numNodes), numNodes) && (r.tree.Nil? || IsConstLeaf(r.tree))
      ensures old(currentToken).Some? ==> r.Ok?
      ensures old(currentToken).None? ==> r == Fail(Crash(NoCurrentToken))
      ensures old(currentToken).Some? && IsConstToken(old(currentToken).value) ==>
        tokenIndex == old(tokenIndex) + 1 && numNodes == old(numNodes) + 1
        && r == Ok(Node(numNodes, NodeKind.Typ, Leaf(old(currentToken).value)))
      ensures old(currentToken).Some? && !IsConstToken(old(currentToken).value) ==>
        r == Ok(Nil) && tokenIndex == old(tokenIndex) && numNodes == old(numNodes)
    {
      if currentToken.None? {
        return Fail(Crash(NoCurrentToken));
      }
      var token := currentToken.value;
      if IsConstToken(token) {
        Advance();
        NextId();
        return Ok(Node(numNodes, NodeKind.Typ, Leaf(token)));
      }
      return Ok(Nil);
    }

    // -------------------------------------------------------------------------
    // Declarations

    /** `arr TYP [ Const ] Var` or `TYP Var`. */
    method Dec() returns (r: Outcome)
      requires Valid()
      modifies this
      ensures Valid() && old(tokenIndex) <= tokenIndex
      ensures r.Ok? ==> Stamped(r.tree, old(numNodes), numNodes) && (r.tree.Nil? || IsDec(r.tree))
      ensures r.Ok? && r.tree.Node? ==> old(tokenIndex) < tokenIndex
      ensures old(currentToken).None? ==> r == Fail(Crash(NoCurrentToken))
      ensures old(currentToken).Some? && IsTypToken(old(currentToken).value) ==>
        r.Ok? && Inner(r.tree, NodeKind.Dec, 2) && tokenIndex == AfterVar(tokens, old(tokenIndex) + 1)
      ensures IsWord(old(currentToken), "arr") ==>
        r.Ok? && (r.tree.Nil? || Inner(r.tree, NodeKind.Dec, 4))
      ensures IsWord(old(currentToken), "arr") ==>
        (r.tree.Nil? <==> !Bracketed(tokens, AfterTyp(tokens, old(tokenIndex) + 1)))
      ensures (old(currentToken).Some? && !IsTypToken(old(currentToken).value)
               && !IsWord(old(currentToken), "arr")) ==> r == Fail(ParserError(old(tokenIndex)))
    {
      if currentToken.None? {
        return Fail(Crash(NoCurrentToken));
      }
      if IsWord(currentToken, "arr") {
        r := ArrDec();
      } else if IsTypToken(currentToken.value) {
        ghost var n0 := numNodes;
        var t := Typ();
        ghost var n1 := numNodes;
        var v := Var();
        ghost var n2 := numNodes;
        NextId();
        Stamp2(t.tree, v.tree, n0, n1, n2, numNodes, NodeKind.Dec);
        PlainDecShape(t.tree, v.tree, numNodes);
        return Ok(Node(numNodes, NodeKind.Dec, Children([t.tree, v.tree])));
      } else {
        r := Fail(ParserError(tokenIndex));
      }
    }

    /**
      * The `arr` form of `Dec`. It cannot fail: a missing `[` or `]` ends it
      * without a node, after the tokens read so far have been consumed.
      */
    method ArrDec() returns (r: Outcome)
      requires Valid() && IsWord(currentToken, "arr")
      modifies this
      ensures Valid() && old(tokenIndex) < tokenIndex
      ensures r.Ok? && Stamped(r.tree, old(numNodes), numNodes)
      ensures r.tree.Nil? || (Inner(r.tree, NodeKind.Dec, 4) && IsDec(r.tree))
      ensures r.tree.Nil? <==> !Bracketed(tokens, AfterTyp(tokens, old(tokenIndex) + 1))
    {
      ghost var n0 := numNodes;
      var k := Keyword();
      assert tokenIndex == old(tokenIndex) + 1 && IsKeywordLeaf(k.tree, "arr");
      ghost var n1 := numNodes;
      var t := Typ();
      ghost var n2 := numNodes;
      ghost var open := tokenIndex;
      assert open == AfterTyp(tokens, old(tokenIndex) + 1);
      var present, c, v, mid := ArrBounds();
      if present {
        ghost var n4 := numNodes;
        NextId();
        Stamp4(k.tree, t.tree, c, v, n0, n1, n2, mid, n4, numNodes, NodeKind.Dec);
        ArrDecShape(k.tree, t.tree, c, v, numNodes);
        return Ok(Node(numNodes, NodeKind.Dec, Children([k.tree, t.tree, c, v])));
      }
      return Ok(Nil);
    }

    /**
      * The bracketed part of an `arr` declaration, `[ Const ] Var`: present
      * exactly when both brackets are where they belong, and then the
      * constant and the variable are stamped one after the other.
      */
    method ArrBounds() returns (present: bool, c: Tree, v: Tree, ghost mid: int)
      requires Valid() && currentToken.Some?
      modifies this
      ensures Valid() && old(tokenIndex) <= tokenIndex && old(numNodes) <= numNodes
      ensures present <==> Bracketed(tokens, old(tokenIndex))
      ensures present ==>
        old(numNodes) <= mid <= numNodes
        && Stamped(c, old(numNodes), mid) && (c.Nil? || IsConstLeaf(c))
        && Stamped(v, mid, numNodes) && (v.Nil? || IsVarLeaf(v))
    {
      present, c, v, mid := false, Nil, Nil, numNodes;
      if Is(currentToken, LSquareBracket) {
        Advance();
        var cr := Const();
        mid := numNodes;
        assert tokenIndex == AfterConst(tokens, old(tokenIndex) + 1);
        if Is(currentToken, RSquareBracket) {
          Advance();
          var vr := Var();
          return true, cr.tree, vr.tree, mid;
        }
      }
    }

    /**
      * `Dec VarDecl` or nothing, decided on the current word alone. The
      * separating `;` is never consumed: the method recurses only while the
      * token after a `Dec` is a type word, and when it is not, the `Dec`
      * already parsed is dropped and None returned.
      */
    method VarDecl() returns (r: Outcome)
      requires Valid()
      modifies this
      ensures Valid() && old(tokenIndex) <= tokenIndex
      ensures r.Ok? ==> Stamped(r.tree, old(numNodes), numNodes) && (r.tree.Nil? || IsVarDecl(r.tree))
      ensures old(currentToken).None? ==> r == Fail(Crash(NoCurrentToken))
      ensures old(currentToken).Some? && !IsTypWord(old(currentToken).value.contents) ==>
        r == Ok(Nil) && tokenIndex == old(tokenIndex) && numNodes == old(numNodes)
      ensures (old(currentToken).Some? && IsTypWord(old(currentToken).value.contents)
               && old(currentToken).value.kind != TokenType.Keyword) ==>
        r == Fail(ParserError(old(tokenIndex)))
      ensures (old(currentToken).Some? && IsTypToken(old(currentToken).value) && r == Ok(Nil)) ==>
        old(tokenIndex) < tokenIndex && old(numNodes) < numNodes && !IsTypToken(currentToken.value)
      ensures (old(currentToken).Some? && IsTypToken(old(currentToken).value)) ==>
        (r == Ok(Nil) <==> !IsTypToken(Cursor(tokens, AfterVar(tokens, old(tokenIndex) + 1)).value))
      decreases |tokens| - tokenIndex
    {
      if currentToken.None? {
        return Fail(Crash(NoCurrentToken));
      }
      if !IsTypWord(currentToken.value.contents) {
        return Ok(Nil);
      }
      ghost var n0 := numNodes;
      var dec := Dec();
      if dec.Fail? {
        return dec;
      }
      ghost var n1 := numNodes;
      if IsTypToken(currentToken.value) {
        if tokenIndex >= |tokens| {
          // past the end the last token stays current, so every call sees the same type word again
          return Fail(Crash(RecursionLimit));
        }
        var rest := VarDecl();
        if rest.Fail? {
          return rest;
        }
        ghost var n2 := numNodes;
        NextId();
        Stamp2(dec.tree, rest.tree, n0, n1, n2, numNodes, NodeKind.VarDecl);
        VarDeclShape(dec.tree, rest.tree, numNodes);
        return Ok(Node(numNodes, NodeKind.VarDecl, Children([dec.tree, rest.tree])));
      }
      return Ok(Nil);
    }

    // -------------------------------------------------------------------------
    // Expressions

    /**
      * `BINOP ( Expr , Expr ]`: the closing bracket checked for is `]`, and
      * it is left unconsumed.
      */
    method BinOp() returns (r: Outcome)
      requires Valid()
      modifies this
      ensures Valid() && old(tokenIndex) <= tokenIndex
      ensures r.Ok? ==> Stamped(r.tree, old(numNodes), numNodes) && IsBinOp(r.tree)
      ensures r.Ok? ==> Is(currentToken, RSquareBracket)
      ensures old(currentToken).None? ==> r == Fail(Crash(NoCurrentToken))
      ensures (old(currentToken).Some? && !(old(currentToken).value.kind == TokenType.Keyword
               && IsBinopWord(old(currentToken).value.contents))) ==>
        r == Fail(ParserError(old(tokenIndex)))
    {
      if currentToken.None? {
        return Fail(Crash(NoCurrentToken));
      }
      if Is(currentToken, TokenType.Keyword) && IsBinopWord(currentToken.value.contents) {
        ghost var n0 := numNodes;
        var k := Keyword();
        ghost var n1 := numNodes;
        if Is(currentToken, LBracket) {
          Advance();
          var left := Expr();
          if left.Fail? {
            return left;
          }
          ghost var n2 := numNodes;
          if Is(currentToken, Comma) {
            Advance();
            var right := Expr();
            if right.Fail? {
              return right;
            }
            ghost var n3 := numNodes;
            if Is(currentToken, RSquareBracket) {
              NextId();
              Stamp3(k.tree, left.tree, right.tree, n0, n1, n2, n3, numNodes, NodeKind.BinOp);
              BinOpShape(k.tree, left.tree, right.tree, numNodes);
              return Ok(Node(numNodes, NodeKind.BinOp, Children([k.tree, left.tree, right.tree])));
            }
          }
        }
      }
      return Fail(ParserError(tokenIndex));
    }

    /**
      * `input ( Var` or `not ( Expr`; any other keyword gets no operand. The
      * closing `)` is not consumed.
      */
    method UnOp() returns (r: Outcome)
      requires Valid()
      modifies this
      ensures Valid() && old(tokenIndex) <= tokenIndex
      ensures r.Ok? ==> Stamped(r.tree, old(numNodes), numNodes) && IsUnOp(r.tree)
      ensures old(currentToken).None? ==> r == Fail(Crash(NoCurrentToken))
      ensures old(currentToken).Some? && !Is(old(currentToken), TokenType.Keyword) ==>
        r == Fail(ParserError(old(tokenIndex)))
    {
      if currentToken.None? {
        return Fail(Crash(NoCurrentToken));
      }
      if Is(currentToken, TokenType.Keyword) {
        var operator := currentToken.value.contents;
        ghost var n0 := numNodes;
        var k := Keyword();
        ghost var n1 := numNodes;
        if Is(currentToken, LBracket) {
          Advance();
          if operator == "input" {
            var v := Var();
            ghost var n2 := numNodes;
            NextId();
            Stamp2(k.tree, v.tree, n0, n1, n2, numNodes, NodeKind.UnOp);
            return Ok(Node(numNodes, NodeKind.UnOp, Children([k.tree, v.tree])));
          } else if operator == "not" {
            var e := Expr();
            if e.Fail? {
              return e;
            }
            ghost var n2 := numNodes;
            NextId();
            Stamp2(k.tree, e.tree, n0, n1, n2, numNodes, NodeKind.UnOp);
            return Ok(Node(numNodes, NodeKind.UnOp, Children([k.tree, e.tree])));
          }
          NextId();
          Stamp1(k.tree, n0, n1, numNodes, NodeKind.UnOp);
          return Ok(Node(numNodes, NodeKind.UnOp, Children([k.tree])));
        }
        return Fail(ParserError(tokenIndex));
      }
      return Fail(ParserError(tokenIndex));
    }

    /**
      * `name [ Var ]`, as written it never succeeds: after the name it
      * advances once more, past the `[`, and then demands a `[` again, where
      * `Var` then finds no name and the `]` check sees that same `[`.
      */
    method Field() returns (r: Outcome)
      requires Valid()
      modifies this
      ensures Valid() && old(tokenIndex) <= tokenIndex
      ensures r.Fail?
      ensures old(currentToken).None? ==> r == Fail(Crash(NoCurrentToken))
      ensures old(currentToken).Some? ==> r.failure.ParserError?
      ensures old(currentToken).Some? && !Is(old(currentToken), TokenType.UserDefinedName) ==>
        r == Fail(ParserError(old(tokenIndex)))
    {
      if currentToken.None? {
        return Fail(Crash(NoCurrentToken));
      }
      if Is(currentToken, TokenType.UserDefinedName) {
        NextId();
        var name := UserDefinedName();
        Advance();
        if Is(currentToken, LSquareBracket) {
          var v := Var();
          // `Var` returned None without moving: the current token is still `[`, not `]`
          return Fail(ParserError(tokenIndex));
        }
        return Fail(ParserError(tokenIndex));
      }
      return Fail(ParserError(tokenIndex));
    }

    /** `call`, then one token skipped unchecked, then a name. */
    method PCall() returns (r: Outcome)
      requires Valid()
      modifies this
      ensures Valid() && old(tokenIndex) <= tokenIndex
      ensures r.Ok? ==> Stamped(r.tree, old(numNodes), numNodes) && IsPCall(r.tree)
      ensures old(currentToken).None? ==> r == Fail(Crash(NoCurrentToken))
      ensures old(currentToken).Some? && !IsWord(old(currentToken), "call") ==>
        r == Fail(ParserError(old(tokenIndex)))
    {
      if currentToken.None? {
        return Fail(Crash(NoCurrentToken));
      }
      if IsWord(currentToken, "call") {
        ghost var n0 := numNodes;
        var k := Keyword();
        ghost var n1 := numNodes;
        Advance();
        if Is(currentToken, TokenType.UserDefinedName) {
          var v := Var();
          ghost var n2 := numNodes;
          NextId();
          Stamp2(k.tree, v.tree, n0, n1, n2, numNodes, NodeKind.PCall);
          return Ok(Node(numNodes, NodeKind.PCall, Children([k.tree, v.tree])));
        }
        return Fail(ParserError(tokenIndex));
      }
      return Fail(ParserError(tokenIndex));
    }

    /**
      * Const, then Var, then Field; the first result that is not None becomes
      * the only child of a new Expr node. Field never returns, so the UnOp and
      * BinOp alternatives after it are never tried.
      */
    method Expr() returns (r: Outcome)
      requires Valid()
      modifies this
      ensures Valid() && old(tokenIndex) <= tokenIndex
      ensures r.Ok? ==> Stamped(r.tree, old(numNodes), numNodes) && IsExpr(r.tree)
      ensures old(currentToken).None? ==> r == Fail(Crash(NoCurrentToken))
      ensures old(currentToken).Some? && IsConstToken(old(currentToken).value) ==>
        r == Ok(Node(old(numNodes) + 2, NodeKind.Expr,
                     Children([Node(old(numNodes) + 1, NodeKind.Typ, Leaf(old(currentToken).value))])))
        && tokenIndex == old(tokenIndex) + 1 && numNodes == old(numNodes) + 2
      ensures Is(old(currentToken), TokenType.UserDefinedName) ==>
        r == Ok(Node(old(numNodes) + 2, NodeKind.Expr,
                     Children([Node(old(numNodes) + 1, NodeKind.Var, Leaf(old(currentToken).value))])))
        && tokenIndex == old(tokenIndex) + 1 && numNodes == old(numNodes) + 2
      ensures (old(currentToken).Some? && !IsConstToken(old(currentToken).value)
               && !Is(old(currentToken), TokenType.UserDefinedName)) ==>
        r == Fail(ParserError(old(tokenIndex)))
    {
      ghost var n0 := numNodes;
      var c := Const();
      if c.Fail? {
        return c;
      }
      if c.tree.Node? {
        ghost var n1 := numNodes;
        NextId();
        Stamp1(c.tree, n0, n1, numNodes, NodeKind.Expr);
        return Ok(Node(numNodes, NodeKind.Expr, Children([c.tree])));
      }
      var v := Var();
      if v.tree.Node? {
        ghost var n1 := numNodes;
        NextId();
        Stamp1(v.tree, n0, n1, numNodes, NodeKind.Expr);
        return Ok(Node(numNodes, NodeKind.Expr, Children([v.tree])));
      }
      r := Field();
    }

    // -------------------------------------------------------------------------
    // Instructions

    /**
      * `output`, or a name. A name is followed by a peek at the next token:
      * `[` there means a Field, otherwise a Var.
      */
    method Lhs() returns (r: Outcome)
      requires Valid()
      modifies this
      ensures Valid() && old(tokenIndex) <= tokenIndex
      ensures r.Ok? ==> Stamped(r.tree, old(numNodes), numNodes) && IsLhs(r.tree)
      ensures old(currentToken).None? ==> r == Fail(Crash(NoCurrentToken))
      ensures Is(old(currentToken), TokenType.UserDefinedName) && old(tokenIndex) + 1 >= |tokens| ==>
        r == Fail(Crash(IndexOutOfRange))
      ensures (Is(old(currentToken), TokenType.UserDefinedName) && old(tokenIndex) + 1 < |tokens|
               && tokens[old(tokenIndex) + 1].kind == LSquareBracket) ==> r.Fail?
      ensures (Is(old(currentToken), TokenType.UserDefinedName) && old(tokenIndex) + 1 < |tokens|
               && tokens[old(tokenIndex) + 1].kind != LSquareBracket) ==>
        r == Ok(Node(old(numNodes) + 2, NodeKind.Lhs,
                     Children([Node(old(numNodes) + 1, NodeKind.Var, Leaf(old(currentToken).value))])))
      ensures (old(currentToken).Some? && !Is(old(currentToken), TokenType.UserDefinedName)
               && !IsWord(old(currentToken), "output")) ==> r == Fail(ParserError(old(tokenIndex)))
    {
      if currentToken.None? {
        return Fail(Crash(NoCurrentToken));
      }
      var token := currentToken.value;
      if token.kind == TokenType.Keyword && token.contents == "output" {
        NextId();
        Advance();
        return Ok(Node(numNodes, NodeKind.Lhs, Leaf(token)));
      } else if token.kind == TokenType.UserDefinedName {
        if tokenIndex + 1 >= |tokens| {
          return Fail(Crash(IndexOutOfRange));
        }
        if tokens[tokenIndex + 1].kind == LSquareBracket {
          r := Field();
          return;
        }
        ghost var n0 := numNodes;
        var v := Var();
        ghost var n1 := numNodes;
        NextId();
        Stamp1(v.tree, n0, n1, numNodes, NodeKind.Lhs);
        return Ok(Node(numNodes, NodeKind.Lhs, Children([v.tree])));
      }
      return Fail(ParserError(tokenIndex));
    }

    /**
      * `do { Algorithm } until ) Expr (` or `while ( Expr ) do { Algorithm }`,
      * chosen on the first keyword; the two forms are `DoLoop` and `WhileLoop`.
      */
    method Loop() returns (r: Outcome)
      requires Valid()
      modifies this
      ensures Valid() && old(tokenIndex) <= tokenIndex
      ensures r.Ok? ==> Stamped(r.tree, old(numNodes), numNodes) && IsLoop(r.tree)
      ensures r.Ok? && IsWord(old(currentToken), "do") ==> Is(currentToken, LBracket) && IsDoLoop(r.tree)
      ensures r.Ok? && IsWord(old(currentToken), "while") ==> Is(currentToken, RBrace) && IsWhileLoop(r.tree)
      ensures old(currentToken).None? ==> r == Fail(Crash(NoCurrentToken))
      ensures (old(currentToken).Some? && !IsWord(old(currentToken), "do")
               && !IsWord(old(currentToken), "while")) ==> r == Fail(ParserError(old(tokenIndex)))
    {
      if currentToken.None? {
        return Fail(Crash(NoCurrentToken));
      }
      if IsWord(currentToken, "do") {
        r := DoLoop();
      } else if IsWord(currentToken, "while") {
        r := WhileLoop();
      } else {
        r := Fail(ParserError(tokenIndex));
      }
    }

    /**
      * The first form of `Loop`: the brackets around the condition are
      * expected the wrong way round, `) Expr (`, and the last one is not
      * consumed.
      */
    method DoLoop() returns (r: Outcome)
      requires Valid() && IsWord(currentToken, "do")
      modifies this
      ensures Valid() && old(tokenIndex) <= tokenIndex
      ensures r.Ok? ==> Stamped(r.tree, old(numNodes), numNodes) && IsDoLoop(r.tree)
      ensures r.Ok? ==> Is(currentToken, LBracket)
    {
      ghost var n0 := numNodes;
      var k := Keyword();
      ghost var n1 := numNodes;
      if Is(currentToken, LBrace) {
        Advance();
        var body := Algorithm();
        if body.Fail? {
          return body;
        }
        ghost var n2 := numNodes;
        if Is(currentToken, RBrace) {
          Advance();
          if IsWord(currentToken, "until") {
            var until := Keyword();
            ghost var n3 := numNodes;
            if Is(currentToken, RBracket) {
              Advance();
              var cond := Expr();
              if cond.Fail? {
                return cond;
              }
              ghost var n4 := numNodes;
              if Is(currentToken, LBracket) {
                NextId();
                Stamp4(k.tree, body.tree, until.tree, cond.tree, n0, n1, n2, n3, n4, numNodes, NodeKind.Loop);
                DoLoopShape(k.tree, body.tree, until.tree, cond.tree, numNodes);
                return Ok(Node(numNodes, NodeKind.Loop, Children([k.tree, body.tree, until.tree, cond.tree])));
              }
            }
          }
        }
      }
      return Fail(ParserError(tokenIndex));
    }

    /** The second form of `Loop`, with the closing `}` not consumed. */
    method WhileLoop() returns (r: Outcome)
      requires Valid() && IsWord(currentToken, "while")
      modifies this
      ensures Valid() && old(tokenIndex) <= tokenIndex
      ensures r.Ok? ==> Stamped(r.tree, old(numNodes), numNodes) && IsWhileLoop(r.tree)
      ensures r.Ok? ==> Is(currentToken, RBrace)
    {
      ghost var n0 := numNodes;
      var k := Keyword();
      ghost var n1 := numNodes;
      if Is(currentToken, LBracket) {
        Advance();
        var cond := Expr();
        if cond.Fail? {
          return cond;
        }
        ghost var n2 := numNodes;
        if Is(currentToken, RBracket) {
          Advance();
          if IsWord(currentToken, "do") {
            var doWord := Keyword();
            ghost var n3 := numNodes;
            if Is(currentToken, LBrace) {
              Advance();
              var body := Algorithm();
              if body.Fail? {
                return body;
              }
              ghost var n4 := numNodes;
              if Is(currentToken, RBrace) {
                NextId();
                Stamp4(k.tree, cond.tree, doWord.tree, body.tree, n0, n1, n2, n3, n4, numNodes, NodeKind.Loop);
                WhileLoopShape(k.tree, cond.tree, doWord.tree, body.tree, numNodes);
                return Ok(Node(numNodes, NodeKind.Loop, Children([k.tree, cond.tree, doWord.tree, body.tree])));
              }
            }
          }
        }
      }
      return Fail(ParserError(tokenIndex));
    }

    /** `else { Algorithm }` with the `}` not consumed, or nothing. */
    method Alternat() returns (r: Outcome)
      requires Valid()
      modifies this
      ensures Valid() && old(tokenIndex) <= tokenIndex
      ensures r.Ok? ==> Stamped(r.tree, old(numNodes), numNodes) && (r.tree.Nil? || IsAlternat(r.tree))
      ensures r.Ok? && r.tree.Node? ==> Is(currentToken, RBrace)
      ensures old(currentToken).None? ==> r == Fail(Crash(NoCurrentToken))
      ensures old(currentToken).Some? && !IsWord(old(currentToken), "else") ==>
        r == Ok(Nil) && tokenIndex == old(tokenIndex) && numNodes == old(numNodes)
    {
      if currentToken.None? {
        return Fail(Crash(NoCurrentToken));
      }
      if IsWord(currentToken, "else") {
        ghost var n0 := numNodes;
        var k := Keyword();
        ghost var n1 := numNodes;
        if Is(currentToken, LBrace) {
          Advance();
          var body := Algorithm();
          if body.Fail? {
            return body;
          }
          ghost var n2 := numNodes;
          if Is(currentToken, RBrace) {
            NextId();
            Stamp2(k.tree, body.tree, n0, n1, n2, numNodes, NodeKind.Alternat);
            return Ok(Node(numNodes, NodeKind.Alternat, Children([k.tree, body.tree])));
          }
        }
        return Fail(ParserError(tokenIndex));
      }
      return Ok(Nil);
    }

    /**
      * `if ( ) then { Algorithm } Alternat`: the condition is not parsed, and
      * whatever has been consumed the method ends in a parser error.
      */
    method Branch() returns (r: Outcome)
      requires Valid()
      modifies this
      ensures Valid() && old(tokenIndex) <= tokenIndex
      ensures r.Fail?
      ensures old(currentToken).None? ==> r == Fail(Crash(NoCurrentToken))
    {
      if currentToken.None? {
        return Fail(Crash(NoCurrentToken));
      }
      if IsWord(currentToken, "if") {
        var k := Keyword();
        if Is(currentToken, LBracket) {
          Advance();
          if Is(currentToken, RBracket) {
            Advance();
            if IsWord(currentToken, "then") {
              var thenWord := Keyword();
              if Is(currentToken, LBrace) {
                Advance();
                var body := Algorithm();
                if body.Fail? {
                  return body;
                }
                if Is(currentToken, RBrace) {
                  Advance();
                  var alternative := Alternat();
                  if alternative.Fail? {
                    return alternative;
                  }
                }
              }
            }
          }
        }
      }
      return Fail(ParserError(tokenIndex));
    }

    /** `LHS := Expr`. */
    method Assign() returns (r: Outcome)
      requires Valid()
      modifies this
      ensures Valid() && old(tokenIndex) <= tokenIndex
      ensures r.Ok? ==> Stamped(r.tree, old(numNodes), numNodes) && IsAssign(r.tree)
      ensures old(currentToken).None? ==> r == Fail(Crash(NoCurrentToken))
    {
      ghost var n0 := numNodes;
      var lhs := Lhs();
      if lhs.Fail? {
        return lhs;
      }
      ghost var n1 := numNodes;
      if Is(currentToken, AssignmentOperator) {
        Advance();
        var e := Expr();
        if e.Fail? {
          return e;
        }
        ghost var n2 := numNodes;
        NextId();
        Stamp2(lhs.tree, e.tree, n0, n1, n2, numNodes, NodeKind.Assignment);
        return Ok(Node(numNodes, NodeKind.Assignment, Children([lhs.tree, e.tree])));
      }
      return Fail(ParserError(tokenIndex));
    }

    /** An assignment, a branch, a loop or a procedure call, chosen on the current token. */
    method Instr() returns (r: Outcome)
      requires Valid()
      modifies this
      ensures Valid() && old(tokenIndex) <= tokenIndex
      ensures r.Ok? ==> Stamped(r.tree, old(numNodes), numNodes) && IsInstr(r.tree)
      ensures old(currentToken).None? ==> r == Fail(Crash(NoCurrentToken))
      ensures IsWord(old(currentToken), "if") ==> r.Fail?
      ensures (old(currentToken).Some? && !Is(old(currentToken), TokenType.UserDefinedName)
               && !(Is(old(currentToken), TokenType.Keyword)
                    && old(currentToken).value.contents in ["output", "if", "do", "loop", "call"])) ==>
        r == Fail(ParserError(old(tokenIndex)))
    {
      if currentToken.None? {
        return Fail(Crash(NoCurrentToken));
      }
      ghost var n0 := numNodes;
      if Is(currentToken, TokenType.UserDefinedName) || IsWord(currentToken, "output") {
        var a := Assign();
        if a.Fail? {
          return a;
        }
        ghost var n1 := numNodes;
        NextId();
        Stamp1(a.tree, n0, n1, numNodes, NodeKind.Instruction);
        return Ok(Node(numNodes, NodeKind.Instruction, Children([a.tree])));
      } else if IsWord(currentToken, "if") {
        // Branch never returns normally
        r := Branch();
        return;
      } else if IsWord(currentToken, "do") || IsWord(currentToken, "loop") {
        var l := Loop();
        if l.Fail? {
          return l;
        }
        ghost var n1 := numNodes;
        NextId();
        Stamp1(l.tree, n0, n1, numNodes, NodeKind.Instruction);
        return Ok(Node(numNodes, NodeKind.Instruction, Children([l.tree])));
      } else if IsWord(currentToken, "call") {
        var p := PCall();
        if p.Fail? {
          return p;
        }
        ghost var n1 := numNodes;
        NextId();
        Stamp1(p.tree, n0, n1, numNodes, NodeKind.Instruction);
        return Ok(Node(numNodes, NodeKind.Instruction, Children([p.tree])));
      }
      return Fail(ParserError(tokenIndex));
    }

    /**
      * A keyword that starts an instruction makes the method call `Node`
      * with a missing argument, which raises before `Instr` is reached; any
      * other keyword gives None; anything else is parsed as an assignment.
      */
    method Algorithm() returns (r: Outcome)
      requires Valid()
      modifies this
      ensures Valid() && old(tokenIndex) <= tokenIndex
      ensures r.Ok? ==> Stamped(r.tree, old(numNodes), numNodes) && (r.tree.Nil? || IsAlgorithm(r.tree))
      ensures old(currentToken).None? ==> r == Fail(Crash(NoCurrentToken))
      ensures Is(old(currentToken), TokenType.Keyword) && IsInstrWord(old(currentToken).value.contents) ==>
        r == Fail(Crash(BadNodeCall))
      ensures Is(old(currentToken), TokenType.Keyword) && !IsInstrWord(old(currentToken).value.contents) ==>
        r == Ok(Nil) && tokenIndex == old(tokenIndex) && numNodes == old(numNodes)
    {
      if currentToken.None? {
        return Fail(Crash(NoCurrentToken));
      }
      if Is(currentToken, TokenType.Keyword) {
        if IsInstrWord(currentToken.value.contents) {
          return Fail(Crash(BadNodeCall));
        }
        return Ok(Nil);
      }
      ghost var n0 := numNodes;
      var a := Assign();
      if a.Fail? {
        return a;
      }
      ghost var n1 := numNodes;
      NextId();
      Stamp1(a.tree, n0, n1, numNodes, NodeKind.Algorithm);
      return Ok(Node(numNodes, NodeKind.Algorithm, Children([a.tree])));
    }

    // -------------------------------------------------------------------------
    // Procedures and the program

    /** `proc name { ProcDefs Algorithm return ; VarDecl }`. */
    method PD() returns (r: Outcome)
      requires Valid()
      modifies this
      ensures Valid() && old(tokenIndex) <= tokenIndex
      ensures r.Ok? ==> Stamped(r.tree, old(numNodes), numNodes) && IsPD(r.tree)
      ensures r.Ok? ==> old(tokenIndex) < tokenIndex && old(numNodes) < numNodes
      ensures old(currentToken).None? ==> r == Fail(Crash(NoCurrentToken))
      ensures old(currentToken).Some? && !IsWord(old(currentToken), "proc") ==>
        r == Fail(ParserError(old(tokenIndex)))
      decreases |tokens| - tokenIndex, 0
    {
      if currentToken.None? {
        return Fail(Crash(NoCurrentToken));
      }
      ghost var n0 := numNodes;
      if IsWord(currentToken, "proc") {
        var k := Keyword();
        ghost var n1 := numNodes;
        if Is(currentToken, TokenType.UserDefinedName) {
          var name := Var();
          ghost var n2 := numNodes;
          if Is(currentToken, LBrace) {
            Advance();
            var inner := ProcDefs();
            if inner.Fail? {
              return inner;
            }
            ghost var n3 := numNodes;
            var body := Algorithm();
            if body.Fail? {
              return body;
            }
            ghost var n4 := numNodes;
            var failure, ret, decls, n5 := ProcEnd();
            if failure.Some? {
              return Fail(failure.value);
            }
            ghost var n6 := numNodes;
            NextId();
            var cs := [k.tree, name.tree, inner.tree, body.tree, ret, decls];
            Stamp6(k.tree, name.tree, inner.tree, body.tree, ret, decls, n0, n1, n2, n3, n4, n5, n6, numNodes, NodeKind.PD);
            PDShape(k.tree, name.tree, inner.tree, body.tree, ret, decls, numNodes);
            return Ok(Node(numNodes, NodeKind.PD, Children(cs)));
          }
        }
      }
      return Fail(ParserError(tokenIndex));
    }

    /**
      * The end of `PD`, `return ; VarDecl }`: on success `ret` and `decls`
      * are stamped one after the other, the `return` keyword up to `mid` and
      * the declarations from there.
      */
    method ProcEnd() returns (failure: Option<Failure>, ret: Tree, decls: Tree, ghost mid: int)
      requires Valid()
      modifies this
      ensures Valid() && old(tokenIndex) <= tokenIndex
      ensures failure.None? ==>
        old(tokenIndex) < tokenIndex && old(numNodes) <= mid <= numNodes
        && Stamped(ret, old(numNodes), mid) && IsKeywordLeaf(ret, "return")
        && Stamped(decls, mid, numNodes) && (decls.Nil? || IsVarDecl(decls))
    {
      ret, decls, mid := Nil, Nil, numNodes;
      if IsWord(currentToken, "return") {
        var k := Keyword();
        mid := numNodes;
        if Is(currentToken, Semicolon) {
          Advance();
          var v := VarDecl();
          if v.Fail? {
            return Some(v.failure), ret, decls, mid;
          }
          if Is(currentToken, RBrace) {
            Advance();
            return None, k.tree, v.tree, mid;
          }
        }
      }
      return Some(ParserError(tokenIndex)), ret, decls, mid;
    }

    /**
      * `PD , ProcDefs`, `PD`, or nothing when the token under the index is
      * not `proc`. The single-`PD` form takes no fresh id: the node gets the
      * current count, which is its `PD` child's id.
      */
    method ProcDefs() returns (r: Outcome)
      requires Valid()
      modifies this
      ensures Valid() && old(tokenIndex) <= tokenIndex
      ensures r.Ok? ==> Stamped(r.tree, old(numNodes), numNodes) && (r.tree.Nil? || IsProcDefs(r.tree))
      ensures old(tokenIndex) >= |tokens| ==> r == Fail(Crash(IndexOutOfRange))
      ensures old(tokenIndex) < |tokens| && !IsWord(Some(tokens[old(tokenIndex)]), "proc") ==>
        r == Ok(Nil) && tokenIndex == old(tokenIndex) && numNodes == old(numNodes)
      decreases |tokens| - tokenIndex, 1
    {
      if tokenIndex >= |tokens| {
        return Fail(Crash(IndexOutOfRange));
      }
      if !IsWord(Some(tokens[tokenIndex]), "proc") {
        return Ok(Nil);
      }
      ghost var n0 := numNodes;
      var pd := PD();
      if pd.Fail? {
        return pd;
      }
      ghost var n1 := numNodes;
      if Is(currentToken, Comma) {
        Advance();
        var rest := ProcDefs();
        if rest.Fail? {
          return rest;
        }
        ghost var n2 := numNodes;
        NextId();
        Stamp2(pd.tree, rest.tree, n0, n1, n2, numNodes, NodeKind.ProcDefs);
        ProcDefsShape(pd.tree, rest.tree, numNodes);
        return Ok(Node(numNodes, NodeKind.ProcDefs, Children([pd.tree, rest.tree])));
      }
      Stamp1(pd.tree, n0, n1, numNodes, NodeKind.ProcDefs);
      ProcDefsShape(pd.tree, Nil, numNodes);
      return Ok(Node(numNodes, NodeKind.ProcDefs, Children([pd.tree])));
    }

    /**
      * `ProcDefs main { Algorithm halt ; VarDecl }` with the final `}` not
      * consumed.
      */
    method SplProgr() returns (r: Outcome)
      requires Valid()
      modifies this
      ensures Valid() && old(tokenIndex) <= tokenIndex
      ensures r.Ok? ==> Stamped(r.tree, old(numNodes), numNodes) && IsProgram(r.tree)
      ensures r.Ok? ==> Is(currentToken, RBrace)
      ensures old(tokenIndex) >= |tokens| ==> r == Fail(Crash(IndexOutOfRange))
    {
      ghost var n0 := numNodes;
      var procs := ProcDefs();
      if procs.Fail? {
        return procs;
      }
      ghost var n1 := numNodes;
      if IsWord(currentToken, "main") {
        var main := Keyword();
        ghost var n2 := numNodes;
        if Is(currentToken, LBrace) {
          Advance();
          var body := Algorithm();
          if body.Fail? {
            return body;
          }
          ghost var n3 := numNodes;
          if IsWord(currentToken, "halt") {
            var halt := Keyword();
            ghost var n4 := numNodes;
            if Is(currentToken, Semicolon) {
              Advance();
              var decls := VarDecl();
              if decls.Fail? {
                return decls;
              }
              ghost var n5 := numNodes;
              if Is(currentToken, RBrace) {
                NextId();
                var cs := [procs.tree, main.tree, body.tree, halt.tree, decls.tree];
                Stamp5(procs.tree, main.tree, body.tree, halt.tree, decls.tree, n0, n1, n2, n3, n4, n5, numNodes, NodeKind.SplProgram);
                ProgramShape(procs.tree, main.tree, body.tree, halt.tree, decls.tree, numNodes);
                return Ok(Node(numNodes, NodeKind.SplProgram, Children(cs)));
              }
            }
          }
        }
      }
      return Fail(ParserError(tokenIndex));
    }
  }

  /** `Parser(tokens).run_parser()`. */
  method Parse(tokens: seq<Token>) returns (r: Outcome)
    ensures r.Ok? ==> IsProgram(r.tree) && Stamped(r.tree, 0, r.tree.id)
    ensures |tokens| == 0 ==> r == Fail(Crash(IndexOutOfRange))
  {
    var p := new Parser(tokens);
    r := p.SplProgr();
  }
}
