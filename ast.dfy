/**
  * The parse tree of Code/spl.py:201-244. A `Node` carries the id stamped by
  * the parser's node counter, its node class and either a token (a leaf) or a
  * list of children; a child the parser appended as Python's `None` is `Nil`.
  *
  * Besides the data model this module states the two facts every parser
  * production promises about the trees it returns: their shape
  * (`IsProgram` and the predicates below it) and the way ids are stamped
  * (`Stamped`).
  */
module Ast {
  import opened Lexing

  /** The `NT_*` node classes. `Const` is declared but the parser stamps constants `Typ`. */
  datatype NodeKind =
    | SplProgram | ProcDefs | Algorithm | Alternat | Typ | Var | Const | Lhs | Loop
    | Expr | PCall | Field | UnOp | BinOp | Dec | VarDecl | Keyword | UserDefinedName
    | PD | Instruction | Assignment | Branch

  datatype Contents = Leaf(token: Token) | Children(children: seq<Tree>)

  datatype Tree = Nil | Node(id: int, kind: NodeKind, contents: Contents)

  /** `w in TYP_WORDS`, written out by word length. */
  predicate IsTypWord(w: string) {
    match |w|
    case 3 => w == "num"
    case 4 => w == "bool"
    case 6 => w == "string"
    case _ => false
  }

  /** `w in BINOP_WORDS`, written out by word length. */
  predicate IsBinopWord(w: string) {
    match |w|
    case 2 => w == "or" || w == "eq"
    case 3 => w == "and" || w == "add" || w == "sub"
    case 4 => w == "mult"
    case 6 => w == "larger"
    case _ => false
  }

  /** `w in BOOLEAN_WORDS`. */
  predicate IsBooleanWord(w: string) {
    w == "true" || w == "false"
  }

  /** `Node.has_children`: the contents are a list rather than a token. */
  predicate HasChildren(t: Tree)
    requires t.Node?
  {
    t.contents.Children?
  }

  // ---------------------------------------------------------------------------
  // Tokens the productions accept

  predicate IsTypToken(tok: Token) {
    tok.kind == TokenType.Keyword && IsTypWord(tok.contents)
  }

  predicate IsConstToken(tok: Token) {
    tok.kind == TokenType.Number || tok.kind == TokenType.ShortString
    || (tok.kind == TokenType.Keyword && IsBooleanWord(tok.contents))
  }

  // ---------------------------------------------------------------------------
  // Shapes of the trees the productions build

  predicate LeafOf(t: Tree, k: NodeKind) {
    t.Node? && t.kind == k && t.contents.Leaf?
  }

  /** A node of class `k` with exactly `n` children. */
  predicate Inner(t: Tree, k: NodeKind, n: nat) {
    t.Node? && t.kind == k && t.contents.Children? && |t.contents.children| == n
  }

  predicate IsKeywordLeaf(t: Tree, w: string) {
    LeafOf(t, NodeKind.Keyword) && t.contents.token.kind == TokenType.Keyword
    && t.contents.token.contents == w
  }

  predicate IsTypLeaf(t: Tree) {
    LeafOf(t, Typ) && IsTypToken(t.contents.token)
  }

  /** A constant: note the node class `Typ`, not `Const`. */
  predicate IsConstLeaf(t: Tree) {
    LeafOf(t, Typ) && IsConstToken(t.contents.token)
  }

  predicate IsVarLeaf(t: Tree) {
    LeafOf(t, Var) && t.contents.token.kind == TokenType.UserDefinedName
  }

  predicate IsDec(t: Tree) {
    (Inner(t, Dec, 4) && IsKeywordLeaf(t.contents.children[0], "arr")
     && (t.contents.children[1].Nil? || IsTypLeaf(t.contents.children[1]))
     && (t.contents.children[2].Nil? || IsConstLeaf(t.contents.children[2]))
     && (t.contents.children[3].Nil? || IsVarLeaf(t.contents.children[3])))
    || (Inner(t, Dec, 2) && IsTypLeaf(t.contents.children[0])
        && (t.contents.children[1].Nil? || IsVarLeaf(t.contents.children[1])))
  }

  predicate IsVarDecl(t: Tree)
    decreases t
  {
    Inner(t, VarDecl, 2) && IsDec(t.contents.children[0])
    && (t.contents.children[1].Nil? || IsVarDecl(t.contents.children[1]))
  }

  /** Only constants and variables: the other alternatives never return a node. */
  predicate IsExpr(t: Tree) {
    Inner(t, Expr, 1) && (IsConstLeaf(t.contents.children[0]) || IsVarLeaf(t.contents.children[0]))
  }

  predicate IsUnOp(t: Tree) {
    t.Node? && t.kind == UnOp && t.contents.Children? && |t.contents.children| >= 1
    && LeafOf(t.contents.children[0], NodeKind.Keyword)
    && t.contents.children[0].contents.token.kind == TokenType.Keyword
    && var w := t.contents.children[0].contents.token.contents;
    if w == "input" then
      |t.contents.children| == 2 && (t.contents.children[1].Nil? || IsVarLeaf(t.contents.children[1]))
    else if w == "not" then
      |t.contents.children| == 2 && IsExpr(t.contents.children[1])
    else
      |t.contents.children| == 1
  }

  predicate IsBinOp(t: Tree) {
    Inner(t, BinOp, 3) && LeafOf(t.contents.children[0], NodeKind.Keyword)
    && t.contents.children[0].contents.token.kind == TokenType.Keyword
    && IsBinopWord(t.contents.children[0].contents.token.contents)
    && IsExpr(t.contents.children[1]) && IsExpr(t.contents.children[2])
  }

  predicate IsPCall(t: Tree) {
    Inner(t, PCall, 2) && IsKeywordLeaf(t.contents.children[0], "call")
    && IsVarLeaf(t.contents.children[1])
  }

  /** `output` is kept as the token itself; a variable as a one-child node. */
  predicate IsLhs(t: Tree) {
    (LeafOf(t, Lhs) && t.contents.token.kind == TokenType.Keyword
     && t.contents.token.contents == "output")
    || (Inner(t, Lhs, 1) && IsVarLeaf(t.contents.children[0]))
  }

  predicate IsAssign(t: Tree) {
    Inner(t, Assignment, 2) && IsLhs(t.contents.children[0]) && IsExpr(t.contents.children[1])
  }

  /** Only the assignment form: the instruction forms crash before they are built. */
  predicate IsAlgorithm(t: Tree) {
    Inner(t, Algorithm, 1) && IsAssign(t.contents.children[0])
  }

  predicate IsLoop(t: Tree) {
    IsDoLoop(t) || IsWhileLoop(t)
  }

  predicate IsDoLoop(t: Tree) {
    Inner(t, Loop, 4) && IsKeywordLeaf(t.contents.children[0], "do")
    && (t.contents.children[1].Nil? || IsAlgorithm(t.contents.children[1]))
    && IsKeywordLeaf(t.contents.children[2], "until") && IsExpr(t.contents.children[3])
  }

  predicate IsWhileLoop(t: Tree) {
    Inner(t, Loop, 4) && IsKeywordLeaf(t.contents.children[0], "while")
    && IsExpr(t.contents.children[1]) && IsKeywordLeaf(t.contents.children[2], "do")
    && (t.contents.children[3].Nil? || IsAlgorithm(t.contents.children[3]))
  }

  predicate IsAlternat(t: Tree) {
    Inner(t, Alternat, 2) && IsKeywordLeaf(t.contents.children[0], "else")
    && (t.contents.children[1].Nil? || IsAlgorithm(t.contents.children[1]))
  }

  predicate IsInstr(t: Tree) {
    Inner(t, Instruction, 1)
    && (IsAssign(t.contents.children[0]) || IsLoop(t.contents.children[0])
        || IsPCall(t.contents.children[0]))
  }

  predicate IsPD(t: Tree)
    decreases t
  {
    Inner(t, PD, 6) && IsKeywordLeaf(t.contents.children[0], "proc")
    && IsVarLeaf(t.contents.children[1])
    && (t.contents.children[2].Nil? || IsProcDefs(t.contents.children[2]))
    && (t.contents.children[3].Nil? || IsAlgorithm(t.contents.children[3]))
    && IsKeywordLeaf(t.contents.children[4], "return")
    && (t.contents.children[5].Nil? || IsVarDecl(t.contents.children[5]))
  }

  predicate IsProcDefs(t: Tree)
    decreases t
  {
    (Inner(t, ProcDefs, 2) && IsPD(t.contents.children[0])
     && (t.contents.children[1].Nil? || IsProcDefs(t.contents.children[1])))
    || (Inner(t, ProcDefs, 1) && IsPD(t.contents.children[0]))
  }

  predicate IsProgram(t: Tree) {
    Inner(t, SplProgram, 5)
    && (t.contents.children[0].Nil? || IsProcDefs(t.contents.children[0]))
    && IsKeywordLeaf(t.contents.children[1], "main")
    && (t.contents.children[2].Nil? || IsAlgorithm(t.contents.children[2]))
    && IsKeywordLeaf(t.contents.children[3], "halt")
    && (t.contents.children[4].Nil? || IsVarDecl(t.contents.children[4]))
  }

  /** The four-part `arr` declaration, any of whose last three parts may be missing. */
  lemma {:induction false} ArrDecShape(k: Tree, t: Tree, c: Tree, v: Tree, id: int)
    requires IsKeywordLeaf(k, "arr") && (t.Nil? || IsTypLeaf(t))
    requires (c.Nil? || IsConstLeaf(c)) && (v.Nil? || IsVarLeaf(v))
    ensures IsDec(Node(id, Dec, Children([k, t, c, v])))
  {
  }

  lemma {:induction false} PlainDecShape(t: Tree, v: Tree, id: int)
    requires IsTypLeaf(t) && (v.Nil? || IsVarLeaf(v))
    ensures IsDec(Node(id, Dec, Children([t, v])))
  {
  }

  lemma {:induction false} DoLoopShape(k: Tree, body: Tree, until: Tree, cond: Tree, id: int)
    requires IsKeywordLeaf(k, "do") && (body.Nil? || IsAlgorithm(body))
    requires IsKeywordLeaf(until, "until") && IsExpr(cond)
    ensures IsDoLoop(Node(id, Loop, Children([k, body, until, cond])))
  {
  }

  lemma {:induction false} WhileLoopShape(k: Tree, cond: Tree, doWord: Tree, body: Tree, id: int)
    requires IsKeywordLeaf(k, "while") && IsExpr(cond)
    requires IsKeywordLeaf(doWord, "do") && (body.Nil? || IsAlgorithm(body))
    ensures IsWhileLoop(Node(id, Loop, Children([k, cond, doWord, body])))
  {
  }

  lemma {:induction false} PDShape(k: Tree, name: Tree, inner: Tree, body: Tree, ret: Tree, decls: Tree, id: int)
    requires IsKeywordLeaf(k, "proc") && IsVarLeaf(name)
    requires (inner.Nil? || IsProcDefs(inner)) && (body.Nil? || IsAlgorithm(body))
    requires IsKeywordLeaf(ret, "return") && (decls.Nil? || IsVarDecl(decls))
    ensures IsPD(Node(id, PD, Children([k, name, inner, body, ret, decls])))
  {
  }

  lemma {:induction false} VarDeclShape(dec: Tree, rest: Tree, id: int)
    requires IsDec(dec) && (rest.Nil? || IsVarDecl(rest))
    ensures IsVarDecl(Node(id, VarDecl, Children([dec, rest])))
  {
  }

  lemma {:induction false} ProcDefsShape(pd: Tree, rest: Tree, id: int)
    requires IsPD(pd) && (rest.Nil? || IsProcDefs(rest))
    ensures IsProcDefs(Node(id, ProcDefs, Children([pd, rest])))
    ensures IsProcDefs(Node(id, ProcDefs, Children([pd])))
  {
  }

  lemma {:induction false} ProgramShape(procs: Tree, main: Tree, body: Tree, halt: Tree, decls: Tree, id: int)
    requires (procs.Nil? || IsProcDefs(procs)) && IsKeywordLeaf(main, "main")
    requires (body.Nil? || IsAlgorithm(body)) && IsKeywordLeaf(halt, "halt")
    requires decls.Nil? || IsVarDecl(decls)
    ensures IsProgram(Node(id, SplProgram, Children([procs, main, body, halt, decls])))
  {
  }

  lemma {:induction false} BinOpShape(k: Tree, left: Tree, right: Tree, id: int)
    requires LeafOf(k, NodeKind.Keyword) && k.contents.token.kind == TokenType.Keyword
    requires IsBinopWord(k.contents.token.contents) && IsExpr(left) && IsExpr(right)
    ensures IsBinOp(Node(id, BinOp, Children([k, left, right])))
  {
  }

  // ---------------------------------------------------------------------------
  // Id stamping

  /** The ids of a tree, children before their parent. */
  function PostOrder(t: Tree): seq<int>
    decreases t, 0
  {
    match t
    case Nil => []
    case Node(id, _, Leaf(_)) => [id]
    case Node(id, _, Children(cs)) => PostOrderAll(cs) + [id]
  }

  function PostOrderAll(cs: seq<Tree>): seq<int>
    decreases cs, 1
  {
    if cs == [] then [] else PostOrderAll(cs[..|cs| - 1]) + PostOrder(cs[|cs| - 1])
  }

  /** `s` is ascending (not strictly) and every element lies in (lo, hi]. */
  predicate Chain(s: seq<int>, lo: int, hi: int)
    decreases |s|
  {
    |s| == 0 || (lo < s[0] <= hi && Chain(s[1..], s[0] - 1, hi))
  }

  /**
    * The ids a production stamps while the node counter moves from `lo` to
    * `hi`: every id lies in (lo, hi], ids never decrease from a child to the
    * next sibling or to the parent, and the root carries the final count.
    */
  predicate Stamped(t: Tree, lo: int, hi: int) {
    lo <= hi && Chain(PostOrder(t), lo, hi) && (t.Node? ==> t.id == hi)
  }

  lemma ChainLower(s: seq<int>, lo: int, lo': int, hi: int)
    requires Chain(s, lo', hi) && lo <= lo'
    ensures Chain(s, lo, hi)
  {
  }

  lemma {:induction false} ChainAppend(a: seq<int>, b: seq<int>, lo: int, mid: int, m: int, hi: int)
    requires Chain(a, lo, mid) && Chain(b, m, hi)
    requires lo <= m && mid - 1 <= m && mid <= hi
    ensures Chain(a + b, lo, hi)
    decreases |a|
  {
    if a == [] {
      assert a + b == b;
      ChainLower(b, lo, m, hi);
    } else {
      ChainAppend(a[1..], b, a[0] - 1, mid, m, hi);
      assert (a + b)[1..] == a[1..] + b;
    }
  }

  /** Children stamped one after another give an ascending run of ids. */
  lemma {:induction false} StampedChildren(cs: seq<Tree>, bounds: seq<int>)
    requires |bounds| == |cs| + 1
    requires forall i :: 0 <= i < |cs| ==> Stamped(cs[i], bounds[i], bounds[i + 1])
    ensures bounds[0] <= bounds[|cs|] && Chain(PostOrderAll(cs), bounds[0], bounds[|cs|])
    decreases |cs|
  {
    if cs != [] {
      var k := |cs| - 1;
      StampedChildren(cs[..k], bounds[..k + 1]);
      assert Stamped(cs[k], bounds[k], bounds[k + 1]);
      ChainAppend(PostOrderAll(cs[..k]), PostOrder(cs[k]), bounds[0], bounds[k], bounds[k], bounds[k + 1]);
    }
  }

  /**
    * A compound node whose children were stamped one after another, and whose
    * own id was taken after the last of them, is stamped over the whole run.
    */
  lemma StampNode(cs: seq<Tree>, bounds: seq<int>, id: int, k: NodeKind)
    requires |bounds| == |cs| + 1
    requires forall i :: 0 <= i < |cs| ==> Stamped(cs[i], bounds[i], bounds[i + 1])
    requires bounds[|cs|] <= id && bounds[0] < id
    ensures Stamped(Node(id, k, Children(cs)), bounds[0], id)
  {
    StampedChildren(cs, bounds);
    var m := if bounds[0] < bounds[|cs|] - 1 then bounds[|cs|] - 1 else bounds[0];
    assert Chain([id], m, id);
    ChainAppend(PostOrderAll(cs), [id], bounds[0], bounds[|cs|], m, id);
  }

  // The same, for the fixed numbers of children the productions build.

  lemma Stamp1(a: Tree, n0: int, n1: int, id: int, k: NodeKind)
    requires Stamped(a, n0, n1) && n1 <= id && n0 < id
    ensures Stamped(Node(id, k, Children([a])), n0, id)
  {
    StampNode([a], [n0, n1], id, k);
  }

  lemma Stamp2(a: Tree, b: Tree, n0: int, n1: int, n2: int, id: int, k: NodeKind)
    requires Stamped(a, n0, n1) && Stamped(b, n1, n2) && n2 <= id && n0 < id
    ensures Stamped(Node(id, k, Children([a, b])), n0, id)
  {
    StampNode([a, b], [n0, n1, n2], id, k);
  }

  lemma Stamp3(a: Tree, b: Tree, c: Tree, n0: int, n1: int, n2: int, n3: int, id: int, k: NodeKind)
    requires Stamped(a, n0, n1) && Stamped(b, n1, n2) && Stamped(c, n2, n3)
    requires n3 <= id && n0 < id
    ensures Stamped(Node(id, k, Children([a, b, c])), n0, id)
  {
    StampNode([a, b, c], [n0, n1, n2, n3], id, k);
  }

  lemma Stamp4(a: Tree, b: Tree, c: Tree, d: Tree, n0: int, n1: int, n2: int, n3: int, n4: int, id: int, k: NodeKind)
    requires Stamped(a, n0, n1) && Stamped(b, n1, n2) && Stamped(c, n2, n3) && Stamped(d, n3, n4)
    requires n4 <= id && n0 < id
    ensures Stamped(Node(id, k, Children([a, b, c, d])), n0, id)
  {
    StampNode([a, b, c, d], [n0, n1, n2, n3, n4], id, k);
  }

  lemma Stamp5(a: Tree, b: Tree, c: Tree, d: Tree, e: Tree, n0: int, n1: int, n2: int, n3: int, n4: int, n5: int, id: int, k: NodeKind)
    requires Stamped(a, n0, n1) && Stamped(b, n1, n2) && Stamped(c, n2, n3) && Stamped(d, n3, n4)
    requires Stamped(e, n4, n5) && n5 <= id && n0 < id
    ensures Stamped(Node(id, k, Children([a, b, c, d, e])), n0, id)
  {
    StampNode([a, b, c, d, e], [n0, n1, n2, n3, n4, n5], id, k);
  }

  lemma Stamp6(a: Tree, b: Tree, c: Tree, d: Tree, e: Tree, f: Tree,
               n0: int, n1: int, n2: int, n3: int, n4: int, n5: int, n6: int, id: int, k: NodeKind)
    requires Stamped(a, n0, n1) && Stamped(b, n1, n2) && Stamped(c, n2, n3) && Stamped(d, n3, n4)
    requires Stamped(e, n4, n5) && Stamped(f, n5, n6) && n6 <= id && n0 < id
    ensures Stamped(Node(id, k, Children([a, b, c, d, e, f])), n0, id)
  {
    StampNode([a, b, c, d, e, f], [n0, n1, n2, n3, n4, n5, n6], id, k);
  }

  /**
    * What `Stamped` means for the ids of a tree: all of them lie in (lo, hi],
    * they never decrease in post-order, and the root's is the largest.
    */
  lemma {:induction false} ChainMeans(s: seq<int>, lo: int, hi: int)
    requires Chain(s, lo, hi)
    ensures forall i :: 0 <= i < |s| ==> lo < s[i] <= hi
    ensures forall i, j :: 0 <= i < j < |s| ==> s[i] <= s[j]
    decreases |s|
  {
    if s != [] {
      ChainMeans(s[1..], s[0] - 1, hi);
      forall i, j | 0 <= i < j < |s|
        ensures s[i] <= s[j]
      {
        if i > 0 {
          assert s[i] == s[1..][i - 1] && s[j] == s[1..][j - 1];
        } else {
          assert s[j] == s[1..][j - 1];
        }
      }
      forall i | 0 <= i < |s|
        ensures lo < s[i] <= hi
      {
        if i > 0 {
          assert s[i] == s[1..][i - 1];
        }
      }
    }
  }

  lemma StampedMeans(t: Tree, lo: int, hi: int)
    requires Stamped(t, lo, hi)
    ensures forall i :: 0 <= i < |PostOrder(t)| ==> lo < PostOrder(t)[i] <= hi
    ensures forall i, j :: 0 <= i < j < |PostOrder(t)| ==> PostOrder(t)[i] <= PostOrder(t)[j]
    ensures t.Node? ==> PostOrder(t)[|PostOrder(t)| - 1] == t.id == hi
  {
    ChainMeans(PostOrder(t), lo, hi);
  }
}
