/**
  * The scope tree of Code/spl.py:917-983: `Analyst.recursive_scope_analysis`
  * walks the syntax tree and builds one `ScopeTableEntry` per position,
  * with the depth counter `scope_level` bumped around each child.
  *
  * `Mirror` is the scope tree as a function of the syntax tree; the method
  * is proved to build exactly it, and the lemmas say what it looks like.
  */
module Scope {
  import opened Wrappers
  import opened Lexing
  import opened Ast

  /**
    * A `ScopeTableEntry`. `parent` is the parent syntax node (`Nil` for the
    * root), `children` stays `Unset` (Python's None) unless the entry is for
    * an inner node, and `text` is a leaf's token.
    */
  datatype ScopeEntry = ScopeEntry(
    level: int,
    parent: Tree,
    children: EntryList,
    node: Tree,
    text: Option<Token>)

  datatype EntryList = Unset | Entries(list: seq<ScopeEntry>)

  /** The entry built for `t`, found under `parent` at depth `level`. */
  function Mirror(t: Tree, parent: Tree, level: int): (e: ScopeEntry)
    ensures e.level == level && e.parent == parent && e.node == t
    ensures e.children.Entries? <==> t.Node? && HasChildren(t)
    ensures e.text.Some? <==> t.Node? && t.contents.Leaf?
    decreases t
  {
    match t
    case Nil => ScopeEntry(level, parent, Unset, Nil, None)
    case Node(_, _, Leaf(token)) => ScopeEntry(level, parent, Unset, t, Some(token))
    case Node(_, _, Children(cs)) =>
      ScopeEntry(level, parent, Entries(seq(|cs|, i requires 0 <= i < |cs| => Mirror(cs[i], t, level + 1))), t, None)
  }

  class Analyst {
    const programNode: Tree
    const nodeList: seq<Tree>
    var scopeLevel: int
    var parentNode: Option<ScopeEntry>

    /** `scope_level` starts at the class attribute's 0 and `parent_node` at None. */
    constructor (programNode: Tree, nodeList: seq<Tree>)
      ensures this.programNode == programNode && this.nodeList == nodeList
      ensures scopeLevel == 0 && parentNode == None
    {
      this.programNode := programNode;
      this.nodeList := nodeList;
      scopeLevel := 0;
      parentNode := None;
    }

    method RecursiveScopeAnalysis(current: Tree, parent: Tree) returns (e: ScopeEntry)
      modifies this`scopeLevel
      ensures e == Mirror(current, parent, old(scopeLevel))
      ensures scopeLevel == old(scopeLevel)
      decreases current
    {
      e := ScopeEntry(scopeLevel, parent, Unset, current, None);
      if current.Node? && HasChildren(current) {
        var cs := current.contents.children;
        var childEntries: seq<ScopeEntry> := [];
        for i := 0 to |cs|
          invariant scopeLevel == old(scopeLevel)
          invariant |childEntries| == i
          invariant forall j :: 0 <= j < i ==> childEntries[j] == Mirror(cs[j], current, scopeLevel + 1)
        {
          scopeLevel := scopeLevel + 1;
          var child := RecursiveScopeAnalysis(cs[i], current);
          childEntries := childEntries + [child];
          scopeLevel := scopeLevel - 1;
        }
        assert childEntries == seq(|cs|, i requires 0 <= i < |cs| => Mirror(cs[i], current, old(scopeLevel) + 1));
        e := e.(children := Entries(childEntries));
      } else if current.Node? {
        e := e.(text := Some(current.contents.token));
      }
    }

    method AnalyseScope() returns (e: ScopeEntry)
      modifies this`scopeLevel, this`parentNode
      ensures e == Mirror(programNode, Nil, old(scopeLevel))
      ensures parentNode == Some(e) && scopeLevel == old(scopeLevel)
    {
      e := RecursiveScopeAnalysis(programNode, Nil);
      parentNode := Some(e);
    }
  }

  // ---------------------------------------------------------------------------
  // What the scope tree looks like

  /** Every entry sits one level below its parent entry. */
  ghost predicate LevelsFrom(e: ScopeEntry, level: int)
    decreases e
  {
    e.level == level
    && (e.children.Entries? ==>
          forall i :: 0 <= i < |e.children.list| ==> LevelsFrom(e.children.list[i], level + 1))
  }

  /** Every child entry names its parent entry's node as its parent. */
  ghost predicate ParentsLinked(e: ScopeEntry)
    decreases e
  {
    e.children.Entries? ==>
      forall i :: 0 <= i < |e.children.list| ==>
        e.children.list[i].parent == e.node && ParentsLinked(e.children.list[i])
  }

  /** Entry `e` mirrors node `t`: same arity, children in the same order, leaves carrying their token. */
  ghost predicate Mirrors(e: ScopeEntry, t: Tree)
    decreases t
  {
    e.node == t
    && match t
       case Nil => e.children.Unset? && e.text.None?
       case Node(_, _, Leaf(token)) => e.children.Unset? && e.text == Some(token)
       case Node(_, _, Children(cs)) =>
         e.text.None? && e.children.Entries? && |e.children.list| == |cs|
         && forall i :: 0 <= i < |cs| ==> Mirrors(e.children.list[i], cs[i])
  }

  /** The number of positions in a tree, counting a `Nil` child as one. */
  function Size(t: Tree): nat
    decreases t
  {
    match t
    case Node(_, _, Children(cs)) => 1 + SizeAll(cs)
    case _ => 1
  }

  function SizeAll(cs: seq<Tree>): nat
    decreases cs
  {
    if cs == [] then 0 else SizeAll(cs[..|cs| - 1]) + Size(cs[|cs| - 1])
  }

  function EntryCount(e: ScopeEntry): nat
    decreases e
  {
    1 + if e.children.Entries? then EntryCountAll(e.children.list) else 0
  }

  function EntryCountAll(es: seq<ScopeEntry>): nat
    decreases es
  {
    if es == [] then 0 else EntryCountAll(es[..|es| - 1]) + EntryCount(es[|es| - 1])
  }

  /** The root entry is at the starting level and each child one level deeper. */
  lemma {:induction false} MirrorLevels(t: Tree, parent: Tree, level: int)
    ensures LevelsFrom(Mirror(t, parent, level), level)
    decreases t
  {
    if t.Node? && HasChildren(t) {
      var cs := t.contents.children;
      var e := Mirror(t, parent, level);
      forall i | 0 <= i < |cs|
        ensures LevelsFrom(e.children.list[i], level + 1)
      {
        MirrorLevels(cs[i], t, level + 1);
      }
    }
  }

  lemma {:induction false} MirrorParents(t: Tree, parent: Tree, level: int)
    ensures ParentsLinked(Mirror(t, parent, level))
    decreases t
  {
    if t.Node? && HasChildren(t) {
      var cs := t.contents.children;
      var e := Mirror(t, parent, level);
      forall i | 0 <= i < |cs|
        ensures ParentsLinked(e.children.list[i])
      {
        MirrorParents(cs[i], t, level + 1);
      }
    }
  }

  /** One entry per node, with the children in order and each leaf's token as its text. */
  lemma {:induction false} MirrorShape(t: Tree, parent: Tree, level: int)
    ensures Mirrors(Mirror(t, parent, level), t)
    decreases t
  {
    if t.Node? && HasChildren(t) {
      var cs := t.contents.children;
      var e := Mirror(t, parent, level);
      forall i | 0 <= i < |cs|
        ensures Mirrors(e.children.list[i], cs[i])
      {
        MirrorShape(cs[i], t, level + 1);
      }
    }
  }

  /** The scope tree has exactly as many entries as the syntax tree has positions. */
  lemma {:induction false} MirrorSize(t: Tree, parent: Tree, level: int)
    ensures EntryCount(Mirror(t, parent, level)) == Size(t)
    decreases t, 1
  {
    if t.Node? && HasChildren(t) {
      var cs := t.contents.children;
      MirrorSizeAll(cs, t, level + 1);
    }
  }

  lemma {:induction false} MirrorSizeAll(cs: seq<Tree>, parent: Tree, level: int)
    ensures EntryCountAll(seq(|cs|, i requires 0 <= i < |cs| => Mirror(cs[i], parent, level))) == SizeAll(cs)
    decreases cs, 0
  {
    var es := seq(|cs|, i requires 0 <= i < |cs| => Mirror(cs[i], parent, level));
    if cs != [] {
      var k := |cs| - 1;
      var front := seq(k, i requires 0 <= i < k => Mirror(cs[..k][i], parent, level));
      assert es[..k] == front;
      MirrorSizeAll(cs[..k], parent, level);
      MirrorSize(cs[k], parent, level);
    }
  }
}
