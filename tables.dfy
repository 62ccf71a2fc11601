/**
  * The variable and function tables of Code/spl.py:1150-1190: append-only
  * lists searched front to back for the first entry with a given name.
  */
module Tables {
  import opened Wrappers

  /** A `Vtable_node`; every field defaults to the empty string. */
  datatype VtableNode = VtableNode(varName: string, varId: string, varValue: string, varType: string)

  /** An `Ftable_node`; the two argument slots default to None. */
  datatype FtableNode = FtableNode(
    functionName: string,
    functionId: string,
    functionType: string,
    functionArg1: Option<string>,
    functionArg2: Option<string>)

  /**
    * The position of the first `name` in `names`, or None when there is none:
    * the specification both lookups are proved against.
    */
  function FirstIndex(names: seq<string>, name: string): (r: Option<nat>)
    ensures r.None? <==> name !in names
    ensures r.Some? ==> r.value < |names| && names[r.value] == name
    ensures r.Some? ==> forall j :: 0 <= j < r.value ==> names[j] != name
  {
    if names == [] then None
    else if names[0] == name then Some(0)
    else match FirstIndex(names[1..], name)
      case None => None
      case Some(i) => Some(i + 1)
  }

  /** Appending a name never moves the first match of any name already present. */
  lemma {:induction false} FirstIndexAppend(names: seq<string>, extra: string, name: string)
    ensures FirstIndex(names + [extra], name) ==
      if name in names then FirstIndex(names, name)
      else if extra == name then Some(|names|)
      else None
  {
    if names != [] {
      assert (names + [extra])[1..] == names[1..] + [extra];
      FirstIndexAppend(names[1..], extra, name);
    } else {
      assert names + [extra] == [extra];
    }
  }

  function VariableNames(vs: seq<VtableNode>): (r: seq<string>)
    ensures |r| == |vs| && forall i :: 0 <= i < |vs| ==> r[i] == vs[i].varName
  {
    seq(|vs|, i requires 0 <= i < |vs| => vs[i].varName)
  }

  function FunctionNames(fs: seq<FtableNode>): (r: seq<string>)
    ensures |r| == |fs| && forall i :: 0 <= i < |fs| ==> r[i] == fs[i].functionName
  {
    seq(|fs|, i requires 0 <= i < |fs| => fs[i].functionName)
  }

  /** What `find_variable` returns. */
  function LookupVariable(vs: seq<VtableNode>, name: string): (r: Option<VtableNode>)
    ensures r.Some? ==> r.value.varName == name
    ensures r.Some? ==> exists i :: 0 <= i < |vs| && vs[i] == r.value && forall j :: 0 <= j < i ==> vs[j].varName != name
    ensures r.None? <==> forall v :: v in vs ==> v.varName != name
  {
    match FirstIndex(VariableNames(vs), name)
    case None => None
    case Some(i) => Some(vs[i])
  }

  /** What `find_function` returns. */
  function LookupFunction(fs: seq<FtableNode>, name: string): (r: Option<FtableNode>)
    ensures r.Some? ==> r.value.functionName == name
    ensures r.Some? ==> exists i :: 0 <= i < |fs| && fs[i] == r.value && forall j :: 0 <= j < i ==> fs[j].functionName != name
    ensures r.None? <==> forall f :: f in fs ==> f.functionName != name
  {
    match FirstIndex(FunctionNames(fs), name)
    case None => None
    case Some(i) => Some(fs[i])
  }

  /**
    * Adding a variable changes no earlier answer: a name already present
    * still finds its first entry, and only a new name can find the new one.
    */
  lemma LookupVariableAfterAdd(vs: seq<VtableNode>, v: VtableNode, name: string)
    ensures LookupVariable(vs + [v], name) ==
      if LookupVariable(vs, name).Some? then LookupVariable(vs, name)
      else if v.varName == name then Some(v)
      else None
  {
    assert VariableNames(vs + [v]) == VariableNames(vs) + [v.varName];
    FirstIndexAppend(VariableNames(vs), v.varName, name);
  }

  lemma LookupFunctionAfterAdd(fs: seq<FtableNode>, f: FtableNode, name: string)
    ensures LookupFunction(fs + [f], name) ==
      if LookupFunction(fs, name).Some? then LookupFunction(fs, name)
      else if f.functionName == name then Some(f)
      else None
  {
    assert FunctionNames(fs + [f]) == FunctionNames(fs) + [f.functionName];
    FirstIndexAppend(FunctionNames(fs), f.functionName, name);
  }

  class Vtable {
    var variableList: seq<VtableNode>

    constructor ()
      ensures variableList == []
    {
      variableList := [];
    }

    method AddVariable(variable: VtableNode)
      modifies this
      ensures variableList == old(variableList) + [variable]
    {
      variableList := variableList + [variable];
    }

    /** The earliest entry named `name`, or None exactly when no entry has that name. */
    method FindVariable(name: string) returns (r: Option<VtableNode>)
      ensures r == LookupVariable(variableList, name)
      ensures r.Some? ==> r.value in variableList && r.value.varName == name
      ensures r.None? <==> forall v :: v in variableList ==> v.varName != name
    {
      for i := 0 to |variableList|
        invariant forall j :: 0 <= j < i ==> variableList[j].varName != name
      {
        if variableList[i].varName == name {
          FirstIndexIs(VariableNames(variableList), name, i);
          return Some(variableList[i]);
        }
      }
      assert name !in VariableNames(variableList);
      return None;
    }
  }

  class Ftable {
    var functionList: seq<FtableNode>

    constructor ()
      ensures functionList == []
    {
      functionList := [];
    }

    method AddFunction(entry: FtableNode)
      modifies this
      ensures functionList == old(functionList) + [entry]
    {
      functionList := functionList + [entry];
    }

    /** The earliest entry named `name`, or None exactly when no entry has that name. */
    method FindFunction(name: string) returns (r: Option<FtableNode>)
      ensures r == LookupFunction(functionList, name)
      ensures r.Some? ==> r.value in functionList && r.value.functionName == name
      ensures r.None? <==> forall f :: f in functionList ==> f.functionName != name
    {
      for i := 0 to |functionList|
        invariant forall j :: 0 <= j < i ==> functionList[j].functionName != name
      {
        if functionList[i].functionName == name {
          FirstIndexIs(FunctionNames(functionList), name, i);
          return Some(functionList[i]);
        }
      }
      assert name !in FunctionNames(functionList);
      return None;
    }
  }

  /** A position holding `name` with no earlier `name` is the first index. */
  lemma FirstIndexIs(names: seq<string>, name: string, i: nat)
    requires i < |names| && names[i] == name
    requires forall j :: 0 <= j < i ==> names[j] != name
    ensures FirstIndex(names, name) == Some(i)
  {
  }
}
