/**
 The component tree of a detector system, kept as an arena: a sequence of components in which
 a component names its parent by index. Index 0 is the system's base component, the only one
 without a parent, and every other component's parent comes before it, so following parents
 always ends at the base.
 */
module Hierarchy {
  import opened Wrappers

  datatype Component = Component(name: string, parent: Option<nat>)

  const BaseIndex: nat := 0

  ghost predicate WellFormed(cs: seq<Component>) {
    && |cs| > 0
    && cs[BaseIndex].parent.None?
    && forall i :: 0 < i < |cs| ==> cs[i].parent.Some? && cs[i].parent.value < i
  }

  /** The arena after a new component `name` is created under component `parent`. */
  function Attach(cs: seq<Component>, name: string, parent: nat): (r: seq<Component>)
    requires WellFormed(cs) && parent < |cs|
    ensures WellFormed(r)
    ensures |r| == |cs| + 1 && r[..|cs|] == cs
    ensures r[|cs|].name == name && r[|cs|].parent == Some(parent)
  {
    cs + [Component(name, Some(parent))]
  }

  /** The indices of the children of `parent` that are called `name`. */
  function ChildrenNamed(cs: seq<Component>, parent: nat, name: string): set<nat> {
    set i: nat | i < |cs| && cs[i].parent == Some(parent) && cs[i].name == name
  }

  /** The parent chain of component `i`: `i`, its parent, its grandparent, ..., the base. */
  function Chain(cs: seq<Component>, i: nat): (r: seq<nat>)
    requires WellFormed(cs) && i < |cs|
    ensures |r| > 0 && r[0] == i && r[|r| - 1] == BaseIndex
    ensures forall k :: 0 <= k < |r| ==> r[k] < |cs|
    ensures forall k :: 0 <= k < |r| - 1 ==> cs[r[k]].parent == Some(r[k + 1])
    ensures |r| <= i + 1
    decreases i
  {
    match cs[i].parent
    case None => [i]
    case Some(p) => [i] + Chain(cs, p)
  }

  /** The level of component `i` below the base: the base is at depth 0. */
  function Depth(cs: seq<Component>, i: nat): (d: nat)
    requires WellFormed(cs) && i < |cs|
    ensures d <= i
    ensures d == 0 <==> i == BaseIndex
  {
    |Chain(cs, i)| - 1
  }
}
