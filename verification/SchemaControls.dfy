/**
 The check of an MCP tool's input schema: a worklist over a JSON value that refuses deep nesting,
 unknown schema drafts and references that are not local.
 */
module SchemaControls {
  import opened Wrappers
  import opened Json

  const MAX_DEPTH := 64

  const SUPPORTED_DRAFTS: set<string> := {
    "http://json-schema.org/draft-04/schema#",
    "http://json-schema.org/draft-06/schema#",
    "http://json-schema.org/draft-07/schema#",
    "https://json-schema.org/draft/2019-09/schema",
    "https://json-schema.org/draft/2020-12/schema"}

  datatype Fault = TooDeep | UnsupportedDraft | RemoteReference

  // ---- One node ----

  predicate SupportedDraft(v: Value) { v.Null? || (v.Str? && v.s in SUPPORTED_DRAFTS) }

  predicate LocalReference(v: Value) { v.Null? || (v.Str? && v.s != "" && v.s[0] == '#') }

  predicate HasLocalReferences(members: seq<Member>) {
    && LocalReference(Lookup(members, "$ref"))
    && LocalReference(Lookup(members, "$dynamicRef"))
    && LocalReference(Lookup(members, "$recursiveRef"))
  }

  function NodeFault(v: Value, depth: nat): Option<Fault> {
    if depth > MAX_DEPTH then Some(TooDeep)
    else if v.Object? && !SupportedDraft(Lookup(v.members, "$schema")) then Some(UnsupportedDraft)
    else if v.Object? && !HasLocalReferences(v.members) then Some(RemoteReference)
    else None
  }

  function Children(v: Value): (c: seq<Value>)
    ensures forall i :: 0 <= i < |c| ==> c[i] < v
  {
    match v
    case Array(items) => items
    case Object(members) => seq(|members|, i requires 0 <= i < |members| => members[i].value)
    case _ => []
  }

  // ---- The recursive definition ----

  /** The fault found first when a node is looked at before its children, and the last child first. */
  function FirstFault(v: Value, depth: nat): Option<Fault>
    decreases v, |Children(v)| + 1
  {
    if NodeFault(v, depth).Some? then NodeFault(v, depth) else ChildFault(v, depth, |Children(v)|)
  }

  /** The same among the first n children. */
  function ChildFault(v: Value, depth: nat, n: nat): Option<Fault>
    requires n <= |Children(v)|
    decreases v, n
  {
    if n == 0 then None
    else
      var last := FirstFault(Children(v)[n - 1], depth + 1);
      if last.Some? then last else ChildFault(v, depth, n - 1)
  }

  /** The node a path of child indices leads to. */
  function At(v: Value, path: seq<nat>): Option<Value>
    decreases path
  {
    if path == [] then Some(v)
    else if path[0] < |Children(v)| then At(Children(v)[path[0]], path[1..])
    else None
  }

  /** No node lies too deep, and every object names a supported draft and refers to itself only. */
  ghost predicate Acceptable(v: Value, depth: nat) {
    forall path: seq<nat> :: At(v, path).Some? ==> NodeFault(At(v, path).value, depth + |path|).None?
  }

  lemma {:induction false} AcceptedAt(v: Value, depth: nat, path: seq<nat>)
    requires FirstFault(v, depth).None? && At(v, path).Some?
    ensures NodeFault(At(v, path).value, depth + |path|).None?
    decreases path
  {
    if path != [] {
      NoChildFault(v, depth, |Children(v)|, path[0]);
      AcceptedAt(Children(v)[path[0]], depth + 1, path[1..]);
    }
  }

  lemma {:induction false} NoChildFault(v: Value, depth: nat, n: nat, i: nat)
    requires i < n <= |Children(v)| && ChildFault(v, depth, n).None?
    ensures FirstFault(Children(v)[i], depth + 1).None?
  {
    if i < n - 1 {
      NoChildFault(v, depth, n - 1, i);
    }
  }

  lemma {:induction false} FaultHasPath(v: Value, depth: nat) returns (path: seq<nat>)
    requires FirstFault(v, depth).Some?
    ensures At(v, path).Some? && NodeFault(At(v, path).value, depth + |path|) == FirstFault(v, depth)
    decreases v, |Children(v)| + 1
  {
    if NodeFault(v, depth).Some? {
      path := [];
    } else {
      path := ChildFaultHasPath(v, depth, |Children(v)|);
    }
  }

  lemma {:induction false} ChildFaultHasPath(v: Value, depth: nat, n: nat) returns (path: seq<nat>)
    requires n <= |Children(v)| && ChildFault(v, depth, n).Some?
    ensures At(v, path).Some? && NodeFault(At(v, path).value, depth + |path|) == ChildFault(v, depth, n)
    decreases v, n
  {
    hide NodeFault, Children;
    if FirstFault(Children(v)[n - 1], depth + 1).Some? {
      var rest := FaultHasPath(Children(v)[n - 1], depth + 1);
      path := [n - 1] + rest;
      assert path[1..] == rest;
    } else {
      path := ChildFaultHasPath(v, depth, n - 1);
    }
  }

  /** The recursive search finds nothing exactly when every node is in order, and a fault it finds is one of some node. */
  lemma FaultFreeIsAcceptable(v: Value, depth: nat)
    ensures FirstFault(v, depth).None? <==> Acceptable(v, depth)
    ensures FirstFault(v, depth).Some? ==>
      exists path: seq<nat> :: At(v, path).Some? && NodeFault(At(v, path).value, depth + |path|) == FirstFault(v, depth)
  {
    if FirstFault(v, depth).None? {
      forall path: seq<nat> | At(v, path).Some? ensures NodeFault(At(v, path).value, depth + |path|).None? {
        AcceptedAt(v, depth, path);
      }
    } else {
      var path := FaultHasPath(v, depth);
    }
  }

  /** A text that refers to a place in the same document. */
  predicate IsLocal(v: Value) { v == Null || (v.Str? && "#" <= v.s) }

  /** The node is at most 64 levels deep, and as an object it names a known draft, if any, and refers to itself only. */
  predicate IsSafeNode(v: Value, depth: nat) {
    && depth <= 64
    && (v.Object? ==>
          && (Lookup(v.members, "$schema") == Null || exists draft :: draft in SUPPORTED_DRAFTS && Lookup(v.members, "$schema") == Str(draft))
          && IsLocal(Lookup(v.members, "$ref")) && IsLocal(Lookup(v.members, "$dynamicRef"))
          && IsLocal(Lookup(v.members, "$recursiveRef")))
  }

  /** A schema is accepted exactly when every node in it, wherever it stands, is safe. */
  lemma {:induction false} AcceptedSchemasAreSafe(v: Value)
    ensures FirstFault(v, 0).None? <==> forall path: seq<nat> :: At(v, path).Some? ==> IsSafeNode(At(v, path).value, |path|)
  {
    FaultFreeIsAcceptable(v, 0);
    forall node, depth ensures NodeFault(node, depth).None? <==> IsSafeNode(node, depth) {
      SafeNodesHaveNoFault(node, depth);
    }
    hide NodeFault, IsSafeNode, At, FirstFault;
  }

  /** The fault reported is one that some node has: too deep, a draft that is not known, or a reference that is not local. */
  lemma {:induction false} FaultsSayWhatIsWrong(v: Value)
    requires FirstFault(v, 0).Some?
    ensures exists path: seq<nat> :: At(v, path).Some? && HasFault(At(v, path).value, |path|, FirstFault(v, 0).value)
  {
    hide FirstFault, At, NodeFault, HasFault;
    var path := FaultHasPath(v, 0);
    NodesHaveTheirFault(At(v, path).value, |path|);
  }

  predicate HasFault(v: Value, depth: nat, fault: Fault) {
    match fault
    case TooDeep => depth > 64
    case UnsupportedDraft =>
      && depth <= 64 && v.Object? && Lookup(v.members, "$schema") != Null
      && forall draft :: draft in SUPPORTED_DRAFTS ==> Lookup(v.members, "$schema") != Str(draft)
    case RemoteReference =>
      && depth <= 64 && v.Object?
      && !(IsLocal(Lookup(v.members, "$ref")) && IsLocal(Lookup(v.members, "$dynamicRef")) && IsLocal(Lookup(v.members, "$recursiveRef")))
  }

  lemma NodesHaveTheirFault(v: Value, depth: nat)
    ensures NodeFault(v, depth).Some? ==> HasFault(v, depth, NodeFault(v, depth).value)
  {
    hide Lookup;
  }

  lemma SafeNodesHaveNoFault(v: Value, depth: nat)
    ensures NodeFault(v, depth).None? <==> IsSafeNode(v, depth)
    ensures NodeFault(v, depth) == Some(TooDeep) <==> depth > 64
    ensures NodeFault(v, depth) == Some(UnsupportedDraft) ==> v.Object? && Lookup(v.members, "$schema") != Null
  {
    hide Lookup;
  }

  // ---- The worklist ----

  /** The number of nodes of a value, and of its first n children. */
  function Size(v: Value): nat
    decreases v, |Children(v)| + 1
  {
    1 + ChildSize(v, |Children(v)|)
  }

  function ChildSize(v: Value, n: nat): nat
    requires n <= |Children(v)|
    decreases v, n
  {
    if n == 0 then 0 else ChildSize(v, n - 1) + Size(Children(v)[n - 1])
  }

  /** How many nodes are still to be looked at. */
  function Pending(pending: seq<(Value, nat)>): nat {
    if pending == [] then 0
    else Pending(pending[..|pending| - 1]) + Size(pending[|pending| - 1].0)
  }

  function PendingFault(pending: seq<(Value, nat)>): Option<Fault> {
    if pending == [] then None
    else
      var top := pending[|pending| - 1];
      var fault := FirstFault(top.0, top.1);
      if fault.Some? then fault else PendingFault(pending[..|pending| - 1])
  }

  lemma Popped(pending: seq<(Value, nat)>, v: Value, depth: nat)
    ensures Pending(pending + [(v, depth)]) == Pending(pending) + Size(v)
    ensures PendingFault(pending + [(v, depth)]) ==
      if FirstFault(v, depth).Some? then FirstFault(v, depth) else PendingFault(pending)
  {
    assert (pending + [(v, depth)])[..|pending|] == pending;
  }

  function Tagged(values: seq<Value>, depth: nat): (r: seq<(Value, nat)>)
    ensures |r| == |values| && forall i :: 0 <= i < |r| ==> r[i] == (values[i], depth)
  {
    seq(|values|, i requires 0 <= i < |values| => (values[i], depth))
  }

  /** Pushing the children of a node leaves their faults and their nodes to be found. */
  lemma {:induction false} Pushed(pending: seq<(Value, nat)>, v: Value, depth: nat, n: nat)
    requires n <= |Children(v)|
    ensures var next := pending + Tagged(Children(v)[..n], depth + 1);
      && PendingFault(next) == (if ChildFault(v, depth, n).Some? then ChildFault(v, depth, n) else PendingFault(pending))
      && Pending(next) == Pending(pending) + ChildSize(v, n)
  {
    hide FirstFault, NodeFault, Size, Pending, PendingFault, Children;
    var next := pending + Tagged(Children(v)[..n], depth + 1);
    if n == 0 {
      assert next == pending;
    } else {
      Pushed(pending, v, depth, n - 1);
      var before := pending + Tagged(Children(v)[..n - 1], depth + 1);
      assert next == before + [(Children(v)[n - 1], depth + 1)];
      Popped(before, Children(v)[n - 1], depth + 1);
    }
  }

  /**
   The worklist ends, and finds exactly the fault the recursive search finds: none when every node
   is in order.
   */
  method ValidateSchemaControls(value: Value) returns (fault: Option<Fault>)
    ensures fault == FirstFault(value, 0)
    ensures fault.None? <==> Acceptable(value, 0)
  {
    hide FirstFault, ChildFault, Acceptable, Size, ChildSize, Children, NodeFault, Pending, PendingFault;
    FaultFreeIsAcceptable(value, 0);
    var pending := [(value, 0 as nat)];
    NothingPending();
    Popped([], value, 0);
    assert [] + [(value, 0 as nat)] == pending;
    while pending != []
      invariant PendingFault(pending) == FirstFault(value, 0)
      decreases Pending(pending)
    {
      var (current, depth) := pending[|pending| - 1];
      var rest := pending[..|pending| - 1];
      assert pending == rest + [(current, depth)];
      Popped(rest, current, depth);
      OneNode(current, depth);
      pending := rest;
      fault := CheckNode(current, depth);
      if fault.Some? {
        return;
      }
      if current.Object? || current.Array? {
        AllChildren(rest, current, depth);
        pending := pending + Tagged(Children(current), depth + 1);
      } else {
        NoChildren(current);
      }
    }
    return None;
  }

  /** The checks of one node, in their order. */
  method CheckNode(current: Value, depth: nat) returns (fault: Option<Fault>)
    ensures fault == NodeFault(current, depth)
  {
    if depth > MAX_DEPTH {
      return Some(TooDeep);
    }
    if current.Object? {
      var members := current.members;
      if !SupportedDraft(Lookup(members, "$schema")) {
        return Some(UnsupportedDraft);
      }
      if !LocalReference(Lookup(members, "$ref")) || !LocalReference(Lookup(members, "$dynamicRef"))
         || !LocalReference(Lookup(members, "$recursiveRef")) {
        return Some(RemoteReference);
      }
    }
    return None;
  }

  lemma NothingPending()
    ensures PendingFault([]).None? && Pending([]) == 0
  {
  }

  lemma NoChildren(v: Value)
    requires !v.Object? && !v.Array?
    ensures Children(v) == []
  {
  }

  lemma OneNode(v: Value, depth: nat)
    ensures Size(v) == 1 + ChildSize(v, |Children(v)|)
    ensures FirstFault(v, depth) == if NodeFault(v, depth).Some? then NodeFault(v, depth) else ChildFault(v, depth,
      |Children(v)|)
    ensures Children(v) == [] ==> ChildFault(v, depth, |Children(v)|).None?
  {
  }

  lemma AllChildren(pending: seq<(Value, nat)>, v: Value, depth: nat)
    ensures var next := pending + Tagged(Children(v), depth + 1);
      var fault := ChildFault(v, depth, |Children(v)|);
      && PendingFault(next) == (if fault.Some? then fault else PendingFault(pending))
      && Pending(next) == Pending(pending) + ChildSize(v, |Children(v)|)
  {
    Pushed(pending, v, depth, |Children(v)|);
    assert Children(v)[..|Children(v)|] == Children(v);
  }
}
