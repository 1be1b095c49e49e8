/** Query splitting (src/utils.js, `splitQuery`): a root query AST is split into a route query that
    keeps only the generated or requisite children, and a fragment that holds all of them. The AST
    is a plain JavaScript value; fragment ids come from a module-level counter. */
module SplitQuery {
  import opened JsValues

  /** The route query and the fragment. */
  datatype Split = Split(routeQuery: Value, fragment: Value)

  /** What a property read on `null` or `undefined` throws (the message text is engine-specific). */
  const TYPE_ERROR := JsError("TypeError", "")

  predicate Nullish(v: Value)
  {
    v.Null? || v.Undefined?
  }

  /** The filter: a child is kept when its metadata is truthy and says generated or requisite. */
  predicate KeepChild(child: Value)
  {
    var md := Prop(child, "metadata");
    Truthy(md) && (Truthy(Prop(md, "isGenerated")) || Truthy(Prop(md, "isRequisite")))
  }

  /** The map: the child's metadata with `isGenerated: true` added, before its other properties. */
  function MarkGenerated(child: Value): (marked: Value)
    requires KeepChild(child)
    ensures marked.Obj?
  {
    var md := Prop(child, "metadata");
    Obj([("metadata", Obj(Put(md.fields, "isGenerated", Bool(true))))] + Without(child.fields, "metadata"))
  }

  /** A kept child keeps every property but its metadata, and its metadata gains `isGenerated: true`
      and keeps every other entry. */
  lemma MarkGeneratedFields(child: Value, k: string, j: string)
    requires KeepChild(child)
    ensures k != "metadata" ==> Get(MarkGenerated(child).fields, k) == Get(child.fields, k)
    ensures Get(Prop(MarkGenerated(child), "metadata").fields, j) ==
      if j == "isGenerated" then Some(Bool(true)) else Get(Prop(child, "metadata").fields, j)
  {
    var md := Prop(child, "metadata");
    var rest := Without(child.fields, "metadata");
    GetWithout(child.fields, "metadata", k);
    GetPut(md.fields, "isGenerated", Bool(true), j);
    assert MarkGenerated(child).fields == [("metadata", Obj(Put(md.fields, "isGenerated", Bool(true))))] + rest;
    assert [("metadata", Obj(Put(md.fields, "isGenerated", Bool(true))))] + rest
      == [("metadata", Obj(Put(md.fields, "isGenerated", Bool(true))))] + rest[0..];
  }

  /** The children the filter keeps, in order. */
  function Kept(children: seq<Value>): (kept: seq<Value>)
    ensures |kept| <= |children|
    ensures forall i :: 0 <= i < |kept| ==> KeepChild(kept[i])
    decreases |children|
  {
    if |children| == 0 then []
    else (if KeepChild(children[0]) then [children[0]] else []) + Kept(children[1..])
  }

  /** The filter keeps exactly the children with generated or requisite metadata. */
  lemma {:induction false} KeptMembers(children: seq<Value>, v: Value)
    ensures v in Kept(children) <==> v in children && KeepChild(v)
    decreases |children|
  {
    if |children| > 0 {
      KeptMembers(children[1..], v);
      assert children == [children[0]] + children[1..];
    }
  }

  /** The route query's children. */
  function Marked(kept: seq<Value>): (marked: seq<Value>)
    requires forall i :: 0 <= i < |kept| ==> KeepChild(kept[i])
    ensures |marked| == |kept| && forall i :: 0 <= i < |kept| ==> marked[i] == MarkGenerated(kept[i])
  {
    seq(|kept|, i requires 0 <= i < |kept| => MarkGenerated(kept[i]))
  }

  /** Building the route query succeeds: `query.children` is an array without nullish children
      (a nullish child cannot be destructured). */
  predicate RouteBuilds(query: Value)
  {
    var children := Prop(query, "children");
    children.Arr? && forall i :: 0 <= i < |children.items| ==> !Nullish(children.items[i])
  }

  /** The fragment's id for counter value `n`. */
  function FragmentId(n: nat): string
  {
    NatToString(n) + "::relayhelperid"
  }

  /** Different counter values give different fragment ids. */
  lemma FragmentIdsDistinct(a: nat, b: nat)
    requires a != b
    ensures FragmentId(a) != FragmentId(b)
  {
    if FragmentId(a) == FragmentId(b) {
      var sa, sb := NatToString(a), NatToString(b);
      assert |sa| == |sb|;
      assert sa == FragmentId(a)[..|sa|] == FragmentId(b)[..|sb|] == sb;
      NatToStringInjective(a, b);
    }
  }

  /** The route query: every property of the query, with `name` set to the name given and
      `children` to the kept children, marked. */
  function RouteQuery(query: Value, name: string): (route: Value)
    requires RouteBuilds(query)
    ensures route.Obj? && Prop(route, "name") == Str(name)
    ensures Prop(route, "children").Arr? && |Prop(route, "children").items| <= |Prop(query, "children").items|
  {
    var children := Prop(query, "children").items;
    var marked := Arr(Marked(Kept(children)));
    GetPut(Put(query.fields, "name", Str(name)), "children", marked, "name");
    GetPut(query.fields, "name", Str(name), "name");
    GetPut(Put(query.fields, "name", Str(name)), "children", marked, "children");
    Obj(Put(Put(query.fields, "name", Str(name)), "children", marked))
  }

  /** The fragment literal, with `isAbstract` added to its metadata when the query's metadata has a
      truthy one. */
  function Fragment(query: Value, name: string, id: nat): (fragment: Value)
    ensures fragment.Obj? && |fragment.fields| == 6
    ensures Prop(fragment, "id") == Str(FragmentId(id)) && Prop(fragment, "kind") == Str("Fragment")
  {
    var md := Prop(query, "metadata");
    var fragmentMetadata := if Truthy(Prop(md, "isAbstract")) then [("isAbstract", Bool(true))] else [];
    var fields := [
      ("id", Str(FragmentId(id))),
      ("kind", Str("Fragment")),
      ("type", Prop(query, "type")),
      ("metadata", Obj(fragmentMetadata)),
      ("name", Str(name + "_Fragment")),
      ("children", Prop(query, "children"))];
    FragmentReads(fields);
    Obj(fields)
  }

  /** `splitQuery(query, name)` with the counter at `id`: building the route query throws on
      children that are not an array or hold a nullish child, and reading `query.metadata.isAbstract`
      throws on nullish metadata. */
  function SplitAt(query: Value, name: string, id: nat): (r: Result<Split>)
    ensures r.Throw? <==> !RouteBuilds(query) || Nullish(Prop(query, "metadata"))
    ensures r.Throw? ==> r.error == TYPE_ERROR
  {
    if !RouteBuilds(query) then Throw(TYPE_ERROR)
    else if Nullish(Prop(query, "metadata")) then Throw(TYPE_ERROR)
    else Ok(Split(RouteQuery(query, name), Fragment(query, name, id)))
  }

  /** Reading each property of the fragment literal gives the value written there. */
  lemma FragmentReads(fragment: Object<Value>)
    requires |fragment| == 6
    requires fragment[0].0 == "id" && fragment[1].0 == "kind" && fragment[2].0 == "type"
    requires fragment[3].0 == "metadata" && fragment[4].0 == "name" && fragment[5].0 == "children"
    ensures forall i :: 0 <= i < 6 ==> Get(fragment, fragment[i].0) == Some(fragment[i].1)
  {
    assert DistinctKeys(fragment);
    forall i | 0 <= i < 6 ensures Get(fragment, fragment[i].0) == Some(fragment[i].1) {
      GetAt(fragment, i);
    }
  }

  /** The fragment: id from the counter, kind `Fragment`, the query's type and all of its children,
      and the name with `_Fragment` appended. */
  lemma FragmentProps(query: Value, name: string, id: nat)
    ensures var f := Fragment(query, name, id);
      && Prop(f, "id") == Str(FragmentId(id))
      && Prop(f, "kind") == Str("Fragment")
      && Prop(f, "type") == Prop(query, "type")
      && Prop(f, "name") == Str(name + "_Fragment")
      && Prop(f, "children") == Prop(query, "children")
  {
    FragmentReads(Fragment(query, name, id).fields);
  }

  /** The fragment's metadata says `isAbstract: true` exactly when the query's metadata has a truthy
      `isAbstract`, and is empty otherwise. */
  lemma FragmentMetadata(query: Value, name: string, id: nat)
    ensures var md := Prop(Fragment(query, name, id), "metadata");
      && md.Obj?
      && (Truthy(Prop(Prop(query, "metadata"), "isAbstract")) ==> md.fields == [("isAbstract", Bool(true))])
      && (!Truthy(Prop(Prop(query, "metadata"), "isAbstract")) ==> md.fields == [])
  {
    var isAbstract := Truthy(Prop(Prop(query, "metadata"), "isAbstract"));
    FragmentMetadataValue(query, name, id, Obj(if isAbstract then [("isAbstract", Bool(true))] else []));
  }

  /** The fragment's fourth field is its metadata. */
  lemma FragmentMetadataValue(query: Value, name: string, id: nat, md: Value)
    requires md == Obj(if Truthy(Prop(Prop(query, "metadata"), "isAbstract")) then [("isAbstract", Bool(true))] else [])
    ensures Prop(Fragment(query, name, id), "metadata") == md
  {
    var f := Fragment(query, name, id).fields;
    assert f[3] == ("metadata", md);
    FragmentReads(f);
  }


  /** The route query copies every property of the query, with `name` and `children` replaced:
      the name given, and the kept children marked as generated, in their order. */
  lemma RouteQueryFields(query: Value, name: string, k: string)
    requires RouteBuilds(query)
    ensures Get(RouteQuery(query, name).fields, k) ==
      if k == "children" then Some(Arr(Marked(Kept(Prop(query, "children").items))))
      else if k == "name" then Some(Str(name))
      else Get(query.fields, k)
  {
    var o := Put(query.fields, "name", Str(name));
    GetPut(o, "children", Arr(Marked(Kept(Prop(query, "children").items))), k);
    GetPut(query.fields, "name", Str(name), k);
  }

  /** The module-level fragment counter, `nextFragmentId`. */
  class QuerySplitter {
    var nextFragmentId: nat

    constructor ()
      ensures nextFragmentId == 1
    {
      nextFragmentId := 1;
    }

    /** `splitQuery`: the counter is drawn once the route query is built, even when the fragment
        then fails on nullish query metadata. */
    method SplitQuery(query: Value, name: string := "Index") returns (r: Result<Split>)
      modifies this
      ensures r == SplitAt(query, name, old(nextFragmentId))
      ensures nextFragmentId == if RouteBuilds(query) then old(nextFragmentId) + 1 else old(nextFragmentId)
    {
      if !RouteBuilds(query) {
        return Throw(TYPE_ERROR);
      }
      var id := nextFragmentId;
      nextFragmentId := nextFragmentId + 1;
      r := SplitAt(query, name, id);
    }
  }
}
