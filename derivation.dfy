/** The node derivation of script.js:33-68: one pass over the links builds an
    insertion-ordered map from id to node, inferring each node's group; the
    map's values become the node array, and a second pass gives every node
    its radius. */
module Derivation {
  import opened Wrappers
  import opened Links
  import opened Groups
  import opened Appearance

  /** A node as the script builds it, `{ id, group }`; `r` stays undefined
      until the radius pass sets it. */
  datatype Node = Node(id: Cell, group: string, r: Option<int>)

  /** The ids of a node list, in order. */
  function Ids(nodes: seq<Node>): seq<Cell> {
    seq(|nodes|, i requires 0 <= i < |nodes| => nodes[i].id)
  }

  /** The `nodesMap` of the script: a JavaScript `Map` from id to node, whose
      keys keep the order in which they were first set. */
  class NodeMap {
    var keys: seq<Cell>
    var entries: map<Cell, Node>

    ghost predicate Valid()
      reads this
    {
      (forall k :: k in entries <==> k in keys) && NoDuplicates(keys)
    }

    /** `new Map()`. */
    constructor ()
      ensures Valid() && keys == [] && entries == map[]
    {
      keys := [];
      entries := map[];
    }

    /** `nodesMap.has(k)`. */
    predicate Has(k: Cell)
      reads this
      ensures Valid() ==> (Has(k) <==> k in keys)
    {
      k in entries
    }

    /** `nodesMap.set(k, node)`: a new key goes last, an existing key keeps
        its place and gets the new node. */
    method Set(k: Cell, node: Node)
      requires Valid()
      modifies this
      ensures Valid()
      ensures entries == old(entries)[k := node]
      ensures keys == Extend(old(keys), k)
    {
      if k !in entries {
        keys := keys + [k];
      }
      entries := entries[k := node];
    }

    /** `nodesMap.get(k).group = group`: overwrites the group of the node
        stored under `k` and nothing else. */
    method SetGroup(k: Cell, group: string)
      requires Valid() && k in entries
      modifies this
      ensures Valid() && keys == old(keys)
      ensures entries == old(entries)[k := old(entries)[k].(group := group)]
    {
      entries := entries[k := entries[k].(group := group)];
    }

    /** `Array.from(nodesMap.values())`: the nodes in key order. */
    function Values(): (nodes: seq<Node>)
      reads this
      requires Valid()
      ensures |nodes| == |keys| == |entries|
      ensures forall i :: 0 <= i < |keys| ==> nodes[i] == entries[keys[i]]
    {
      var ks, es := keys, entries;
      DistinctCount(ks);
      assert es.Keys == set k | k in ks;
      seq(|ks|, i requires 0 <= i < |ks| => es[ks[i]])
    }
  }

  /** `if (!nodesMap.has(k)) nodesMap.set(k, { id: k, group: "" })`: an
      id gets a fresh node on first sight and an existing node is kept. */
  method AddIfMissing(m: NodeMap, k: Cell)
    requires m.Valid()
    modifies m
    ensures m.Valid()
    ensures m.keys == Extend(old(m.keys), k)
    ensures m.entries == if k in old(m.entries) then old(m.entries)
                         else old(m.entries)[k := Node(k, Unset, None)]
  {
    if !m.Has(k) {
      m.Set(k, Node(k, Unset, None));
    }
  }

  /** The group assignment of script.js:48-57: the link type overwrites the
      groups of both endpoints, source first; other types change nothing. */
  method AssignGroups(m: NodeMap, link: Link)
    requires m.Valid() && link.source in m.entries && link.target in m.entries
    modifies m
    ensures m.Valid() && m.keys == old(m.keys)
    ensures m.entries.Keys == old(m.entries).Keys
    ensures forall k :: k in m.entries ==>
              m.entries[k] == old(m.entries)[k].(group := Written(link, k).GetOr(old(m.entries)[k].group))
  {
    if link.linkType == CompanyField {
      m.SetGroup(link.source, Company);
      m.SetGroup(link.target, Field);
    } else if link.linkType == FieldRole {
      m.SetGroup(link.source, Field);
      m.SetGroup(link.target, Role);
    } else if link.linkType == RoleCompany {
      m.SetGroup(link.source, Role);
      m.SetGroup(link.target, Company);
    }
  }

  /** The body of `linksData.forEach` for one link (script.js:35-58). A node
      already present is never replaced: only its group may change. */
  method VisitLink(m: NodeMap, link: Link)
    requires m.Valid()
    modifies m
    ensures m.Valid()
    ensures m.keys == Extend(Extend(old(m.keys), link.source), link.target)
    ensures forall k :: k in old(m.entries) ==>
              k in m.entries &&
              m.entries[k] == old(m.entries)[k].(group := Written(link, k).GetOr(old(m.entries)[k].group))
    ensures forall k :: k in m.entries && k !in old(m.entries) ==>
              m.entries[k] == Node(k, Written(link, k).GetOr(Unset), None)
  {
    AddIfMissing(m, link.source);
    AddIfMissing(m, link.target);
    AssignGroups(m, link);
  }

  /** The radius pass: every node gets the radius of its group; nothing else
      about it changes. */
  method AssignRadii(nodes: array<Node>)
    modifies nodes
    ensures forall i :: 0 <= i < nodes.Length ==>
              nodes[i] == old(nodes[i]).(r := Some(Radius(old(nodes[i]).group)))
  {
    for i := 0 to nodes.Length
      invariant forall j :: 0 <= j < i ==>
                  nodes[j] == old(nodes[j]).(r := Some(Radius(old(nodes[j]).group)))
      invariant forall j :: i <= j < nodes.Length ==> nodes[j] == old(nodes[j])
    {
      nodes[i] := nodes[i].(r := Some(Radius(nodes[i].group)));
    }
  }

  /** A node id that no link has named yet has the empty group. */
  lemma {:induction false} UnnamedIsUnset(links: seq<Link>, k: Cell)
    requires k !in Endpoints(links)
    ensures GroupAfter(links, k) == Unset
  {
    forall j | 0 <= j < |links|
      ensures Written(links[j], k).None?
    {
      assert Endpoints(links)[2 * j] == links[j].source;
      assert Endpoints(links)[2 * j + 1] == links[j].target;
    }
    NeverWrittenIsUnset(links, k);
  }

  /** One more link extends the endpoint list by its source and its target. */
  lemma EndpointsStep(links: seq<Link>, i: nat)
    requires i < |links|
    ensures Endpoints(links[..i + 1]) == Endpoints(links[..i]) + [links[i].source] + [links[i].target]
  {
    assert links[..i + 1][..i] == links[..i];
  }

  /** The node map of the script (script.js:33-58): one pass over the links
      leaves one entry per distinct endpoint, keyed in first-appearance
      order, each holding its id and the group the last relevant link gave it. */
  method BuildNodeMap(links: seq<Link>) returns (m: NodeMap)
    ensures fresh(m) && m.Valid()
    ensures FirstAppearanceOrder(m.keys, Endpoints(links))
    ensures forall k :: k in m.entries ==> m.entries[k] == Node(k, GroupAfter(links, k), None)
  {
    m := new NodeMap();
    var i := 0;
    while i < |links|
      invariant 0 <= i <= |links|
      invariant m.Valid()
      invariant FirstAppearanceOrder(m.keys, Endpoints(links[..i]))
      invariant forall k :: k in m.entries ==> m.entries[k] == Node(k, GroupAfter(links[..i], k), None)
    {
      ghost var before := m.entries;
      ghost var keys := m.keys;
      ghost var seen := Endpoints(links[..i]);
      VisitLink(m, links[i]);
      EndpointsStep(links, i);
      ExtendKeepsOrder(keys, seen, links[i].source);
      ExtendKeepsOrder(Extend(keys, links[i].source), seen + [links[i].source], links[i].target);
      forall k | k in m.entries
        ensures m.entries[k] == Node(k, GroupAfter(links[..i + 1], k), None)
      {
        assert links[..i + 1][..i] == links[..i];
        if k !in before {
          assert k !in seen;
          UnnamedIsUnset(links[..i], k);
        }
      }
      i := i + 1;
    }
    assert links[..i] == links;
  }

  /** The node list of the script (script.js:33-68): one node per distinct
      endpoint, in order of first appearance, each in the group the last
      relevant link gave it and with that group's radius. */
  method DeriveNodes(links: seq<Link>) returns (nodes: seq<Node>)
    ensures FirstAppearanceOrder(Ids(nodes), Endpoints(links))
    ensures forall i :: 0 <= i < |nodes| ==>
              nodes[i].group == GroupAfter(links, nodes[i].id) &&
              nodes[i].r == Some(Radius(nodes[i].group))
    ensures |nodes| == |set k | k in Endpoints(links)|
  {
    var m := BuildNodeMap(links);
    var values := m.Values();
    var arr := new Node[|values|](j requires 0 <= j < |values| => values[j]);
    AssignRadii(arr);
    nodes := arr[..];
    RadiusPassKeepsDerivation(links, m.keys, m.entries, nodes);
  }

  /** The list the radius pass makes of the map's values keeps everything
      the map promised: ids in first-appearance order, one per distinct
      endpoint, the folded group, and now the group's radius. */
  lemma RadiusPassKeepsDerivation(links: seq<Link>, keys: seq<Cell>, entries: map<Cell, Node>, nodes: seq<Node>)
    requires FirstAppearanceOrder(keys, Endpoints(links))
    requires forall k :: k in entries <==> k in keys
    requires forall k :: k in entries ==> entries[k] == Node(k, GroupAfter(links, k), None)
    requires |nodes| == |keys|
    requires forall j :: 0 <= j < |keys| ==>
               nodes[j] == entries[keys[j]].(r := Some(Radius(entries[keys[j]].group)))
    ensures FirstAppearanceOrder(Ids(nodes), Endpoints(links))
    ensures forall i :: 0 <= i < |nodes| ==>
              nodes[i].group == GroupAfter(links, nodes[i].id) &&
              nodes[i].r == Some(Radius(nodes[i].group))
    ensures |nodes| == |set k | k in Endpoints(links)|
  {
    assert Ids(nodes) == keys;
    OrderCount(keys, Endpoints(links));
  }
}
