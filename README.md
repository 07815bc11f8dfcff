# Graph derivation of the optics force-directed graph

The repository draws a force-directed graph of companies, fields and roles in
the browser. The d3 library does the drawing and the physics. The script
`script.js` adds one piece of logic of its own: it derives the node list from
the rows of `data.csv`, and it computes a few numbers it hands to the layout.
This project models that logic and proves what it guarantees:

- **Node derivation** (`Derivation`). One pass over the link rows builds an
  insertion-ordered `Map` from id to node (`NodeMap`, a class holding the key
  sequence and a map).
  - Each endpoint gets a node `{ id, group: "" }` the first time it is seen.
  - The link's type then overwrites the groups of both endpoints, source first
    and target second.
  - The map's values, in key order, become the node list.
  - A second pass gives every node the radius of its group.
- **Group inference** (`Groups`). `Written` gives the group one link leaves on
  a node. `GroupAfter` folds it over the links, so the last writer wins.
  `Radius` and `Fill` map the final group to 15/10/7/5 and to a colour.
- **First-appearance order** (`Appearance`). `Endpoints` lists every source
  and target in the order the loop reads them. `FirstAppearanceOrder` says a
  key list holds each distinct endpoint once, ordered by first occurrence. A
  lemma shows only one list has this property.
- **Link distance** (`Links`). The `value` column is a CSV string, modelled as
  `Absent | Blank | Numeric(n) | NotNumeric`. A truthy value (any non-empty
  string, `"0"` included) gives `max(50, 200 - value/10)`. A non-numeric one
  gives NaN. A missing or empty value gives 100.
- **Label and pinning** (`Layout`). The label's y is `y + r + 10`. The drag
  handlers set the pin `fx`/`fy` to the node's position, then to the pointer,
  then clear it. Nothing else about the node changes.

The script does no validation. A row without a `source` or `target` column
gives an `undefined` id (`Cell.Undefined`), and that id becomes a node like
any other.

A few consequences of the code that are easy to miss:
- New nodes start with the group `""` (script.js:38, 42). There is no separate "unknown" group.
- A missing endpoint raises no error.
- `value` is a string, so `"0"` is truthy and gives distance 200 (script.js:80).
- A value of 100 gives distance 190.

## Model

| member | source | states |
|---|---|---|
| `Links.LinkDistance` | script.js:80 | A falsy value (absent or empty) gives 100. A non-numeric value gives NaN. A numeric value gives the maximum of 50 and `200 - value/10`: at least both, and equal to one of them. |
| `Links.DistanceNonIncreasing` | script.js:80 | A larger numeric value never gives a larger distance. |
| `Links.DistanceFloor` | script.js:80 | Every value of 1500 or more gives the floor distance 50. |
| `Links.DistanceAboveFloor` | script.js:80 | A value below 1500 gives exactly `200 - value/10`, which is above 50. |
| `Links.DistanceExamples` | script.js:80 | Worked values: 500→150, 100→190, 50→195, 2000→50, "0"→200, absent or empty→100. |
| `Groups.Written` | script.js:48-57 | A link writes a group on a node exactly when its type is one of the three known types and the node is its source or target. The source/target groups are Company-Field → company/field, Field-Role → field/role, Role-Company → role/company. On a self-loop the target's group wins. |
| `Groups.LastWriterWins` | script.js:35-58 | A node's final group is the one written by the last link that names it and has a known type. |
| `Groups.NeverWrittenIsUnset` | script.js:38-57 | A node that no link of a known type names keeps the group `""`. |
| `Groups.Roles` | script.js:48-57 | Exactly the three known link types write groups. Each writes two different groups out of company, field and role, one to the source and one to the target. |
| `Groups.GroupAfter` | script.js:35-58 | The last-writer-wins fold of the group writes over all links. Every final group is `""`, company, field or role. |
| `Groups.SelfLoopTakesTargetGroup` | script.js:49-50 | A final Company-Field self-loop leaves its node in group field, because the target write comes second. |
| `Groups.ScenarioGroups` | script.js:35-68 | For the links A→B (Company-Field) and B→C (Field-Role), A ends as company (radius 15), B as field (10) and C as role (7). |
| `Groups.Radius` | script.js:63-68 | Radius is 15 exactly for company, 10 exactly for field, 7 exactly for role, and 5 exactly for every other group, `""` included. |
| `Groups.Fill` | script.js:99-104 | Colour is steelblue, lightcoral or mediumseagreen exactly for company, field or role, and gray for every other group. |
| `Groups.RadiusMatchesFill` | script.js:63-104 | Two groups get the same radius exactly when they get the same colour. |
| `Appearance.Endpoints` | script.js:35-43 | The endpoint list holds two entries per link, the source at `2i` and the target at `2i+1`, in link order. |
| `Appearance.Extend` | script.js:37-43 | The keys after a `Map.set` keep the old keys as a prefix, contain the new key, and grow by at most one. |
| `Appearance.ExtendKeepsOrder` | script.js:37-43 | Each insert-if-absent keeps the keys in first-appearance order over the endpoints read so far. |
| `Appearance.FirstAppearanceOrderUnique` | script.js:60 | Only one key list holds every distinct endpoint once in first-appearance order, so the order of `nodes` is fully determined. |
| `Appearance.EndpointsResolveOnce` | script.js:37-43 | In such a list, every link's source and target each occur exactly once. |
| `Appearance.OrderCount` | script.js:60 | A key list in first-appearance order has exactly as many entries as there are distinct endpoints. |
| `Appearance.DistinctCount` | script.js:60 | A list without duplicates is as long as its set of elements. |
| `Derivation.NodeMap.constructor` | script.js:33 | `new Map()` starts with no keys and no entries. |
| `Derivation.NodeMap.Has` | script.js:37-43 | `has(k)` is true exactly when `k` is one of the map's keys. |
| `Derivation.NodeMap.Set` | script.js:37-43 | `set` stores the node under the key. A new key goes last and an existing key keeps its place. |
| `Derivation.NodeMap.SetGroup` | script.js:48-57 | `get(k).group = g` changes that node's group and nothing else. |
| `Derivation.NodeMap.Values` | script.js:60 | `Array.from(nodesMap.values())` holds one node per entry, the node stored under the i-th key at position i. |
| `Derivation.AddIfMissing` | script.js:37-43 | An absent id gets a new node `{ id, group: "" }` appended in key order. An existing node is left as it is. |
| `Derivation.AssignGroups` | script.js:48-57 | Each node's group becomes what the link writes on it, or stays the same when the link writes nothing. The keys do not change. |
| `Derivation.VisitLink` | script.js:35-58 | Source then target are appended if new. An existing node is never replaced: its id and radius stay and only its group may change. A new node has the id of its key. |
| `Derivation.UnnamedIsUnset` | script.js:37-43 | An id that no link has named so far has group `""`. This is why a node created mid-loop is consistent with the fold. |
| `Derivation.AssignRadii` | script.js:63-68 | Every node gets `r = Radius(group)`. Its id and group are unchanged. |
| `Derivation.BuildNodeMap` | script.js:33-58 | After the loop the keys are the distinct endpoints in first-appearance order. Each entry holds its own key as id and the last-writer-wins group, with no radius yet. |
| `Derivation.RadiusPassKeepsDerivation` | script.js:60-68 | Turning the map's values into a list and giving each its radius keeps the first-appearance order, the distinct-endpoint count and the folded groups. Each radius is its group's radius. |
| `Derivation.DeriveNodes` | script.js:33-68 | The node ids are the distinct endpoints, each once, in first-appearance order, and there are as many nodes as distinct endpoints. Each node's group is the last-writer-wins fold over all links, and its radius is that group's radius. |
| `Layout.LabelY` | script.js:134 | The label is 10 below the circle's lower edge, `y + r + 10`. It is NaN while `r` is undefined. |
| `Layout.LabelBelowCircle` | script.js:134 | For a derived node the label is strictly below the circle: 25, 20, 17 or 15 under the centre, and 25 exactly for a company. |
| `Layout.SimNode.DragStarted` | script.js:138-142 | The node is pinned at its current `x`/`y`. Position, id, group and radius are untouched. |
| `Layout.SimNode.Dragged` | script.js:144-147 | The pin follows the pointer. Position, id, group and radius are untouched. |
| `Layout.SimNode.DragEnded` | script.js:149-153 | The pin is cleared and the node is free. Position, id, group and radius are untouched. |

## Left out

- SVG container creation and styling (script.js:1-16): DOM plumbing.
- The d3 force simulation (script.js:19-27, 73-78): charge -300, centring, collision radius `r + 5` and link force. This physics lives in a foreign library; the model keeps only the distance rule the script hands it.
- `simulation.alphaTarget(...).restart()` and the `event.active` test in the drag handlers (script.js:139, 150): these change the library's state, not the node's.
- CSV loading, the promise and the `catch` that logs errors (script.js:31, 166-169): I/O. The loaded rows are the `links` parameter, and no row validation is added.
- Stroke width `sqrt(value)/5` (script.js:89): floating-point presentation only.
- The tick handler's other DOM updates (script.js:121-133): they copy library positions into attributes.
- Zoom (script.js:156-164): the `[0.1, 8]` clamp is enforced inside d3's zoom behaviour.
- Object identity: the script's node objects are shared by `nodesMap`, the `nodes` array and the simulation. The model stores nodes as values, so it does not capture that aliasing. The radius pass works on the array copy of the map's values.
- `Layout.SimNode.constructor`: the layout engine creates `x`/`y`, so the model takes them as parameters. It does not model how d3 places or moves nodes.
- `null` (after `dragended`) and `undefined` (before any drag) are both `None` for `fx`/`fy`; d3 treats both as "not pinned".
- JavaScript numbers are modelled as exact reals. The model has no rounding and no infinities: a value string such as `"Infinity"` is outside `Numeric`.
