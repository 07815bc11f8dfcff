/** What the script itself does with a node once the force layout owns it:
    the label's vertical position in the tick handler (script.js:134) and the
    pin fields the drag handlers set and clear (script.js:138-153). */
module Layout {
  import opened Wrappers
  import opened Links
  import opened Groups
  import opened Derivation

  /** The label's y coordinate, `d.y + d.r + 10`: NaN while `r` is undefined. */
  function LabelY(y: real, r: Option<int>): (ly: Num)
    ensures ly.NaN? <==> r.None?
    ensures r.Some? ==> ly.v - y - r.value as real == 10.0
  {
    match r
    case Some(radius) => Finite(y + radius as real + 10.0)
    case None => NaN
  }

  /** Below a derived node the label sits ten units under the circle's lower
      edge: 25 under the centre for a company, 20 for a field, 17 for a role
      and 15 for anything else. */
  lemma LabelBelowCircle(y: real, n: Node)
    requires n.r == Some(Radius(n.group))
    ensures LabelY(y, n.r).Finite?
    ensures y + n.r.value as real < LabelY(y, n.r).v
    ensures LabelY(y, n.r).v - y in {25.0, 20.0, 17.0, 15.0}
    ensures n.group == Company <==> LabelY(y, n.r).v - y == 25.0
  {
  }

  /** A node as the force layout holds it: the derived node, the position
      the layout computes, and the pinned position `fx`/`fy` (`null` or
      undefined when free). */
  class SimNode {
    var datum: Node
    var x: real
    var y: real
    var fx: Option<real>
    var fy: Option<real>

    /** A node handed to the layout at the layout's starting position, free. */
    constructor (n: Node, x0: real, y0: real)
      ensures datum == n && x == x0 && y == y0
      ensures fx == None && fy == None
    {
      datum, x, y := n, x0, y0;
      fx, fy := None, None;
    }

    predicate Pinned()
      reads this
    {
      fx.Some? && fy.Some?
    }

    /** `dragstarted`: pin the node where it currently is. */
    method DragStarted()
      modifies this
      ensures Pinned() && fx == Some(x) && fy == Some(y)
      ensures datum == old(datum) && x == old(x) && y == old(y)
    {
      fx := Some(x);
      fy := Some(y);
    }

    /** `dragged`: move the pin to the pointer. */
    method Dragged(pointerX: real, pointerY: real)
      modifies this
      ensures Pinned() && fx == Some(pointerX) && fy == Some(pointerY)
      ensures datum == old(datum) && x == old(x) && y == old(y)
    {
      fx := Some(pointerX);
      fy := Some(pointerY);
    }

    /** `dragended`: release the pin. */
    method DragEnded()
      modifies this
      ensures !Pinned() && fx == None && fy == None
      ensures datum == old(datum) && x == old(x) && y == old(y)
    {
      fx := None;
      fy := None;
    }
  }
}
