/** The link records loaded from `data.csv`, and the rule that turns a link's
    `value` into the target distance handed to the force layout
    (script.js:80). */
module Links {

  /** A CSV cell as the script sees it: the column's text, or `undefined`
      when the row has no such column. The script never validates a row, so
      an `Undefined` source or target becomes a node id like any other. */
  datatype Cell = Undefined | Str(text: string)

  /** The `value` column. Every CSV cell is a string, so what matters is
      whether it is truthy (any non-empty string, "0" included) and which
      number the division `value / 10` converts it to. */
  datatype Amount =
    | Absent            // no such column: `undefined`, falsy
    | Blank             // the empty string, falsy
    | Numeric(n: real)  // a non-empty string that converts to the number n
    | NotNumeric        // a non-empty string that converts to NaN

  /** One row of the CSV file. */
  datatype Link = Link(source: Cell, target: Cell, linkType: Cell, value: Amount)

  /** The three link types the script recognises. */
  const CompanyField := Str("Company-Field")
  const FieldRole := Str("Field-Role")
  const RoleCompany := Str("Role-Company")

  /** A JavaScript number as far as this script can produce one: finite, or NaN. */
  datatype Num = Finite(v: real) | NaN

  predicate Truthy(a: Amount) {
    a.Numeric? || a.NotNumeric?
  }

  const DefaultDistance: real := 100.0
  const MinDistance: real := 50.0

  /** `Math.max(MinDistance, x)`. */
  function AtLeastMin(x: real): real {
    if x < MinDistance then MinDistance else x
  }

  /** The link force's distance for `link`: `max(50, 200 - value/10)` when
      the value is truthy, 100 otherwise. A truthy value that is not a
      number makes the subtraction NaN, and `Math.max` with a NaN is NaN. */
  function LinkDistance(link: Link): (d: Num)
    ensures !Truthy(link.value) ==> d == Finite(DefaultDistance)
    ensures link.value.NotNumeric? ==> d == NaN
    ensures link.value.Numeric? ==>
              && d.Finite?
              && d.v >= MinDistance
              && d.v >= 200.0 - link.value.n / 10.0
              && (d.v == MinDistance || d.v == 200.0 - link.value.n / 10.0)
  {
    if !Truthy(link.value) then Finite(DefaultDistance)
    else match link.value
      case Numeric(n) => Finite(AtLeastMin(200.0 - n / 10.0))
      case _ => NaN
  }

  /** A larger value never pushes the endpoints further apart. */
  lemma DistanceNonIncreasing(a: Link, b: Link)
    requires a.value.Numeric? && b.value.Numeric?
    requires a.value.n <= b.value.n
    ensures LinkDistance(b).v <= LinkDistance(a).v
  {
  }

  /** From a value of 1500 on, the distance stays at its floor of 50. */
  lemma DistanceFloor(link: Link)
    requires link.value.Numeric? && link.value.n >= 1500.0
    ensures LinkDistance(link) == Finite(MinDistance)
  {
  }

  /** Below 1500 the floor is not reached and the distance is exactly
      `200 - value/10`. */
  lemma DistanceAboveFloor(link: Link)
    requires link.value.Numeric? && link.value.n < 1500.0
    ensures LinkDistance(link) == Finite(200.0 - link.value.n / 10.0)
    ensures LinkDistance(link).v > MinDistance
  {
  }

  /** Worked values: 500 gives 150, 100 gives 190, 50 gives 195, 2000 gives
      50, the string "0" gives 200, and a missing or empty value gives 100. */
  lemma DistanceExamples(s: Cell, t: Cell, ty: Cell)
    ensures LinkDistance(Link(s, t, ty, Numeric(500.0))) == Finite(150.0)
    ensures LinkDistance(Link(s, t, ty, Numeric(100.0))) == Finite(190.0)
    ensures LinkDistance(Link(s, t, ty, Numeric(50.0))) == Finite(195.0)
    ensures LinkDistance(Link(s, t, ty, Numeric(2000.0))) == Finite(50.0)
    ensures LinkDistance(Link(s, t, ty, Numeric(0.0))) == Finite(200.0)
    ensures LinkDistance(Link(s, t, ty, Absent)) == Finite(100.0)
    ensures LinkDistance(Link(s, t, ty, Blank)) == Finite(100.0)
  {
  }
}
