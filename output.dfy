/**
 * The indicator output type.  `OutputType` belongs to the external utility
 * crate: its `Single` and `Array` variants are the ones indicators produce;
 * every other variant (placeholders, custom and static outputs) is kept only as
 * an opaque tag.  The model's reals have no NaN, so a `Single` holding NaN
 * (an on-balance volume after a candle without volume) is written `SingleNaN`.
 */
module Output {
  import opened Wrappers

  datatype OutputType = Single(x: real) | SingleNaN | Array(xs: seq<real>) | Other(tag: nat)

  /** The five comparisons a condition leaf can ask for. */
  datatype Relation = Gt | Lt | Eq | Ge | Le

  /** The plain relation between two reals. */
  function Holds(rel: Relation, a: real, b: real): bool
  {
    match rel
    case Gt => a > b
    case Lt => a < b
    case Eq => a == b
    case Ge => a >= b
    case Le => a <= b
  }

  /** The negation of each relation is its complement on reals. */
  lemma ComplementaryRelations(a: real, b: real)
    ensures Holds(Le, a, b) == !Holds(Gt, a, b)
    ensures Holds(Ge, a, b) == !Holds(Lt, a, b)
    ensures Holds(Eq, a, b) == (Holds(Le, a, b) && Holds(Ge, a, b))
  {
  }

  /** Number of values an indicator emits per step. */
  datatype OutputShape = Shape(n: nat)

  /** The shape an output value has. */
  function ShapeOf(o: OutputType): Option<nat>
  {
    match o
    case Single(_) => Some(1)
    case SingleNaN => Some(1)
    case Array(xs) => Some(|xs|)
    case Other(_) => None
  }
}
