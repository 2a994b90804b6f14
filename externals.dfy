/**
 * The routines the modelled code calls but whose source is not part of this
 * model, gathered into one parameter:
 *   - `sqrt`, `f64::sqrt` as used by the standard deviation;
 *   - `compare`, `OutputType::cmp_output` for every pair of outputs other than
 *     two `Single` values (external crate; may fail);
 *   - `rsi`, the relative strength index (rsi.rs is not part of this model):
 *     its output given its period and every input since construction or reset;
 *   - `trPeriod`, the period the true range reports (tr.rs is not part of this
 *     model);
 *   - `hashOrder`, the iteration order of the standard hash map a sequence
 *     node counts its actions in, given the distinct actions in the order they
 *     were first counted (only a permutation of them is used).
 */
module Externals {
  import opened Wrappers
  import opened Output
  import Actions

  datatype Env = Env(
    sqrt: real -> real,
    compare: (OutputType, OutputType, Relation) -> Result<bool>,
    rsi: (nat, seq<real>) -> real,
    trPeriod: nat,
    hashOrder: seq<Actions.Action> -> seq<Actions.Action>)

  /** What the model relies on about the square root: it is the non-negative root. */
  ghost predicate Sound(env: Env)
  {
    forall x: real :: x >= 0.0 ==> env.sqrt(x) >= 0.0 && env.sqrt(x) * env.sqrt(x) == x
  }

  lemma SqrtZero(env: Env)
    requires Sound(env)
    ensures env.sqrt(0.0) == 0.0
  {
    var r := env.sqrt(0.0);
    assert r >= 0.0 && r * r == 0.0;
    ZeroProduct(r, r);
  }

  lemma ZeroProduct(a: real, b: real)
    requires a * b == 0.0
    ensures a == 0.0 || b == 0.0
  {
    if a != 0.0 {
      assert b == (a * b) / a;
    }
  }

  lemma SqrtNonNegative(env: Env, x: real)
    requires Sound(env) && x >= 0.0
    ensures env.sqrt(x) >= 0.0
  {
  }

  /** A non-negative real is the root of its square. */
  lemma SqrtOfSquare(env: Env, r: real)
    requires Sound(env) && r >= 0.0
    ensures env.sqrt(r * r) == r
  {
    var s := env.sqrt(r * r);
    assert s >= 0.0 && s * s == r * r;
    assert (s - r) * (s + r) == 0.0;
    ZeroProduct(s - r, s + r);
  }

  /** Whether an output is a single value, NaN or not. */
  predicate IsSingle(o: OutputType) { o.Single? || o.SingleNaN? }

  /**
   * `a.cmp_output(b, op)`: two single values compare with the plain f64
   * relation, under which NaN satisfies none of the five; everything else goes
   * to the external comparison.
   */
  function CompareOutputs(env: Env, a: OutputType, b: OutputType, rel: Relation): (r: Result<bool>)
    ensures a.Single? && b.Single? ==> r == Ok(Holds(rel, a.x, b.x))
    ensures IsSingle(a) && IsSingle(b) && (a.SingleNaN? || b.SingleNaN?) ==> r == Ok(false)
    ensures !(IsSingle(a) && IsSingle(b)) ==> r == env.compare(a, b, rel)
  {
    if a.Single? && b.Single? then Ok(Holds(rel, a.x, b.x))
    else if IsSingle(a) && IsSingle(b) then Ok(false)
    else env.compare(a, b, rel)
  }
}
