/** The `?limit=` clamp the list handlers share: `Math.min(parseInt(limit) || dflt, cap)`. */
module Query {
  import opened Wrappers
  import opened Numeric

  /** A query parameter after `parseInt`: NaN when it is absent. */
  function QueryInt(param: Option<string>): Num {
    match param
    case None => NaN
    case Some(s) => ParseInt(s)
  }

  /** `n || dflt`: NaN and 0 are falsy and give way to the default. */
  function OrDefault(n: Num, dflt: int): int {
    match n
    case Int(v) => if v != 0 then v else dflt
    case NaN => dflt
  }

  function Min(a: int, b: int): int {
    if a <= b then a else b
  }

  /** `Math.min(parseInt(param) || dflt, cap)`. */
  function ClampLimit(param: Option<string>, dflt: int, cap: int): (limit: int)
    ensures limit <= cap
    ensures limit == cap || limit == OrDefault(QueryInt(param), dflt)
  {
    Min(OrDefault(QueryInt(param), dflt), cap)
  }

  /**
    * With a default in `1..cap`, an absent, zero or unparsable parameter yields the default, a
    * positive one is capped, and the limit falls below one exactly when the parameter is a
    * negative number, which the clamp lets through.
    */
  lemma ClampLimitRange(param: Option<string>, dflt: int, cap: int)
    requires 1 <= dflt <= cap
    ensures var n := QueryInt(param); var limit := ClampLimit(param, dflt, cap);
      && (n.NaN? || n == Int(0) ==> limit == dflt)
      && (n.Int? && n.value > 0 ==> 1 <= limit == Min(n.value, cap))
      && (limit < 1 <==> n.Int? && n.value < 0)
  {
  }
}
