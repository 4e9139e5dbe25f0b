/** `Math.min`/`min`, `Math.max`/`max` and `Math.abs`/`abs` on the reals both scorers compute with. */
module Numbers {

  function Min(a: real, b: real): real {
    if a <= b then a else b
  }

  function Max(a: real, b: real): real {
    if a >= b then a else b
  }

  function Abs(x: real): real {
    if x < 0.0 then -x else x
  }
}
