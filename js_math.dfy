/** JavaScript's `Math.min` and `Math.max` on finite numbers, shared by the gesture and splash-screen models. */
module JsMath {

  function MathMin(a: real, b: real): real {
    if a <= b then a else b
  }

  function MathMax(a: real, b: real): real {
    if a >= b then a else b
  }
}
