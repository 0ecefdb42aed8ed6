/**
 Minimum, maximum and absolute value.
 */
module Numbers {
  function Min(a: nat, b: nat): nat { if a < b then a else b }
  function Max(a: nat, b: nat): nat { if a < b then b else a }
  function Abs(x: real): real { if x < 0.0 then -x else x }
}
