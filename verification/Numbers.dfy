/** Number types and functions used across the model. */
module Numbers {
  type Byte = x: int | 0 <= x < 256

  type Positive = x: int | x >= 1 witness 1

  function Min(a: int, b: int): int { if a < b then a else b }

  function Max(a: int, b: int): int { if a < b then b else a }
}
