/** A colour with integer channels and a decimal alpha (`io.kraken.client.model.RGBA`). */
module RGBA {
  import opened Wrappers
  import opened Preconditions
  import opened Decimal

  /** A constructed colour; the getters return these fields. */
  datatype RGBA = RGBA(red: int, green: int, blue: int, alpha: Decimal)

  /** The range the constructor accepts for red, green and blue: 0 to 256, both included. */
  predicate InChannelRange(v: int) {
    0 <= v <= 256
  }

  /** The range the constructor accepts for alpha: 0 to 1 by value, both included. */
  predicate InAlphaRange(a: Decimal) {
    0.0 <= Value(a) <= 1.0
  }

  predicate Valid(c: RGBA) {
    InChannelRange(c.red) && InChannelRange(c.green) && InChannelRange(c.blue) && InAlphaRange(c.alpha)
  }

  /** The constructor: four null checks, then the range checks of red, green, blue and alpha,
      in that order. The alpha check's message names red. */
  function New(red: Option<int>, green: Option<int>, blue: Option<int>, alpha: Option<Decimal>): (r: Result<RGBA, Failure>)
    ensures r.Ok? <==>
      && red.Some? && green.Some? && blue.Some? && alpha.Some?
      && InChannelRange(red.value) && InChannelRange(green.value) && InChannelRange(blue.value)
      && InAlphaRange(alpha.value)
    ensures r.Ok? ==> r.value == RGBA(red.value, green.value, blue.value, alpha.value) && Valid(r.value)
    ensures (red.None? || green.None? || blue.None? || alpha.None?) ==> r.Err? && r.error.NullPointerException?
  {
    if red.None? then Err(NullPointerException("red must not be null"))
    else if green.None? then Err(NullPointerException("green must not be null"))
    else if blue.None? then Err(NullPointerException("blue must not be null"))
    else if alpha.None? then Err(NullPointerException("alpha must not be null"))
    else if !(red.value >= 0 && red.value <= 256) then Err(IllegalArgumentException("red must be between 0-256"))
    else if !(green.value >= 0 && green.value <= 256) then Err(IllegalArgumentException("green must be between 0-256"))
    else if !(blue.value >= 0 && blue.value <= 256) then Err(IllegalArgumentException("blue must be between 0-256"))
    else if !(CompareTo(alpha.value, ValueOfZeroPointZero) > -1 && CompareTo(alpha.value, ValueOfOnePointZero) < 1) then
      Err(IllegalArgumentException("red must be between 0-1"))
    else Ok(RGBA(red.value, green.value, blue.value, alpha.value))
  }

  /** 0 and 256 are accepted for a channel; -1 and 257 are not. */
  lemma ChannelBoundaries(a: Decimal)
    requires InAlphaRange(a)
    ensures New(Some(0), Some(256), Some(256), Some(a)).Ok?
    ensures New(Some(257), Some(0), Some(0), Some(a)) == Err(IllegalArgumentException("red must be between 0-256"))
    ensures New(Some(0), Some(-1), Some(0), Some(a)) == Err(IllegalArgumentException("green must be between 0-256"))
    ensures New(Some(0), Some(0), Some(257), Some(a)) == Err(IllegalArgumentException("blue must be between 0-256"))
  {
  }

  /** Alpha is compared by value: 1, 1.0 and 1.00 are all accepted, as is 0; 1.01 and
      -0.001 are refused with the message that names red. */
  lemma AlphaComparedByValue()
    ensures New(Some(1), Some(2), Some(3), Some(Decimal(1, 0))).Ok?
    ensures New(Some(1), Some(2), Some(3), Some(Decimal(10, 1))).Ok?
    ensures New(Some(1), Some(2), Some(3), Some(Decimal(100, 2))).Ok?
    ensures New(Some(1), Some(2), Some(3), Some(Decimal(0, 0))).Ok?
    ensures New(Some(1), Some(2), Some(3), Some(Decimal(101, 2))) == Err(IllegalArgumentException("red must be between 0-1"))
    ensures New(Some(1), Some(2), Some(3), Some(Decimal(-1, 3))) == Err(IllegalArgumentException("red must be between 0-1"))
  {
    assert Pow10(2) == 100;
    assert Pow10(3) == 1000;
  }

  /** The null checks all run before any range check: a missing alpha is reported even
      when red is out of range. */
  lemma NullChecksComeFirst(red: int)
    ensures New(Some(red), Some(0), Some(0), None) == Err(NullPointerException("alpha must not be null"))
  {
  }
}
