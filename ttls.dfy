/**
  Ttls.toSeconds(ttl, min, max) converts a Duration to a whole number of seconds bounded by [min, max].
  Its source is not part of this model: the definition below is an assumption, namely that it clamps
  Duration.getSeconds() into the range.
*/
module Ttls {
  import opened JavaTypes

  function Clamp(x: int, lo: int, hi: int): (r: int)
    requires lo <= hi
    ensures lo <= r <= hi
    ensures lo <= x <= hi ==> r == x
    ensures x < lo ==> r == lo
    ensures hi < x ==> r == hi
  {
    if x < lo then lo else if hi < x then hi else x
  }

  /** The assumed contract: the result lies in [min, max] and is the duration's seconds when those do. */
  function ToSeconds(ttl: Duration, min: Int, max: Int): (r: Int)
    requires min <= max
    ensures min <= r <= max
    ensures min <= ttl.seconds <= max ==> r == ttl.seconds
  {
    Clamp(ttl.seconds, min, max)
  }
}
