/**
 * Mapping the number of `-A` flags onto GitLab's ordinal access scale
 * (`into_access_level` in src/main.rs).
 */
module AccessLevels {
  import opened Wrappers

  /** An unsigned 8-bit integer: clap counts the `-A` occurrences into one. */
  type u8 = x: int | 0 <= x < 256

  /** GitLab's access scale, from least to most privileged. */
  datatype AccessLevel = Guest | Reporter | Developer | Maintainer | Owner

  /** The position of a level on the scale: Guest is 1, Owner is 5. */
  function Ordinal(level: AccessLevel): (n: int)
    ensures 1 <= n <= 5
  {
    match level
    case Guest => 1
    case Reporter => 2
    case Developer => 3
    case Maintainer => 4
    case Owner => 5
  }

  /** The scale's order: `a` grants no more than `b`. */
  predicate AtMost(a: AccessLevel, b: AccessLevel) {
    Ordinal(a) <= Ordinal(b)
  }

  /** Rust's `Ord::clamp`, which panics unless `min <= max`. */
  function Clamp(x: int, min: int, max: int): (r: int)
    requires min <= max
    ensures min <= r <= max
    ensures min <= x <= max ==> r == x
    ensures x < min ==> r == min
    ensures max < x ==> r == max
  {
    if x < min then min else if x > max then max else x
  }

  /** The error arm of the conversion, carrying the offending number. */
  datatype ConversionError = InvalidAccessLevel(n: int)

  /**
   * The flag count clamped into 1..5 and mapped onto the scale. The error arm
   * is kept as written; the contract shows no input reaches it.
   */
  function IntoAccessLevel(count: u8): (r: Result<AccessLevel, ConversionError>)
    ensures r.Ok?
    ensures count <= 1 ==> r.value == Guest
    ensures count >= 5 ==> r.value == Owner
    ensures 1 <= count <= 5 ==> Ordinal(r.value) == count
  {
    var clamped := Clamp(count, 1, 5);
    match clamped
    case 1 => Ok(Guest)
    case 2 => Ok(Reporter)
    case 3 => Ok(Developer)
    case 4 => Ok(Maintainer)
    case 5 => Ok(Owner)
    case a => Err(InvalidAccessLevel(a))
  }

  /** More `-A` flags never ask for a lower level. */
  lemma IntoAccessLevelMonotone(a: u8, b: u8)
    requires a <= b
    ensures AtMost(IntoAccessLevel(a).value, IntoAccessLevel(b).value)
  {
  }

  /** Every level is reachable, by exactly its ordinal number of flags. */
  lemma OrdinalRoundTrip(level: AccessLevel)
    ensures IntoAccessLevel(Ordinal(level)) == Ok(level)
  {
  }

  /** Two counts select the same level exactly when they agree after clamping. */
  lemma SameLevelIffSameClamp(a: u8, b: u8)
    ensures IntoAccessLevel(a) == IntoAccessLevel(b) <==> Clamp(a, 1, 5) == Clamp(b, 1, 5)
  {
  }

  /** `AtMost` is a total order on the five levels. */
  lemma AtMostIsTotalOrder(a: AccessLevel, b: AccessLevel, c: AccessLevel)
    ensures AtMost(a, a)
    ensures AtMost(a, b) && AtMost(b, a) ==> a == b
    ensures AtMost(a, b) && AtMost(b, c) ==> AtMost(a, c)
    ensures AtMost(a, b) || AtMost(b, a)
  {
  }

  /** The levels listed in the `-A` help text, and the default of no flag. */
  lemma HelpTextLevels()
    ensures IntoAccessLevel(0) == Ok(Guest)
    ensures IntoAccessLevel(1) == Ok(Guest)
    ensures IntoAccessLevel(2) == Ok(Reporter)
    ensures IntoAccessLevel(3) == Ok(Developer)
    ensures IntoAccessLevel(4) == Ok(Maintainer)
    ensures IntoAccessLevel(5) == Ok(Owner)
    ensures IntoAccessLevel(9) == Ok(Owner)
    ensures IntoAccessLevel(255) == Ok(Owner)
  {
  }
}
