/** Volume helpers of the watch: the maximum of a download's `Volume` column and
    the scale `format_volume` picks for a volume. */
module Volumes {

  /** The unit `format_volume` prints a volume in. */
  datatype Scale = Millions | Thousands | Units

  /** The tier test of `format_volume`: the largest unit the volume reaches,
      units below a thousand. */
  function VolumeScale(volume: int): (s: Scale)
    ensures s == Units <==> volume < 1_000
    ensures s != Units ==> Divisor(s) <= volume
    ensures s != Millions ==> volume < 1_000 * Divisor(s)
  {
    if volume >= 1_000_000 then Millions
    else if volume >= 1_000 then Thousands
    else Units
  }

  /** The suffix printed after the scaled number; only `str(volume)` has none. */
  function Suffix(s: Scale): (text: string)
    ensures |text| <= 1
    ensures text == "" <==> s == Units
  {
    match s
    case Millions => "M"
    case Thousands => "K"
    case Units => ""
  }

  /** What the volume is divided by before printing: a million, a thousand, or
      one for the unscaled `str(volume)`. */
  function Divisor(s: Scale): (d: int)
    ensures d > 0
  {
    match s
    case Millions => 1_000_000
    case Thousands => 1_000
    case Units => 1
  }

  function Rank(s: Scale): int {
    match s
    case Units => 0
    case Thousands => 1
    case Millions => 2
  }

  /** The exact quotient of a positive volume by its tier's divisor is at least
      1, and below 1000 outside millions. This is the quotient before `.2f`
      rounding, which can still print `1000.00K`. */
  lemma ScaleMantissa(volume: int)
    requires volume >= 1
    ensures var q := volume as real / Divisor(VolumeScale(volume)) as real;
      1.0 <= q && (VolumeScale(volume) != Millions ==> q < 1000.0)
  {
    var d := Divisor(VolumeScale(volume)) as real;
    var q := volume as real / d;
    assert q * d == volume as real;
    if VolumeScale(volume) == Thousands {
      assert q * 1000.0 < 1000000.0;
    }
  }

  /** A larger volume never gets a smaller unit. */
  lemma ScaleMonotone(a: int, b: int)
    requires a <= b
    ensures Rank(VolumeScale(a)) <= Rank(VolumeScale(b))
  {
  }

  /** `one_hour_data['Volume'].max()` of a non-empty download. */
  function MaxVolume(volumes: seq<int>): (m: int)
    requires volumes != []
    ensures m in volumes
    ensures forall i :: 0 <= i < |volumes| ==> volumes[i] <= m
  {
    if |volumes| == 1 then volumes[0]
    else
      var rest := MaxVolume(volumes[1..]);
      if volumes[0] >= rest then volumes[0] else rest
  }

  /** The start-up example: volumes 100, 150, 200, 120, 90 give a maximum of
      200, printed unscaled. */
  lemma StartScenario()
    ensures MaxVolume([100, 150, 200, 120, 90]) == 200
    ensures VolumeScale(200) == Units && Suffix(Units) == ""
  {
  }
}
