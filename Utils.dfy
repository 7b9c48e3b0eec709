/** The integer logic of `Utils.kt`: the relative-time label of a story's
    creation time, the rotation an EXIF orientation asks for, and the JPEG
    quality search that keeps an upload under the size cap. */
module Utils {

  // ---------------------------------------------------------------------
  // formatDate

  /** The label `formatDate` returns; the strings themselves are resources
      of the app and not modelled. `Absolute` carries the instant that
      `SimpleDateFormat("d MMMM yyyy, HH:mm:ss")` then renders. */
  datatype DateLabel =
    | JustNow
    | MinutesAgo(minutes: int)
    | HoursAgo(hours: int)
    | Absolute(instant: int)
    | InvalidDate

  /** The result of parsing the creation time: an instant in milliseconds,
      `null`, or a thrown exception. */
  datatype ParsedDate = Parsed(millis: int) | ParsedNull | ParseFailed

  const MILLIS_PER_MINUTE: int := 60000
  const MINUTES_PER_HOUR: int := 60

  /** Java's division of `long` values, rounding toward zero. */
  function JavaDiv(a: int, b: int): (q: int)
    requires b > 0
    ensures a >= 0 ==> q == a / b
    ensures a < 0 ==> q == -((-a) / b)
  {
    if a >= 0 then a / b else -((-a) / b)
  }

  /** `TimeUnit.MILLISECONDS.toMinutes`. */
  function ToMinutes(millis: int): (minutes: int)
    ensures millis >= 0 ==> 0 <= minutes && minutes * 60000 <= millis < (minutes + 1) * 60000
    ensures millis < 0 ==> minutes <= 0 && (minutes - 1) * 60000 < millis <= minutes * 60000
  {
    JavaDiv(millis, MILLIS_PER_MINUTE)
  }

  /** `TimeUnit.MINUTES.toHours`. */
  function ToHours(minutes: int): (hours: int)
    ensures minutes >= 0 ==> 0 <= hours && hours * 60 <= minutes < (hours + 1) * 60
    ensures minutes < 0 ==> hours <= 0 && (hours - 1) * 60 < minutes <= hours * 60
  {
    JavaDiv(minutes, MINUTES_PER_HOUR)
  }

  /** `formatDate`: the parse outcome and the current instant are inputs.
      Moving the calendar to another time zone does not change the instant it
      holds, so the difference is taken between the parsed instant and now. */
  function FormatDate(parsed: ParsedDate, now: int): (shown: DateLabel)
    ensures shown.InvalidDate? <==> !parsed.Parsed?
    ensures shown.MinutesAgo? ==> 1 <= shown.minutes < 60
    ensures shown.HoursAgo? ==> 1 <= shown.hours < 24
    ensures shown.Absolute? ==> shown.instant == parsed.millis
  {
    match parsed
    case Parsed(date) =>
      var diffInMinutes := ToMinutes(now - date);
      if diffInMinutes < 1 then JustNow
      else if diffInMinutes < 60 then MinutesAgo(diffInMinutes)
      else
        var diffInHours := ToHours(diffInMinutes);
        if diffInHours < 24 then HoursAgo(diffInHours)
        else Absolute(date)
    case ParsedNull => InvalidDate
    case ParseFailed => InvalidDate
  }

  /** Whole hours of a non-negative millisecond span, taken through whole
      minutes, are its whole hours taken directly. */
  lemma HoursThroughMinutes(d: int)
    requires d >= 0
    ensures (d / 60000) / 60 == d / 3600000
  {
    var m, r1 := d / 60000, d % 60000;
    var h, r2 := m / 60, m % 60;
    assert d == 60000 * m + r1;
    assert m == 60 * h + r2;
    assert d == 3600000 * h + (60000 * r2 + r1);
    assert 0 <= 60000 * r2 + r1 < 3600000;
  }

  /** The labels by the millisecond difference `d` between now and the
      creation time: under a minute, including any time in the future, is
      "just now"; under an hour is the truncated minutes; under a day the
      truncated hours; a day or more the absolute date. */
  lemma {:induction false} FormatDateBuckets(created: int, now: int)
    ensures var d := now - created;
      var shown := FormatDate(Parsed(created), now);
      && (shown == JustNow <==> d < 60000)
      && (shown.MinutesAgo? <==> 60000 <= d < 3600000)
      && (shown.MinutesAgo? ==> shown.minutes == d / 60000)
      && (shown.HoursAgo? <==> 3600000 <= d < 86400000)
      && (shown.HoursAgo? ==> shown.hours == d / 3600000)
      && (shown.Absolute? <==> d >= 86400000)
  {
    var d := now - created;
    if d >= 0 {
      HoursThroughMinutes(d);
      assert d / 60000 < 1 <==> d < 60000;
      assert d / 60000 < 60 <==> d < 3600000;
      assert d / 3600000 < 24 <==> d < 86400000;
    } else {
      assert ToMinutes(d) <= 0;
    }
  }

  // ---------------------------------------------------------------------
  // getRotatedBitmap

  /** The EXIF orientation values `getRotatedBitmap` distinguishes, with
      `ExifInterface`'s numbering; a missing tag reads as undefined. */
  const ORIENTATION_UNDEFINED: int := 0
  const ORIENTATION_NORMAL: int := 1
  const ORIENTATION_ROTATE_180: int := 3
  const ORIENTATION_ROTATE_90: int := 6
  const ORIENTATION_ROTATE_270: int := 8

  /** What `getRotatedBitmap` does to the bitmap: rotate it by a number of
      degrees, or return it as it is. */
  datatype Rotation = RotateBy(degrees: int) | Unchanged

  /** The `when (orientation)` of `getRotatedBitmap`. */
  function GetRotatedBitmap(orientation: int): (r: Rotation)
    ensures r.RotateBy? <==> orientation in {ORIENTATION_ROTATE_90, ORIENTATION_ROTATE_180, ORIENTATION_ROTATE_270}
    ensures r.RotateBy? ==> r.degrees in {90, 180, 270}
  {
    if orientation == ORIENTATION_ROTATE_90 then RotateBy(90)
    else if orientation == ORIENTATION_ROTATE_180 then RotateBy(180)
    else if orientation == ORIENTATION_ROTATE_270 then RotateBy(270)
    else if orientation == ORIENTATION_NORMAL then Unchanged
    else Unchanged
  }

  /** The orientation tag that asks for a rotation by `degrees`. */
  function OrientationFor(degrees: int): (orientation: int)
    requires degrees in {90, 180, 270}
  {
    if degrees == 90 then ORIENTATION_ROTATE_90
    else if degrees == 180 then ORIENTATION_ROTATE_180
    else ORIENTATION_ROTATE_270
  }

  /** Each rotating orientation asks for a different angle, and each angle
      comes from exactly one orientation. */
  lemma {:induction false} RotationRoundTrip(orientation: int, degrees: int)
    requires degrees in {90, 180, 270}
    ensures GetRotatedBitmap(OrientationFor(degrees)) == RotateBy(degrees)
    ensures GetRotatedBitmap(orientation) == RotateBy(degrees) <==> orientation == OrientationFor(degrees)
  {
  }

  /** A normal orientation, a missing tag and any other value leave the
      bitmap unchanged. */
  lemma NoRotation(orientation: int)
    requires orientation !in {ORIENTATION_ROTATE_90, ORIENTATION_ROTATE_180, ORIENTATION_ROTATE_270}
    ensures GetRotatedBitmap(orientation) == Unchanged
    ensures GetRotatedBitmap(ORIENTATION_NORMAL) == Unchanged && GetRotatedBitmap(ORIENTATION_UNDEFINED) == Unchanged
  {
  }

  // ---------------------------------------------------------------------
  // reduceFileImage

  /** The size cap of an uploaded photo, in bytes. */
  const MAXIMAL_SIZE: int := 1000000

  /** How the final `compress` ends: the file written at `quality`, after
      `lastMeasured` was the quality whose size fit; or `compress` rejecting a
      quality outside 0..100 with an exception. */
  datatype Compression = Written(quality: int, lastMeasured: int) | Rejected(quality: int)

  /** Every quality tried before `t`, from 100 down in steps of 5, gave a
      stream over the cap. */
  ghost predicate AllAboveTooLarge(size: int -> nat, t: int)
  {
    forall q :: t < q <= 100 && q % 5 == 0 ==> size(q) > MAXIMAL_SIZE
  }

  /** `reduceFileImage`. `size(q)` is the length of the JPEG stream at
      quality `q`, for a quality in 0..100; `compress` throws for any other
      quality. The loop lowers the quality by 5 after every attempt and stops
      at the first stream within the cap; the file is then written with the
      quality after that last decrement, 5 below the one that fit. */
  method ReduceFileImage(size: int -> nat) returns (r: Compression)
    ensures r.Written? ==>
      && 5 <= r.lastMeasured <= 100 && r.lastMeasured % 5 == 0
      && size(r.lastMeasured) <= MAXIMAL_SIZE
      && AllAboveTooLarge(size, r.lastMeasured)
      && r.quality == r.lastMeasured - 5
    ensures r.Rejected? ==> r.quality == -5 && AllAboveTooLarge(size, 0)
  {
    var compressQuality := 100;
    var streamLength := size(compressQuality);
    compressQuality := compressQuality - 5;
    while streamLength > MAXIMAL_SIZE
      invariant -5 <= compressQuality <= 95 && compressQuality % 5 == 0
      invariant streamLength == size(compressQuality + 5)
      invariant AllAboveTooLarge(size, compressQuality + 5)
      decreases compressQuality
    {
      if compressQuality < 0 {
        return Rejected(compressQuality);
      }
      streamLength := size(compressQuality);
      compressQuality := compressQuality - 5;
    }
    if compressQuality < 0 {
      return Rejected(compressQuality);
    }
    r := Written(compressQuality, compressQuality + 5);
  }

  /** The loop as evidently intended: stop at the first quality within the
      cap, never go below 0, and write with the quality that was measured. */
  method ReduceFileImageBounded(size: int -> nat) returns (quality: int)
    ensures 0 <= quality <= 100 && quality % 5 == 0
    ensures AllAboveTooLarge(size, quality)
    ensures size(quality) <= MAXIMAL_SIZE || quality == 0
  {
    quality := 100;
    while quality > 0 && size(quality) > MAXIMAL_SIZE
      invariant 0 <= quality <= 100 && quality % 5 == 0
      invariant AllAboveTooLarge(size, quality)
      decreases quality
    {
      quality := quality - 5;
    }
  }

  /** A photo that fits the cap only at quality 0: the loop as written ends
      by asking `compress` for quality -5, which it rejects, while the bounded
      loop writes it at quality 0. */
  method NegativeQualityWitness() returns (asWritten: Compression, bounded: int)
    ensures asWritten == Rejected(-5)
    ensures bounded == 0
  {
    var size := (q: int) => if q >= 5 then 2000000 else 0;
    asWritten := ReduceFileImage(size);
    bounded := ReduceFileImageBounded(size);
    assert size(5) > MAXIMAL_SIZE;
  }
}
