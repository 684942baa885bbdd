/**
 * The arithmetic of `calculateChange`: per-second change in latitude and
 * longitude between the stored baseline and the current response.
 */
module Delta {
  import opened Json
  import opened Errors

  const LatitudeDelta := "latitudeDeltaPerSecond"
  const LongitudeDelta := "longitudeDeltaPerSecond"

  function Abs(x: real): (a: real)
    ensures a >= 0.0 && (a == x || a == -x)
  {
    if x < 0.0 then -x else x
  }

  function Min(x: real, y: real): real
  {
    if x <= y then x else y
  }

  /** Both latitudes strictly positive or both strictly negative. */
  predicate SameSign(lat: real, prev: real)
  {
    (lat > 0.0 && prev > 0.0) || (lat < 0.0 && prev < 0.0)
  }

  /** The path "across 180 degrees". */
  function Transverse(lat: real, prev: real): real
  {
    (180.0 - Abs(lat)) + (180.0 - Abs(prev))
  }

  /** The latitude distance: the plain difference on one side of the
      equator, otherwise the transverse path when it is below 180. */
  function LatDiff(lat: real, prev: real): (d: real)
    ensures SameSign(lat, prev) ==> d == Abs(lat - prev)
    ensures d <= Abs(lat - prev)
    ensures -180.0 <= lat <= 180.0 && -180.0 <= prev <= 180.0 ==> d >= 0.0
  {
    if SameSign(lat, prev) then Abs(lat - prev)
    else
      var transverse := Transverse(lat, prev);
      if transverse < 180.0 then transverse else Abs(lat - prev)
  }

  /** Across the equator the two candidate paths add up to 360, so the
      `< 180` test picks exactly the shorter one. */
  lemma LatDiffIsShorterPath(lat: real, prev: real)
    requires !SameSign(lat, prev)
    ensures Abs(lat - prev) + Transverse(lat, prev) == 360.0
    ensures LatDiff(lat, prev) == Min(Transverse(lat, prev), Abs(lat - prev))
  {
  }

  /** For latitudes in [-90, 90] the transverse path is never taken. */
  lemma ValidLatitudesUsePlainDifference(lat: real, prev: real)
    requires -90.0 <= lat <= 90.0 && -90.0 <= prev <= 90.0
    ensures LatDiff(lat, prev) == Abs(lat - prev)
  {
  }

  /** Out of range, the transverse path can come out negative. */
  lemma LatDiffNegativeOutOfRange()
    ensures LatDiff(200.0, -200.0) == -40.0
  {
  }

  /** `diff / time` in IEEE arithmetic: a NaN operand gives NaN, a zero
      time gives NaN (0/0) or an infinity (the difference of two equal
      timestamps is +0), and otherwise the quotient. */
  function Rate(diff: Option<real>, time: Option<real>): (v: Value)
    ensures v.Num? <==> diff.Some? && time.Some? && time.value != 0.0
    ensures v.Num? ==> v.n * time.value == diff.value
    ensures diff.Some? && time == Some(0.0) && diff.value != 0.0 ==> v == Infinity(diff.value < 0.0)
    ensures diff.None? || time.None? ==> v == NaN
    ensures diff == Some(0.0) && time == Some(0.0) ==> v == NaN
  {
    if diff.None? || time.None? then NaN
    else if time.value == 0.0 then
      (if diff.value == 0.0 then NaN else Infinity(diff.value < 0.0))
    else Num(diff.value / time.value)
  }

  /** `response.timestamp - previousObj.timestamp`. */
  function Elapsed(prev: Record, cur: Record): Option<real>
  {
    var t, pt := NumberAt(cur, "timestamp"), NumberAt(prev, "timestamp");
    if t.Some? && pt.Some? then Some(t.value - pt.value) else None
  }

  function LonDiffOf(prev: Record, cur: Record): Option<real>
  {
    var lon, plon := NumberAt(cur, "longitude"), NumberAt(prev, "longitude");
    if lon.Some? && plon.Some? then Some(Abs(lon.value - plon.value)) else None
  }

  function LatDiffOf(prev: Record, cur: Record): Option<real>
  {
    var lat, plat := NumberAt(cur, "latitude"), NumberAt(prev, "latitude");
    if lat.Some? && plat.Some? then Some(LatDiff(lat.value, plat.value)) else None
  }

  /** The current response with the two delta fields added. */
  function Augment(prev: Record, cur: Record): (r: Record)
    ensures r.Keys == cur.Keys + {LatitudeDelta, LongitudeDelta}
    ensures forall k :: k in cur && k != LatitudeDelta && k != LongitudeDelta ==> r[k] == cur[k]
  {
    cur[LatitudeDelta := Rate(LatDiffOf(prev, cur), Elapsed(prev, cur))]
       [LongitudeDelta := Rate(LonDiffOf(prev, cur), Elapsed(prev, cur))]
  }

  /** With numeric fields and distinct timestamps, the added fields are the
      distances of the delta rule divided by the elapsed time. */
  lemma AugmentRates(prev: Record, cur: Record)
    requires NumberAt(prev, "timestamp").Some? && NumberAt(cur, "timestamp").Some?
    requires NumberAt(prev, "latitude").Some? && NumberAt(cur, "latitude").Some?
    requires NumberAt(prev, "longitude").Some? && NumberAt(cur, "longitude").Some?
    requires cur["timestamp"].n != prev["timestamp"].n
    ensures Augment(prev, cur)[LatitudeDelta]
         == Num(LatDiff(cur["latitude"].n, prev["latitude"].n) / (cur["timestamp"].n - prev["timestamp"].n))
    ensures Augment(prev, cur)[LongitudeDelta]
         == Num(Abs(cur["longitude"].n - prev["longitude"].n) / (cur["timestamp"].n - prev["timestamp"].n))
  {
  }

  /** What `calculateChange` returns, given the baseline before the call. */
  function Changed(prev: Option<Record>, response: Record): (r: Record)
    ensures HasErrorIndicator(response) || prev.None? ==> r == response
    ensures !HasErrorIndicator(response) && prev.Some? ==> r == Augment(prev.value, response)
    ensures forall k :: k in response && k != LatitudeDelta && k != LongitudeDelta ==>
      k in r && r[k] == response[k]
    ensures r.Keys <= response.Keys + {LatitudeDelta, LongitudeDelta}
  {
    if HasErrorIndicator(response) || prev.None? then response
    else Augment(prev.value, response)
  }

  /** What `previousObj` holds after `calculateChange`. */
  function NextBaseline(prev: Option<Record>, response: Record): Option<Record>
  {
    if HasErrorIndicator(response) then prev else Some(Changed(prev, response))
  }

  /** The baseline is only ever replaced by a record without error indicators. */
  lemma BaselineNeverAnError(prev: Option<Record>, response: Record)
    requires prev.Some? ==> !HasErrorIndicator(prev.value)
    ensures NextBaseline(prev, response).Some? ==> !HasErrorIndicator(NextBaseline(prev, response).value)
  {
  }

  /** The example of the unit tests: baseline {timestamp 5, longitude 23,
      latitude 99} and response {timestamp 8, longitude -1, latitude -3}. */
  lemma CalculateChangeExample()
    ensures
      var prev := map["timestamp" := Num(5.0), "longitude" := Num(23.0), "latitude" := Num(99.0)];
      var cur := map["timestamp" := Num(8.0), "longitude" := Num(-1.0), "latitude" := Num(-3.0)];
      Changed(Some(prev), cur) == cur[LatitudeDelta := Num(34.0)][LongitudeDelta := Num(8.0)]
  {
  }
}
