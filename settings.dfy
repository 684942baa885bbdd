/**
 * Construction-time normalisation of the location stream: the static
 * properties, the satellite id whitelist, the interval floor, the
 * option filter, and the latency-compensated wait.
 */
module Settings {
  import opened Json

  /** The static properties returned by `ilsDefaults.getProps`. */
  datatype Props = Props(
    validSatIds: seq<string>,
    defaultSatId: string,
    defaultInterval: int,
    intervalMin: int,
    supportedOpts: seq<string>)

  const CalculateChangeOpt := "calculateChange"

  const DefaultProps := Props(["25544"], "25544", 1000, 500, [CalculateChangeOpt])

  /** `Array.prototype.indexOf` with strict equality: the first index of `x`, or -1. */
  function IndexOf<T(==)>(s: seq<T>, x: T): (i: int)
    ensures -1 <= i < |s|
    ensures i == -1 <==> x !in s
    ensures 0 <= i ==> s[i] == x && x !in s[..i]
  {
    if s == [] then -1
    else if s[0] == x then 0
    else
      var j := IndexOf(s[1..], x);
      if j == -1 then -1
      else
        assert s[..j + 1] == [s[0]] + s[1..][..j];
        j + 1
  }

  /** `getSatId`: `validSatIds[validSatIds.indexOf(id)] || DEFAULT_SAT_ID`.
      An absent id (`undefined`) is never found in a list of strings. */
  function GetSatId(p: Props, id: Option<string>): (sat: string)
    ensures id.Some? && id.value in p.validSatIds && id.value != "" ==> sat == id.value
    ensures !(id.Some? && id.value in p.validSatIds) || id.value == "" ==> sat == p.defaultSatId
  {
    var idx := if id.Some? then IndexOf(p.validSatIds, id.value) else -1;
    if 0 <= idx && p.validSatIds[idx] != "" then p.validSatIds[idx] else p.defaultSatId
  }

  /** With the shipped whitelist, every id resolves to the default satellite. */
  lemma ShippedSatIdIsAlwaysDefault(id: Option<string>)
    ensures GetSatId(DefaultProps, id) == "25544"
  {
  }

  /** `interval && interval >= INTERVAL_MIN ? interval : DEFAULT_INTERVAL`. */
  function ResolveInterval(p: Props, interval: Option<int>): (r: int)
    ensures interval.Some? && interval.value != 0 && interval.value >= p.intervalMin <==>
            interval == Some(r) && r != 0 && r >= p.intervalMin
    ensures !(interval.Some? && interval.value != 0 && interval.value >= p.intervalMin) ==>
            r == p.defaultInterval
    ensures p.defaultInterval >= p.intervalMin ==> r >= p.intervalMin
  {
    if interval.Some? && interval.value != 0 && interval.value >= p.intervalMin then interval.value
    else p.defaultInterval
  }

  /** The options the loop of `setOptions` collects: the supported keys of
      `opts`, each mapped to the boolean coercion of its value. */
  function FilteredOptions(supported: seq<string>, opts: map<string, Value>): (ret: map<string, bool>)
    ensures ret.Keys == set k | k in opts && k in supported
    ensures forall k :: k in ret ==> ret[k] == Truthy(opts[k])
  {
    map k | k in opts && k in supported :: Truthy(opts[k])
  }

  /** An options map written back as JavaScript booleans. */
  function AsValues(opts: map<string, bool>): map<string, Value>
  {
    map k | k in opts :: Bool(opts[k])
  }

  /** Filtering an already filtered options object changes nothing. */
  lemma FilteredOptionsIdempotent(supported: seq<string>, opts: map<string, Value>)
    ensures FilteredOptions(supported, AsValues(FilteredOptions(supported, opts)))
         == FilteredOptions(supported, opts)
  {
  }

  /** `setOptions`: a `for...in` over the keys of `opts`, copying each
      supported flag into `ret` as a boolean. An absent options object is
      passed as the empty map (a `for...in` over it visits nothing). */
  method SetOptions(supported: seq<string>, opts: map<string, Value>) returns (ret: map<string, bool>)
    ensures ret == FilteredOptions(supported, opts)
  {
    ret := map[];
    var rest := opts.Keys;
    while rest != {}
      invariant rest <= opts.Keys
      invariant ret.Keys == set k | k in opts && k !in rest && k in supported
      invariant forall k :: k in ret ==> ret[k] == Truthy(opts[k])
      decreases rest
    {
      var flag :| flag in rest;
      if IndexOf(supported, flag) != -1 {
        ret := ret[flag := Truthy(opts[flag])];
      }
      rest := rest - {flag};
    }
  }

  /** `adjustForLag`: the wait before the next poll, `max(interval - lag, 0)`. */
  function AdjustForLag(interval: int, lag: int): (wait: int)
    ensures wait >= 0 && wait >= interval - lag
    ensures wait == 0 || wait == interval - lag
    ensures 0 <= lag && 0 <= interval ==> wait <= interval
  {
    if interval - lag > 0 then interval - lag else 0
  }
}
