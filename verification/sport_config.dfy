/** Sport profile lookup and validation of src/lib/sportConfig.ts. The profile table is the
    parsed contents of a JSON file, modelled as a map from sport key to JSON value. */
module SportConfig {
  import opened Outcomes

  /** A parsed JSON value. */
  datatype Json = JNull | JBool(b: bool) | JNum(n: real) | JStr(s: string)
                | JArr(items: seq<Json>) | JObj(fields: map<string, Json>)

  /** The six detection parameters of a sport, as the session accumulator reads them. */
  datatype SportCfg = SportCfg(rallyGapSec: real, accelHpHz: real, impactG: real,
                               gyroPeakDps: real, radiusM: real, refractoryMs: real)

  /** Why a lookup throws. */
  datatype CfgError = MissingSport(sport: string) | InvalidField(sport: string, key: string)

  /** The fields checked, in the order they are checked. */
  const RequiredKeys: seq<string> :=
    ["rallyGapSec", "accelHpHz", "impactG", "gyroPeakDps", "radiusM", "refractoryMs"]

  /** JavaScript truthiness of a JSON value (an absent key reads as `undefined`, also falsy). */
  predicate Truthy(v: Json)
  {
    match v
    case JNull => false
    case JBool(b) => b
    case JNum(n) => n != 0.0
    case JStr(s) => s != ""
    case JArr(_) => true
    case JObj(_) => true
  }

  /** `typeof v[k] === 'number'`: only an object carries named fields. */
  predicate NumericField(v: Json, k: string)
  {
    v.JObj? && k in v.fields && v.fields[k].JNum?
  }

  /** A profile on which every required field is numeric. */
  predicate ValidProfile(v: Json)
  {
    && NumericField(v, "rallyGapSec") && NumericField(v, "accelHpHz")
    && NumericField(v, "impactG") && NumericField(v, "gyroPeakDps")
    && NumericField(v, "radiusM") && NumericField(v, "refractoryMs")
  }

  /** A valid profile is exactly one on which each key of the checked list is numeric. */
  lemma ValidProfileChecksEveryKey(v: Json)
    ensures ValidProfile(v) <==> forall i :: 0 <= i < |RequiredKeys| ==> NumericField(v, RequiredKeys[i])
  {
    assert RequiredKeys[0] == "rallyGapSec" && RequiredKeys[1] == "accelHpHz";
    assert RequiredKeys[2] == "impactG" && RequiredKeys[3] == "gyroPeakDps";
    assert RequiredKeys[4] == "radiusM" && RequiredKeys[5] == "refractoryMs";
  }

  /** The first key of `keys` that is not numeric on `v`, if any (the `forEach` throws there). */
  function FirstInvalid(v: Json, keys: seq<string>): (r: Option<string>)
    ensures r.None? <==> forall i :: 0 <= i < |keys| ==> NumericField(v, keys[i])
    ensures r.Some? ==> exists i :: 0 <= i < |keys| && keys[i] == r.value
                          && !NumericField(v, keys[i])
                          && forall j :: 0 <= j < i ==> NumericField(v, keys[j])
  {
    if |keys| == 0 then None
    else if !NumericField(v, keys[0]) then Some(keys[0])
    else
      var r := FirstInvalid(v, keys[1..]);
      assert forall i :: 1 <= i < |keys| ==> keys[i] == keys[1..][i - 1];
      r
  }

  /** `getCfg`: look the sport up, reject a missing or falsy entry, then reject the first of the
      six fields that is not a number; otherwise return the stored entry, read as the typed
      profile (`s as SportCfg`): each field is the number stored under its key. */
  function GetCfg(table: map<string, Json>, sport: string): (r: Result<SportCfg, CfgError>)
    ensures sport !in table || !Truthy(table[sport]) ==> r == Err(MissingSport(sport))
    ensures r.Ok? <==> sport in table && ValidProfile(table[sport])
    ensures r.Ok? ==>
              var f := table[sport].fields;
              && r.value.rallyGapSec == f["rallyGapSec"].n
              && r.value.accelHpHz == f["accelHpHz"].n
              && r.value.impactG == f["impactG"].n
              && r.value.gyroPeakDps == f["gyroPeakDps"].n
              && r.value.radiusM == f["radiusM"].n
              && r.value.refractoryMs == f["refractoryMs"].n
    ensures r.Err? && r.error.InvalidField? ==>
              && r.error.sport == sport
              && sport in table
              && exists i :: 0 <= i < |RequiredKeys| && RequiredKeys[i] == r.error.key
                   && !NumericField(table[sport], RequiredKeys[i])
                   && forall j :: 0 <= j < i ==> NumericField(table[sport], RequiredKeys[j])
  {
    if sport !in table || !Truthy(table[sport]) then Err(MissingSport(sport))
    else
      ValidProfileChecksEveryKey(table[sport]);
      match FirstInvalid(table[sport], RequiredKeys)
      case Some(k) => Err(InvalidField(sport, k))
      case None => Ok(AsSportCfg(table[sport]))
  }

  /** Only the six required keys are read: adding or changing any other field of a stored
      profile never changes the outcome of the lookup, neither whether it succeeds nor the
      profile or error it returns. */
  lemma ExtraFieldsIgnored(table: map<string, Json>, sport: string, key: string, value: Json)
    requires sport in table && table[sport].JObj?
    requires key !in RequiredKeys
    ensures var t := table[sport := JObj(table[sport].fields[key := value])];
            GetCfg(t, sport) == GetCfg(table, sport)
  {
    var v := table[sport];
    var v' := JObj(v.fields[key := value]);
    assert ValidProfile(v') <==> ValidProfile(v);
  }

  /** The typed view of a validated profile (`s as SportCfg`). */
  function AsSportCfg(v: Json): SportCfg
    requires ValidProfile(v)
  {
    SportCfg(v.fields["rallyGapSec"].n, v.fields["accelHpHz"].n, v.fields["impactG"].n,
             v.fields["gyroPeakDps"].n, v.fields["radiusM"].n, v.fields["refractoryMs"].n)
  }
}
