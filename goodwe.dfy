/**
 * The GoodWe inverter bridge: choosing and naming fields from the inverter's
 * sensors (`read_point`), collecting the static tags and serving triggers
 * (`get_runtime_data`), and reading the inverter's address out of the
 * discovery reply (`detect_ip_address`).
 */
module GoodWe {
  import opened Wrappers
  import opened Points
  import StdinLines

  /** One entry of `inverter.sensors()`: its id, human-readable name and unit. */
  datatype Sensor = Sensor(id: string, name: string, unit: string)

  /** `_UNIT_MAP`: `%` becomes `pct`, the dimensionless unit `1` gives no suffix. */
  const UnitMap: map<string, Option<string>> := map["%" := Some("pct"), "1" := None]

  /** `_IGNORED_FIELDS` */
  const IgnoredFields: set<string> := {"timestamp"}

  /** The inverter attributes copied into tags when present and truthy, in this order. */
  const TagAttributes: seq<string> :=
    ["model_name", "serial_number", "dsp1_version", "dsp2_version", "arm_version", "firmware"]

  /** `_UNIT_MAP.get(unit, unit)`, kept only when it is a non-empty string. */
  function UnitSuffix(unit: string): Option<string>
  {
    var mapped := if unit in UnitMap then UnitMap[unit] else Some(unit);
    if mapped.Some? && mapped.value != "" then mapped else None
  }

  /**
   * The field a sensor's reading is stored under: `id_pct` for `%`, plain `id`
   * for `1` or no unit, `id_unit` otherwise.
   */
  function FieldName(s: Sensor): (name: string)
    ensures s.unit == "%" ==> name == s.id + "_pct"
    ensures s.unit == "1" || s.unit == "" ==> name == s.id
    ensures s.unit != "%" && s.unit != "1" && s.unit != "" ==> name == s.id + "_" + s.unit
  {
    match UnitSuffix(s.unit)
    case Some(suffix) => s.id + "_" + suffix
    case None => s.id
  }

  /** A sensor yields a field when it has a reading that is not None and its id is not ignored. */
  predicate Reports(s: Sensor, runtime: map<string, Scalar>)
  {
    s.id in runtime && runtime[s.id] != Null && s.id !in IgnoredFields
  }

  /** The fields `read_point` adds, in sensor order: at most one per sensor, none holding None. */
  function SensorFields(sensors: seq<Sensor>, runtime: map<string, Scalar>): (fields: seq<Field>)
    ensures |fields| <= |sensors|
    ensures forall f :: f in fields ==> f.1 != Null
  {
    if sensors == [] then []
    else
      (if Reports(sensors[0], runtime) then [(FieldName(sensors[0]), runtime[sensors[0].id])] else [])
      + SensorFields(sensors[1..], runtime)
  }

  /** Fields follow sensor order: the fields of a concatenation are the concatenated fields. */
  lemma {:induction false} SensorFieldsAppend(a: seq<Sensor>, b: seq<Sensor>, runtime: map<string, Scalar>)
    ensures SensorFields(a + b, runtime) == SensorFields(a, runtime) + SensorFields(b, runtime)
  {
    if a == [] {
      assert a + b == b;
    } else {
      assert (a + b)[1..] == a[1..] + b;
      SensorFieldsAppend(a[1..], b, runtime);
    }
  }

  /**
   * Exactly the reporting sensors give fields: every reading that is not None
   * (0 and other falsy readings included) of a sensor that is not ignored
   * appears under its field name, and every field comes from such a sensor,
   * so no field holds None and none is named after `timestamp`.
   */
  lemma {:induction false} SensorFieldsExactly(sensors: seq<Sensor>, runtime: map<string, Scalar>)
    ensures forall k :: 0 <= k < |sensors| && Reports(sensors[k], runtime) ==>
      (FieldName(sensors[k]), runtime[sensors[k].id]) in SensorFields(sensors, runtime)
    ensures forall f :: f in SensorFields(sensors, runtime) ==>
      exists s :: s in sensors && Reports(s, runtime) && f == (FieldName(s), runtime[s.id])
  {
    if sensors != [] {
      SensorFieldsExactly(sensors[1..], runtime);
      forall k | 1 <= k < |sensors| ensures sensors[k] == sensors[1..][k - 1] { }
    }
  }

  /**
   * `read_point`: the tags first, verbatim and in order, then one field per
   * reporting sensor in sensor order.
   */
  method ReadPoint(name: string, tags: seq<Tag>, sensors: seq<Sensor>, runtime: map<string, Scalar>)
    returns (p: Point)
    ensures p.measurement == name && p.tags == tags
    ensures p.fields == SensorFields(sensors, runtime)
  {
    p := Point(name, [], []);
    for i := 0 to |tags|
      invariant p == Point(name, tags[..i], [])
    {
      p := p.WithTag(tags[i].0, tags[i].1);
    }
    for i := 0 to |sensors|
      invariant p == Point(name, tags, SensorFields(sensors[..i], runtime))
    {
      var sensor := sensors[i];
      assert sensors[..i + 1] == sensors[..i] + [sensor];
      SensorFieldsAppend(sensors[..i], [sensor], runtime);
      var data := if sensor.id in runtime then runtime[sensor.id] else Null;
      if data == Null || sensor.id in IgnoredFields {
        continue;
      }
      p := p.WithField(FieldName(sensor), data);
    }
    assert sensors[..|sensors|] == sensors;
  }

  predicate DistinctTagKeys(tags: seq<Tag>)
  {
    forall m, n :: 0 <= m < n < |tags| ==> tags[m].0 != tags[n].0
  }

  /**
   * The tag collection of `get_runtime_data`: `ip_address` first, then each
   * listed attribute the inverter has with a truthy value, and nothing else.
   * `attrs` holds the inverter's attributes (a missing one reads as None).
   */
  method CollectTags(ip: string, attrs: map<string, Scalar>) returns (tags: seq<Tag>)
    ensures |tags| >= 1 && tags[0] == ("ip_address", ip)
    ensures forall t :: t in tags[1..] ==>
      t.0 in TagAttributes && t.0 in attrs && Truthy(attrs[t.0]) && t.1 == ScalarStr(attrs[t.0])
    ensures forall a :: a in TagAttributes && a in attrs && Truthy(attrs[a]) ==> (a, ScalarStr(attrs[a])) in tags
    ensures DistinctTagKeys(tags)
  {
    tags := [("ip_address", ip)];
    for i := 0 to |TagAttributes|
      invariant |tags| >= 1 && tags[0] == ("ip_address", ip)
      invariant forall t :: t in tags[1..] ==>
        t.0 in TagAttributes[..i] && t.0 in attrs && Truthy(attrs[t.0]) && t.1 == ScalarStr(attrs[t.0])
      invariant forall a :: a in TagAttributes[..i] && a in attrs && Truthy(attrs[a]) ==> (a, ScalarStr(attrs[a])) in tags
      invariant DistinctTagKeys(tags)
    {
      var attr := TagAttributes[i];
      var value := if attr in attrs then attrs[attr] else Null;
      assert TagAttributes[..i + 1] == TagAttributes[..i] + [attr];
      if Truthy(value) {
        assert attr !in TagAttributes[..i] && attr != "ip_address";
        tags := tags + [(attr, ScalarStr(value))];
      }
    }
    assert TagAttributes[..|TagAttributes|] == TagAttributes;
  }

  /**
   * `get_runtime_data` once the inverter is connected. With a terminal on
   * stdout: the sample's line (from the second fetch; the first only feeds the
   * human-readable listing before it). Otherwise: for each trigger line, one
   * line from the next fetch (`runtime(k)` is the k-th `read_runtime_data`).
   */
  method GetRuntimeData(name: string, ip: string, attrs: map<string, Scalar>, stdoutIsTty: bool,
                        stdin: seq<string>, sensors: seq<Sensor>, runtime: nat -> map<string, Scalar>)
    returns (tags: seq<Tag>, stdout: seq<string>)
    ensures |tags| >= 1 && tags[0] == ("ip_address", ip) && DistinctTagKeys(tags)
    ensures forall t :: t in tags[1..] ==>
      t.0 in TagAttributes && t.0 in attrs && Truthy(attrs[t.0]) && t.1 == ScalarStr(attrs[t.0])
    ensures forall a :: a in TagAttributes && a in attrs && Truthy(attrs[a]) ==> (a, ScalarStr(attrs[a])) in tags
    ensures stdoutIsTty ==> stdout == [LineProtocol(Point(name, tags, SensorFields(sensors, runtime(1))))]
    ensures !stdoutIsTty ==> |stdout| == |StdinLines.Lines(stdin)|
    ensures !stdoutIsTty ==> forall k :: 0 <= k < |stdout| ==>
      stdout[k] == LineProtocol(Point(name, tags, SensorFields(sensors, runtime(k))))
  {
    tags := CollectTags(ip, attrs);
    stdout := [];
    if stdoutIsTty {
      var point := ReadPoint(name, tags, sensors, runtime(1));
      stdout := [LineProtocol(point)];
      return;
    }
    stdout := ServeTriggers(name, tags, stdin, sensors, runtime);
  }

  /** The trigger loop of `get_runtime_data`: per trigger line, one line from the next fetch. */
  method ServeTriggers(name: string, tags: seq<Tag>, stdin: seq<string>, sensors: seq<Sensor>,
                       runtime: nat -> map<string, Scalar>)
    returns (stdout: seq<string>)
    ensures |stdout| == |StdinLines.Lines(stdin)|
    ensures forall k :: 0 <= k < |stdout| ==>
      stdout[k] == LineProtocol(Point(name, tags, SensorFields(sensors, runtime(k))))
  {
    stdout := [];
    var k := 0;
    while k < |stdin| && stdin[k] != ""
      invariant k <= |StdinLines.Lines(stdin)| && |stdout| == k
      invariant forall n :: 0 <= n < k ==>
        stdout[n] == LineProtocol(Point(name, tags, SensorFields(sensors, runtime(n))))
    {
      StdinLines.NextLineIsTrigger(stdin, k);
      var point := ReadPoint(name, tags, sensors, runtime(k));
      stdout := stdout + [LineProtocol(point)];
      k := k + 1;
    }
    StdinLines.EndOfTriggers(stdin, k);
  }

  // ---------------------------------------------------------------------------
  // The discovery reply

  newtype byte = x: int | 0 <= x < 256

  const Comma: byte := 44

  /** The reply up to its first comma, or the whole reply when it has none. */
  function BeforeComma(reply: seq<byte>): (head: seq<byte>)
    ensures head <= reply && Comma !in head
    ensures |head| < |reply| ==> reply[|head|] == Comma
  {
    if reply == [] || reply[0] == Comma then [] else [reply[0]] + BeforeComma(reply[1..])
  }

  /** UnicodeDecodeError at the first byte outside ASCII. */
  datatype DecodeError = NonAsciiByte(position: nat)

  /** `bytes.decode('ASCII')` */
  function DecodeAscii(bytes: seq<byte>): (r: Result<string, DecodeError>)
    ensures r.Ok? ==> |r.value| == |bytes| && forall k :: 0 <= k < |bytes| ==> r.value[k] as int == bytes[k] as int < 128
    ensures r.Err? ==> var at := r.error.position;
      at < |bytes| && bytes[at] >= 128 && forall k :: 0 <= k < at ==> bytes[k] < 128
  {
    if bytes == [] then Ok("")
    else if bytes[0] >= 128 then Err(NonAsciiByte(0))
    else
      match DecodeAscii(bytes[1..])
      case Ok(rest) => Ok([(bytes[0] as int) as char] + rest)
      case Err(NonAsciiByte(at)) => Err(NonAsciiByte(at + 1))
  }

  /**
   * `detect_ip_address` on the discovery reply: the ASCII text before the
   * first comma (the whole reply when there is none), so never a comma; it
   * fails exactly when a byte before the first comma is not ASCII.
   */
  function DetectIpAddress(reply: seq<byte>): (r: Result<string, DecodeError>)
    ensures r.Ok? <==> forall k :: 0 <= k < |BeforeComma(reply)| ==> reply[k] < 128
    ensures r.Ok? ==> ',' !in r.value && |r.value| <= |reply|
    ensures r.Ok? ==> forall k :: 0 <= k < |r.value| ==> r.value[k] as int == reply[k] as int
    ensures r.Ok? && |r.value| < |reply| ==> reply[|r.value|] == Comma
  {
    DecodeAscii(BeforeComma(reply))
  }
}
