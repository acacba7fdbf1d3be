/**
 * Metric points as the plugins build them through `influxdb_client.Point`:
 * a measurement name, tags added one by one with `tag`, fields added one by
 * one with `field`, and a line-protocol rendering of the whole point.
 */
module Points {

  /** A value stored in a field or a tag: a Python str, int, float, bool or None. */
  datatype Scalar =
    | Str(s: string)
    | Int(i: int)
    | Float(repr: string)  // a float, kept as the text Python's str() gives it
    | Bool(b: bool)
    | Null

  type Tag = (string, string)
  type Field = (string, Scalar)

  datatype Point = Point(measurement: string, tags: seq<Tag>, fields: seq<Field>)
  {
    /** `Point.tag(key, value)`: records one more tag. */
    function WithTag(key: string, value: string): Point
    {
      this.(tags := tags + [(key, value)])
    }

    /** `Point.field(key, value)`: records one more field. */
    function WithField(key: string, value: Scalar): Point
    {
      this.(fields := fields + [(key, value)])
    }
  }

  function Digit(d: nat): char
    requires d < 10
  {
    "0123456789"[d]
  }

  /** The decimal digits of a natural number, as Python's str() prints them. */
  function NatToDecimal(n: nat): (r: string)
    ensures |r| >= 1
    ensures forall k :: 0 <= k < |r| ==> '0' <= r[k] <= '9'
  {
    if n < 10 then [Digit(n)] else NatToDecimal(n / 10) + [Digit(n % 10)]
  }

  function IntToDecimal(i: int): string
  {
    if i < 0 then "-" + NatToDecimal(-i) else NatToDecimal(i)
  }

  /** Python's str() of a scalar. */
  function ScalarStr(v: Scalar): string
  {
    match v
    case Str(s) => s
    case Int(i) => IntToDecimal(i)
    case Float(r) => r
    case Bool(b) => if b then "True" else "False"
    case Null => "None"
  }

  /** Python's truthiness of a scalar (`if value:`). */
  predicate Truthy(v: Scalar)
  {
    match v
    case Str(s) => s != ""
    case Int(i) => i != 0
    case Float(r) => r != "0.0" && r != "-0.0"
    case Bool(b) => b
    case Null => false
  }

  /** The text of a field value in a line: strings quoted, integers with an `i` suffix. */
  function FieldValueText(v: Scalar): string
  {
    match v
    case Str(s) => "\"" + s + "\""
    case Int(i) => IntToDecimal(i) + "i"
    case Float(r) => r
    case Bool(b) => if b then "true" else "false"
    case Null => ""
  }

  function TagText(t: Tag): string
  {
    t.0 + "=" + t.1
  }

  function FieldText(f: Field): string
  {
    f.0 + "=" + FieldValueText(f.1)
  }

  /** The `,key=value` entries of the tag section, in the point's order. */
  function TagsText(tags: seq<Tag>): string
  {
    if tags == [] then "" else "," + TagText(tags[0]) + TagsText(tags[1..])
  }

  /** The `key=value` entries of the fields that have a value (None is dropped). */
  function FieldEntries(fields: seq<Field>): (entries: seq<string>)
    ensures |entries| <= |fields|
  {
    if fields == [] then []
    else (if fields[0].1 == Null then [] else [FieldText(fields[0])]) + FieldEntries(fields[1..])
  }

  function JoinComma(entries: seq<string>): string
  {
    if entries == [] then ""
    else if |entries| == 1 then entries[0]
    else entries[0] + "," + JoinComma(entries[1..])
  }

  /** One point in the line format `measurement,tag=v,... field=v,...`. */
  function LineProtocol(p: Point): string
  {
    p.measurement + TagsText(p.tags) + " " + JoinComma(FieldEntries(p.fields))
  }

  /** `t` occurs in `s` as a contiguous piece. */
  ghost predicate Occurs(t: string, s: string)
  {
    exists before: string, after: string :: s == before + t + after
  }

  lemma OccursWithin(t: string, s: string, left: string, right: string)
    requires Occurs(t, s)
    ensures Occurs(t, left + s + right)
  {
    var before: string, after: string :| s == before + t + after;
    assert left + s + right == (left + before) + t + (after + right);
  }

  lemma {:induction false} TagsTextHasTag(tags: seq<Tag>, k: nat)
    requires k < |tags|
    ensures Occurs("," + TagText(tags[k]), TagsText(tags))
  {
    var first := "," + TagText(tags[0]);
    if k == 0 {
      assert TagsText(tags) == "" + first + TagsText(tags[1..]);
    } else {
      TagsTextHasTag(tags[1..], k - 1);
      OccursWithin("," + TagText(tags[k]), TagsText(tags[1..]), first, "");
      assert TagsText(tags) == first + TagsText(tags[1..]) + "";
    }
  }

  lemma {:induction false} FieldEntriesHasField(fields: seq<Field>, k: nat)
    requires k < |fields| && fields[k].1 != Null
    ensures FieldText(fields[k]) in FieldEntries(fields)
  {
    if k > 0 {
      FieldEntriesHasField(fields[1..], k - 1);
    }
  }

  lemma {:induction false} JoinCommaHasEntry(entries: seq<string>, e: string)
    requires e in entries
    ensures Occurs(e, JoinComma(entries))
  {
    if |entries| == 1 {
      assert JoinComma(entries) == "" + e + "";
    } else if entries[0] == e {
      assert JoinComma(entries) == "" + e + ("," + JoinComma(entries[1..]));
    } else {
      JoinCommaHasEntry(entries[1..], e);
      OccursWithin(e, JoinComma(entries[1..]), entries[0] + ",", "");
      assert JoinComma(entries) == (entries[0] + ",") + JoinComma(entries[1..]) + "";
    }
  }

  /** Every tag of a point shows up as `,key=value` in its line. */
  lemma TagInLine(p: Point, k: nat)
    requires k < |p.tags|
    ensures Occurs("," + p.tags[k].0 + "=" + p.tags[k].1, LineProtocol(p))
  {
    TagsTextHasTag(p.tags, k);
    OccursWithin("," + TagText(p.tags[k]), TagsText(p.tags), p.measurement, " " + JoinComma(FieldEntries(p.fields)));
    assert LineProtocol(p) == p.measurement + TagsText(p.tags) + (" " + JoinComma(FieldEntries(p.fields)));
    assert "," + TagText(p.tags[k]) == "," + p.tags[k].0 + "=" + p.tags[k].1;
  }

  /** Every field of a point that has a value shows up as `key=value` in its line. */
  lemma FieldInLine(p: Point, k: nat)
    requires k < |p.fields| && p.fields[k].1 != Null
    ensures Occurs(p.fields[k].0 + "=" + FieldValueText(p.fields[k].1), LineProtocol(p))
  {
    FieldEntriesHasField(p.fields, k);
    JoinCommaHasEntry(FieldEntries(p.fields), FieldText(p.fields[k]));
    OccursWithin(FieldText(p.fields[k]), JoinComma(FieldEntries(p.fields)), p.measurement + TagsText(p.tags) + " ", "");
    assert LineProtocol(p) == (p.measurement + TagsText(p.tags) + " ") + JoinComma(FieldEntries(p.fields)) + "";
  }
}
