/**
 * The AZ-router bridge: the JSON flattener `unroll_json`, the point builder
 * `build_point`, the merge of the `status` and `power` responses and the
 * per-trigger loop of `query_data`.
 */
module AzRouter {
  import opened Wrappers
  import opened Points
  import StdinLines

  /** A decoded JSON response, or any other Python value handed to the flattener. */
  datatype Json =
    | Prim(v: Scalar)                      // str, number, bool or None
    | Obj(members: seq<(string, Json)>)    // a dict, in insertion order
    | Arr(items: seq<Json>)                // a list
    | Other(typeName: string, text: string)  // a value of any other type, with its str()

  datatype FlattenError =
    | EntryMissingKey          // a list entry without `id` or `value` (KeyError)
    | EntryNotMapping          // a list entry that is not a dict (TypeError)
    | UnknownType(typeName: string)  // ValueError naming the type

  /** `d[key]` on a dict: the first member with that key. */
  function Lookup(members: seq<(string, Json)>, key: string): (r: Option<Json>)
    ensures r.Some? <==> exists k :: 0 <= k < |members| && members[k].0 == key
    ensures r.Some? ==> (key, r.value) in members
  {
    if members == [] then None
    else if members[0].0 == key then Some(members[0].1)
    else Lookup(members[1..], key)
  }

  /** Python dicts never repeat a key. */
  predicate DistinctKeys(members: seq<(string, Json)>)
  {
    forall m, n :: 0 <= m < n < |members| ==> members[m].0 != members[n].0
  }

  // ---------------------------------------------------------------------------
  // Python's str() and repr() of a value, used for list entries' ids and values

  function Repr(j: Json): string
    decreases j, 1
  {
    match j
    case Prim(v) => if v.Str? then "'" + v.s + "'" else ScalarStr(v)
    case Obj(members) => "{" + ReprMembers(j, 0) + "}"
    case Arr(items) => "[" + ReprItems(j, 0) + "]"
    case Other(_, text) => text
  }

  function ReprMembers(j: Json, i: nat): string
    requires j.Obj? && i <= |j.members|
    decreases j, 0, |j.members| - i
  {
    if i == |j.members| then ""
    else
      (if i == 0 then "" else ", ") + "'" + j.members[i].0 + "': " + Repr(j.members[i].1)
      + ReprMembers(j, i + 1)
  }

  function ReprItems(j: Json, i: nat): string
    requires j.Arr? && i <= |j.items|
    decreases j, 0, |j.items| - i
  {
    if i == |j.items| then ""
    else (if i == 0 then "" else ", ") + Repr(j.items[i]) + ReprItems(j, i + 1)
  }

  function PyStr(j: Json): string
  {
    if j.Prim? then ScalarStr(j.v) else Repr(j)
  }

  // ---------------------------------------------------------------------------
  // The flattener

  /** The prefix a child key is appended to: `_` only after a non-empty prefix. */
  function Extend(prefix: string): string
  {
    if prefix == "" then "" else prefix + "_"
  }

  /** Flattened pairs in order, or the first error met in that order. */
  function Combine(a: Result<seq<Field>, FlattenError>, b: Result<seq<Field>, FlattenError>)
    : Result<seq<Field>, FlattenError>
  {
    if a.Err? then a else if b.Err? then b else Ok(a.value + b.value)
  }

  /**
   * `unroll_json(prefix, json)`, collected into a sequence; it succeeds
   * exactly on the values `Flattenable` describes.
   */
  function Unroll(prefix: string, j: Json): (r: Result<seq<Field>, FlattenError>)
    ensures r.Ok? <==> Flattenable(j)
    decreases j, 1
  {
    match j
    case Prim(v) => Ok([(prefix, v)])
    case Obj(_) => UnrollMembers(Extend(prefix), j, 0)
    case Arr(items) => UnrollEntries(Extend(prefix), items)
    case Other(typeName, _) => Err(UnknownType(typeName))
  }

  /** The members of dict `j` from position `i` on, each under `prefix + key`. */
  function UnrollMembers(prefix: string, j: Json, i: nat): (r: Result<seq<Field>, FlattenError>)
    requires j.Obj? && i <= |j.members|
    ensures r.Ok? <==> forall k :: i <= k < |j.members| ==> Flattenable(j.members[k].1)
    decreases j, 0, |j.members| - i
  {
    if i == |j.members| then Ok([])
    else Combine(Unroll(prefix + j.members[i].0, j.members[i].1), UnrollMembers(prefix, j, i + 1))
  }

  /**
   * One `{id, value}` list entry: `(prefix + str(id), str(value))`, the value
   * always a string; KeyError for a dict without both keys, TypeError for
   * anything else.
   */
  function EntryField(prefix: string, entry: Json): (r: Result<Field, FlattenError>)
    ensures r.Ok? <==> IsRecord(entry)
    ensures r.Ok? ==> r.value.1.Str?
    ensures r.Err? ==> r.error == if entry.Obj? then EntryMissingKey else EntryNotMapping
  {
    match entry
    case Obj(members) =>
      var id := Lookup(members, "id");
      var value := Lookup(members, "value");
      if id.None? || value.None? then Err(EntryMissingKey)
      else Ok((prefix + PyStr(id.value), Str(PyStr(value.value))))
    case _ => Err(EntryNotMapping)
  }

  function UnrollEntries(prefix: string, entries: seq<Json>): (r: Result<seq<Field>, FlattenError>)
    ensures r.Ok? <==> forall k :: 0 <= k < |entries| ==> IsRecord(entries[k])
  {
    if entries == [] then Ok([])
    else
      match EntryField(prefix, entries[0])
      case Err(e) => Err(e)
      case Ok(f) => Combine(Ok([f]), UnrollEntries(prefix, entries[1..]))
  }

  /**
   * A scalar at `prefix` is the single pair `(prefix, value)`, an empty dict
   * yields nothing, and any other type is an error naming that type.
   */
  lemma UnrollBaseCases(prefix: string, v: Scalar, typeName: string, text: string)
    ensures Unroll(prefix, Prim(v)) == Ok([(prefix, v)])
    ensures Unroll(prefix, Obj([])) == Ok([])
    ensures Unroll(prefix, Other(typeName, text)) == Err(UnknownType(typeName))
  {
  }

  // ---------------------------------------------------------------------------
  // What the flattener accepts

  /** A list entry the flattener accepts: a dict with both `id` and `value`. */
  predicate IsRecord(entry: Json)
  {
    entry.Obj? && Lookup(entry.members, "id").Some? && Lookup(entry.members, "value").Some?
  }

  /** Values the flattener accepts: no foreign type outside a list, and only records in lists. */
  predicate Flattenable(j: Json)
    decreases j
  {
    match j
    case Prim(_) => true
    case Obj(members) => forall k :: 0 <= k < |members| ==> Flattenable(members[k].1)
    case Arr(items) => forall k :: 0 <= k < |items| ==> IsRecord(items[k])
    case Other(_, _) => false
  }

  // ---------------------------------------------------------------------------
  // The shape of the flattener's output

  /** Flattening a list: exactly one pair per entry, in list order, with the value stringified. */
  lemma {:induction false} UnrollEntriesPairs(prefix: string, entries: seq<Json>)
    requires UnrollEntries(prefix, entries).Ok?
    ensures |UnrollEntries(prefix, entries).value| == |entries|
    ensures forall k :: 0 <= k < |entries| ==>
      IsRecord(entries[k]) &&
      UnrollEntries(prefix, entries).value[k]
        == (prefix + PyStr(Lookup(entries[k].members, "id").value),
            Str(PyStr(Lookup(entries[k].members, "value").value)))
  {
    if entries != [] {
      UnrollEntriesPairs(prefix, entries[1..]);
      assert forall k :: 1 <= k < |entries| ==> entries[k] == entries[1..][k - 1];
    }
  }

  /** A list fails with the error of its first entry that is not a `{id, value}` record. */
  lemma {:induction false} UnrollEntriesFirstError(prefix: string, entries: seq<Json>, bad: nat)
    requires bad < |entries| && !IsRecord(entries[bad])
    requires forall k :: 0 <= k < bad ==> IsRecord(entries[k])
    ensures UnrollEntries(prefix, entries)
         == Err(if entries[bad].Obj? then EntryMissingKey else EntryNotMapping)
  {
    if bad > 0 {
      assert IsRecord(entries[0]);
      UnrollEntriesFirstError(prefix, entries[1..], bad - 1);
    }
  }

  /** Keys a record carries besides `id` and `value` do not change its pair. */
  lemma EntryExtraKeysIgnored(prefix: string, pre: seq<(string, Json)>, members: seq<(string, Json)>,
                               extra: seq<(string, Json)>)
    requires IsRecord(Obj(members))
    requires Lookup(pre, "id").None? && Lookup(pre, "value").None?
    ensures EntryField(prefix, Obj(pre + members + extra)) == EntryField(prefix, Obj(members))
  {
    LookupWithin(pre, members, extra, "id");
    LookupWithin(pre, members, extra, "value");
  }

  lemma LookupWithin(pre: seq<(string, Json)>, members: seq<(string, Json)>, extra: seq<(string, Json)>,
                     key: string)
    requires Lookup(members, key).Some? && Lookup(pre, key).None?
    ensures Lookup(pre + members + extra, key) == Lookup(members, key)
  {
    LookupAppend(members, extra, key);
    assert pre + members + extra == pre + (members + extra);
    LookupSkip(pre, members + extra, key);
  }

  lemma {:induction false} LookupSkip(a: seq<(string, Json)>, b: seq<(string, Json)>, key: string)
    requires Lookup(a, key).None?
    ensures Lookup(a + b, key) == Lookup(b, key)
  {
    if a == [] {
      assert a + b == b;
    } else {
      assert (a + b)[1..] == a[1..] + b;
      LookupSkip(a[1..], b, key);
    }
  }

  lemma {:induction false} LookupAppend(a: seq<(string, Json)>, b: seq<(string, Json)>, key: string)
    requires Lookup(a, key).Some?
    ensures Lookup(a + b, key) == Lookup(a, key)
  {
    if a[0].0 != key {
      assert (a + b)[1..] == a[1..] + b;
      LookupAppend(a[1..], b, key);
    }
  }

  lemma {:induction false} UnrollMembersKeys(prefix: string, j: Json, i: nat)
    requires j.Obj? && i <= |j.members|
    requires UnrollMembers(prefix, j, i).Ok?
    ensures forall f :: f in UnrollMembers(prefix, j, i).value ==> prefix <= f.0
    decreases j, 0, |j.members| - i
  {
    if i < |j.members| {
      var key := j.members[i].0;
      UnrollKeys(prefix + key, j.members[i].1);
      UnrollMembersKeys(prefix, j, i + 1);
      forall f | f in Unroll(prefix + key, j.members[i].1).value
        ensures prefix <= f.0
      {
        assert prefix <= prefix + key;
      }
    }
  }

  lemma {:induction false} UnrollEntriesKeys(prefix: string, entries: seq<Json>)
    requires UnrollEntries(prefix, entries).Ok?
    ensures forall f :: f in UnrollEntries(prefix, entries).value ==> prefix <= f.0
  {
    if entries != [] {
      UnrollEntriesKeys(prefix, entries[1..]);
      var members := entries[0].members;
      assert prefix <= prefix + PyStr(Lookup(members, "id").value);
    }
  }

  /**
   * Every flattened key starts with the prefix; below a dict or a list it
   * starts with the prefix and a `_` separator, unless the prefix is empty,
   * in which case no separator is put in front.
   */
  lemma {:induction false} UnrollKeys(prefix: string, j: Json)
    requires Unroll(prefix, j).Ok?
    ensures forall f :: f in Unroll(prefix, j).value ==> prefix <= f.0
    ensures !j.Prim? && prefix != "" ==>
      forall f :: f in Unroll(prefix, j).value ==> prefix + "_" <= f.0
    decreases j, 1
  {
    match j
    case Prim(_) =>
    case Obj(_) =>
      UnrollMembersKeys(Extend(prefix), j, 0);
      assert prefix <= Extend(prefix);
    case Arr(items) =>
      UnrollEntriesKeys(Extend(prefix), items);
      assert prefix <= Extend(prefix);
  }

  /** A dict with one member flattens that member under `prefix_key`, or just `key` at the root. */
  lemma UnrollSingleMember(prefix: string, key: string, value: Json)
    ensures Unroll(prefix, Obj([(key, value)]))
         == Unroll(if prefix == "" then key else prefix + "_" + key, value)
  {
    var j := Obj([(key, value)]);
    assert UnrollMembers(Extend(prefix), j, 1) == Ok([]);
    var r := Unroll(Extend(prefix) + key, value);
    assert Extend(prefix) + key == if prefix == "" then key else prefix + "_" + key;
    if r.Ok? {
      assert r.value + [] == r.value;
    }
  }

  lemma CombineAssociative(a: Result<seq<Field>, FlattenError>, b: Result<seq<Field>, FlattenError>,
                           c: Result<seq<Field>, FlattenError>)
    ensures Combine(Combine(a, b), c) == Combine(a, Combine(b, c))
  {
    if a.Ok? && b.Ok? && c.Ok? {
      assert (a.value + b.value) + c.value == a.value + (b.value + c.value);
    }
  }

  lemma {:induction false} UnrollMembersShift(prefix: string, a: seq<(string, Json)>,
                                              b: seq<(string, Json)>, k: nat)
    requires k <= |b|
    ensures UnrollMembers(prefix, Obj(a + b), |a| + k) == UnrollMembers(prefix, Obj(b), k)
    decreases |b| - k
  {
    if k < |b| {
      var whole := Obj(a + b);
      assert whole.members[|a| + k] == b[k];
      UnrollMembersShift(prefix, a, b, k + 1);
      assert UnrollMembers(prefix, whole, |a| + k)
          == Combine(Unroll(prefix + b[k].0, b[k].1), UnrollMembers(prefix, whole, |a| + k + 1));
    }
  }

  lemma {:induction false} UnrollMembersAppend(prefix: string, a: seq<(string, Json)>,
                                               b: seq<(string, Json)>, i: nat)
    requires i <= |a|
    ensures UnrollMembers(prefix, Obj(a + b), i)
         == Combine(UnrollMembers(prefix, Obj(a), i), UnrollMembers(prefix, Obj(b), 0))
    decreases |a| - i
  {
    var rest := UnrollMembers(prefix, Obj(b), 0);
    if i == |a| {
      UnrollMembersShift(prefix, a, b, 0);
      if rest.Ok? {
        assert [] + rest.value == rest.value;
      }
    } else {
      assert (a + b)[i] == a[i];
      UnrollMembersAppend(prefix, a, b, i + 1);
      CombineAssociative(Unroll(prefix + a[i].0, a[i].1), UnrollMembers(prefix, Obj(a), i + 1), rest);
    }
  }

  /**
   * A dict flattens to the in-order concatenation of its members' flattenings:
   * splitting its members in two splits the result the same way, and an error
   * in the first part comes before anything in the second.
   */
  lemma UnrollObjAppend(prefix: string, a: seq<(string, Json)>, b: seq<(string, Json)>)
    ensures Unroll(prefix, Obj(a + b)) == Combine(Unroll(prefix, Obj(a)), Unroll(prefix, Obj(b)))
  {
    UnrollMembersAppend(Extend(prefix), a, b, 0);
  }

  /** The flattener never deduplicates: distinct paths can produce the same key. */
  lemma DuplicateKeysKept()
    ensures Unroll("", Obj([("a_b", Prim(Int(1))), ("a", Obj([("b", Prim(Int(2)))]))]))
         == Ok([("a_b", Int(1)), ("a_b", Int(2))])
  {
    var first, second := ("a_b", Prim(Int(1))), ("a", Obj([("b", Prim(Int(2)))]));
    assert [first, second] == [first] + [second];
    assert [("a_b", Int(1)), ("a_b", Int(2))] == [("a_b", Int(1))] + [("a_b", Int(2))];
    UnrollObjAppend("", [first], [second]);
    UnrollSingleMember("", "a_b", Prim(Int(1)));
    UnrollSingleMember("", "a", Obj([("b", Prim(Int(2)))]));
    UnrollSingleMember("a", "b", Prim(Int(2)));
    assert "a" + "_" + "b" == "a_b";
    assert Unroll("", Obj([("a_b", Prim(Int(1)))])) == Ok([("a_b", Int(1))]);
    assert Unroll("", Obj([("a", Obj([("b", Prim(Int(2)))]))])) == Ok([("a_b", Int(2))]);
  }

  /** A list of `{id, value}` records flattens to one stringified pair per record. */
  lemma ListOfRecordsExample()
    ensures Unroll("", Obj([("x", Arr([Obj([("id", Prim(Str("t1"))), ("value", Prim(Int(3)))]),
                                      Obj([("id", Prim(Str("t2"))), ("value", Prim(Int(4)))])]))]))
         == Ok([("x_t1", Str("3")), ("x_t2", Str("4"))])
  {
    var items := [Obj([("id", Prim(Str("t1"))), ("value", Prim(Int(3)))]),
                  Obj([("id", Prim(Str("t2"))), ("value", Prim(Int(4)))])];
    UnrollSingleMember("", "x", Arr(items));
    UnrollEntriesPairs("x_", items);
    assert PyStr(Prim(Int(3))) == "3" && PyStr(Prim(Int(4))) == "4";
    assert "x_" + "t1" == "x_t1" && "x_" + "t2" == "x_t2";
    assert Lookup(items[0].members, "id") == Some(Prim(Str("t1")));
    assert Lookup(items[0].members, "value") == Some(Prim(Int(3)));
    assert Lookup(items[1].members, "id") == Some(Prim(Str("t2")));
    assert Lookup(items[1].members, "value") == Some(Prim(Int(4)));
    assert Extend("x") == "x_";
    var pairs := UnrollEntries("x_", items).value;
    assert pairs[0] == ("x_t1", Str("3")) && pairs[1] == ("x_t2", Str("4"));
    assert pairs == [("x_t1", Str("3")), ("x_t2", Str("4"))];
  }

  // ---------------------------------------------------------------------------
  // Merging the `status` and `power` responses: `{**status_json, **power_json}`

  function Keys(members: seq<(string, Json)>): (keys: seq<string>)
    ensures |keys| == |members|
    ensures forall k :: 0 <= k < |members| ==> keys[k] == members[k].0
  {
    seq(|members|, k requires 0 <= k < |members| => members[k].0)
  }

  /** `d[key] = value`: overwrites in place when the key is there, appends otherwise. */
  function Assign(members: seq<(string, Json)>, key: string, value: Json): seq<(string, Json)>
  {
    if members == [] then [(key, value)]
    else if members[0].0 == key then [(key, value)] + members[1..]
    else [members[0]] + Assign(members[1..], key, value)
  }

  /** The keys of `keys` not in `seen`, in order, each once. */
  function Fresh(seen: seq<string>, keys: seq<string>): (r: seq<string>)
    ensures forall k :: k in r <==> k in keys && k !in seen
    decreases |keys|
  {
    if keys == [] then []
    else if keys[0] in seen then Fresh(seen, keys[1..])
    else [keys[0]] + Fresh(seen + [keys[0]], keys[1..])
  }

  /**
   * Unpacking `b` into a dict that already holds `a`: each member of `b`
   * assigned in turn, so `a`'s keys keep their places and `b`'s new keys
   * follow in `b`'s order.
   */
  function MergeMembers(a: seq<(string, Json)>, b: seq<(string, Json)>): (r: seq<(string, Json)>)
    ensures Keys(r) == Keys(a) + Fresh(Keys(a), Keys(b))
    decreases |b|
  {
    if b == [] then a
    else
      var a' := Assign(a, b[0].0, b[0].1);
      AssignKeys(a, b[0].0, b[0].1);
      assert Keys(b) == [b[0].0] + Keys(b[1..]);
      FreshStep(Keys(a), b[0].0, Keys(b[1..]), Keys(a'));
      MergeMembers(a', b[1..])
  }

  /** Assigning `key` then merging `rest` places the same keys as merging `key` and `rest`. */
  lemma FreshStep(seen: seq<string>, key: string, rest: seq<string>, seen': seq<string>)
    requires seen' == if key in seen then seen else seen + [key]
    ensures seen' + Fresh(seen', rest) == seen + Fresh(seen, [key] + rest)
  {
    assert ([key] + rest)[1..] == rest;
    if key !in seen {
      assert seen + [key] + Fresh(seen', rest) == seen + ([key] + Fresh(seen', rest));
    }
  }

  datatype SampleError =
    | NotAMapping              // `**` applied to a response that is not a dict (TypeError)
    | Flatten(error: FlattenError)

  /** The one-shot sample's document: the status response overlaid with the power response. */
  function MergeResponses(status: Json, power: Json): (r: Result<Json, SampleError>)
    ensures r.Ok? <==> status.Obj? && power.Obj?
    ensures r.Ok? ==> r.value.Obj?
    ensures r.Ok? ==> var first := Fresh([], Keys(status.members));
      Keys(r.value.members) == first + Fresh(first, Keys(power.members))
  {
    if status.Obj? && power.Obj? then
      var base := MergeMembers([], status.members);
      assert Keys(base) == Fresh([], Keys(status.members)) by {
        assert Keys([]) == [];
      }
      Ok(Obj(MergeMembers(base, power.members)))
    else Err(NotAMapping)
  }

  lemma {:induction false} AssignLookup(members: seq<(string, Json)>, key: string, value: Json, k: string)
    ensures Lookup(Assign(members, key, value), k) == if k == key then Some(value) else Lookup(members, k)
  {
    if members != [] && members[0].0 != key {
      AssignLookup(members[1..], key, value, k);
    }
  }

  lemma {:induction false} AssignKeys(members: seq<(string, Json)>, key: string, value: Json)
    ensures Keys(Assign(members, key, value)) == if key in Keys(members) then Keys(members) else Keys(members) + [key]
  {
    if members == [] {
      assert Keys([(key, value)]) == [key];
    } else {
      var rest := Assign(members[1..], key, value);
      KeysCons(members);
      if members[0].0 == key {
        KeysCons([(key, value)] + members[1..]);
        assert ([(key, value)] + members[1..])[1..] == members[1..];
      } else {
        AssignKeys(members[1..], key, value);
        KeysCons([members[0]] + rest);
        assert ([members[0]] + rest)[1..] == rest;
      }
    }
  }

  lemma KeysCons(members: seq<(string, Json)>)
    requires members != []
    ensures Keys(members) == [members[0].0] + Keys(members[1..])
  {
    assert forall k :: 1 <= k < |members| ==> Keys(members)[k] == Keys(members[1..])[k - 1];
  }

  /**
   * After the merge a key holds the power response's value when that response
   * has the key, and the status response's value otherwise.
   */
  lemma {:induction false} MergeLookup(a: seq<(string, Json)>, b: seq<(string, Json)>, k: string)
    requires DistinctKeys(b)
    ensures Lookup(MergeMembers(a, b), k) == if Lookup(b, k).Some? then Lookup(b, k) else Lookup(a, k)
    decreases |b|
  {
    if b != [] {
      MergeLookup(Assign(a, b[0].0, b[0].1), b[1..], k);
      AssignLookup(a, b[0].0, b[0].1, k);
      if k == b[0].0 {
        assert forall n :: 0 <= n < |b[1..]| ==> b[1..][n].0 != k by {
          forall n | 0 <= n < |b[1..]| ensures b[1..][n].0 != k {
            assert b[1..][n] == b[n + 1];
          }
        }
      }
    }
  }

  /**
   * The merged keys are the status keys in their own order, followed by the
   * power keys the status response does not have; no key appears twice.
   */
  lemma {:induction false} MergeKeys(a: seq<(string, Json)>, b: seq<(string, Json)>)
    requires DistinctKeys(a)
    ensures Keys(a) <= Keys(MergeMembers(a, b))
    ensures forall k :: k in Keys(MergeMembers(a, b)) <==> k in Keys(a) || k in Keys(b)
    ensures DistinctKeys(MergeMembers(a, b))
    ensures Keys(MergeMembers(a, b)) == Keys(a) + Fresh(Keys(a), Keys(b))
    decreases |b|
  {
    if b != [] {
      var a' := Assign(a, b[0].0, b[0].1);
      AssignKeys(a, b[0].0, b[0].1);
      assert DistinctKeys(a') by {
        forall m, n | 0 <= m < n < |a'| ensures a'[m].0 != a'[n].0 {
          assert Keys(a')[m] == a'[m].0 && Keys(a')[n] == a'[n].0;
          if n < |a| {
            assert a'[m].0 == a[m].0 && a'[n].0 == a[n].0;
          }
        }
      }
      MergeKeys(a', b[1..]);
      assert Keys(b) == [b[0].0] + Keys(b[1..]);
    }
  }

  // ---------------------------------------------------------------------------
  // Building points and the query loop

  /**
   * `build_point`: every tag copied verbatim and in order, then every flattened
   * pair as a field in flattening order; a flattening error propagates.
   */
  method BuildPoint(name: string, tags: seq<Tag>, json: Json) returns (r: Result<Point, FlattenError>)
    ensures r.Ok? <==> Flattenable(json)
    ensures r.Ok? ==> Unroll("", json).Ok? && r.value == Point(name, tags, Unroll("", json).value)
    ensures r.Err? ==> Unroll("", json) == Err(r.error)
  {
    var point := Point(name, [], []);
    for i := 0 to |tags|
      invariant point == Point(name, tags[..i], [])
    {
      point := point.WithTag(tags[i].0, tags[i].1);
    }
    var pairs := Unroll("", json);
    if pairs.Err? {
      return Err(pairs.error);
    }
    for i := 0 to |pairs.value|
      invariant point == Point(name, tags, pairs.value[..i])
    {
      point := point.WithField(pairs.value[i].0, pairs.value[i].1);
    }
    return Ok(point);
  }

  /**
   * `query_data` with empty tags. With a terminal on stdout: one merged
   * status+power sample, printed as a diagnostic. Otherwise: for each trigger
   * line, the next status response (`status(k)` is the k-th fetch) as one
   * line on stdout, until end of input or the first response that cannot be
   * flattened, which ends the run with that error.
   */
  method QueryData(name: string, stdoutIsTty: bool, stdin: seq<string>, status: nat -> Json, power: Json)
    returns (stdout: seq<string>, sample: Option<string>, failure: Option<SampleError>)
    ensures stdoutIsTty ==> stdout == [] && (sample.Some? <==> failure.None?)
    ensures stdoutIsTty && MergeResponses(status(0), power).Err? ==> failure == Some(NotAMapping)
    ensures stdoutIsTty && MergeResponses(status(0), power).Ok? ==>
      var merged := MergeResponses(status(0), power).value;
      if Unroll("", merged).Ok? then sample == Some(LineProtocol(Point(name, [], Unroll("", merged).value)))
      else failure == Some(Flatten(Unroll("", merged).error))
    ensures !stdoutIsTty ==> sample == None && |stdout| <= |StdinLines.Lines(stdin)|
    ensures !stdoutIsTty ==> forall k :: 0 <= k < |stdout| ==>
      Unroll("", status(k)).Ok? && stdout[k] == LineProtocol(Point(name, [], Unroll("", status(k)).value))
    ensures !stdoutIsTty ==> (failure.None? <==> |stdout| == |StdinLines.Lines(stdin)|)
    ensures !stdoutIsTty && failure.Some? ==>
      Unroll("", status(|stdout|)).Err? && failure.value == Flatten(Unroll("", status(|stdout|)).error)
  {
    stdout, sample, failure := [], None, None;
    if stdoutIsTty {
      var merged := MergeResponses(status(0), power);
      if merged.Err? {
        failure := Some(merged.error);
        return;
      }
      var point := BuildPoint(name, [], merged.value);
      if point.Err? {
        failure := Some(Flatten(point.error));
        return;
      }
      sample := Some(LineProtocol(point.value));
      return;
    }
    var k := 0;
    while k < |stdin| && stdin[k] != ""
      invariant k <= |StdinLines.Lines(stdin)| && |stdout| == k
      invariant forall n :: 0 <= n < k ==>
        Unroll("", status(n)).Ok? && stdout[n] == LineProtocol(Point(name, [], Unroll("", status(n)).value))
    {
      var point := BuildPoint(name, [], status(k));
      if point.Err? {
        failure := Some(Flatten(point.error));
        return;
      }
      stdout := stdout + [LineProtocol(point.value)];
      k := k + 1;
    }
  }
}
