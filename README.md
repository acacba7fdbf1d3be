# goodwe2influxdb core, modelled in Dafny

The repository holds small bridges that feed InfluxDB through Telegraf's
`execd` input. Telegraf writes a line to the program's stdin whenever it
wants data. The program answers with points in the InfluxDB line format on
stdout. This project models the logic between the device I/O and that
output:

- **AZ-router bridge** (`azrouter.dfy`, module `AzRouter`).
  - `unroll_json` flattens a decoded JSON response into ordered
    `(key, value)` pairs. Keys are joined with `_`, with no separator at the
    root. Lists of `{id, value}` records become `prefix_id = str(value)`.
    Any other type is an error.
  - `build_point` copies the tags, then the flattened pairs, onto a point.
  - `query_data` has two modes. The one-shot sample merges the `status` and
    `power` responses. The trigger loop emits one line per stdin line from
    the next `status` response.
- **GoodWe inverter bridge** (`goodwe.dfy`, module `GoodWe`).
  - `read_point` picks the sensors to report and names their fields with
    `_UNIT_MAP` and `_IGNORED_FIELDS`.
  - `get_runtime_data` collects the tags and serves triggers.
  - `detect_ip_address` takes the address out of the discovery reply.
- **Telegraf execd driver** (`telegraf_plugin.dfy`, module
  `TelegrafPlugin`). This is a class `Plugin` whose state is:
  - the items the point source yields before it stops;
  - how many pulls and triggers have happened;
  - stdout, how much of it is flushed, stderr and the exit status.

  Each trigger line makes exactly one pull. Each pulled batch is written one
  line per point and then flushed. End of input exits with 0. A source that
  stops exits with 1. With a terminal on stderr the driver logs one sample
  instead. When the source yields nothing there, it goes on to the trigger
  loop (see "## Findings").
- **Shared pieces.**
  - `stdin_lines.dfy` holds the `stdin_lines` termination rule. Each of the
    three programs has its own identical copy of that rule.
  - `points.dfy` holds points as measurement, tag list and field list, plus
    a stand-in for the line serializer.
  - `wrappers.dfy` holds `Option` and `Result`.

The outside world enters as parameters:
- A device fetch becomes a function from the fetch's index to its result
  (`status: nat -> Json`, `runtime: nat -> map<string, Scalar>`).
- The inverter's sensor list and attributes are inputs.
- `GoodWe.GetRuntimeData` receives an address that is already resolved.
- stdin becomes the sequence of values `readline` returns.
- `isatty` becomes a boolean.
- The point source becomes the sequence of items it yields before it stops.

Three behaviours of the code deserve stating outright:
- A list entry may carry keys besides `id` and `value`. They are ignored
  (`AzRouter.EntryExtraKeysIgnored`).
- Flattened keys are not deduplicated. Two paths can give the same key
  (`AzRouter.DuplicateKeysKept`).
- The driver checks whether *stderr* is a terminal. The two device bridges
  check stdout.

## Model

| member | source | states |
|---|---|---|
| `AzRouter.Lookup` | src/azrouter2influxdb.py:63 | `entry[key]` finds a value exactly when some member has the key, and the value found is that key's member |
| `AzRouter.Unroll` | src/azrouter2influxdb.py:49-69 | flattening succeeds exactly on the values `Flattenable` describes: no value of a foreign type outside a list, and every list entry a dict with `id` and `value` (both directions) |
| `AzRouter.UnrollMembers` | src/azrouter2influxdb.py:56-59 | the members of a dict from position `i` on flatten without error exactly when each of their values is flattenable |
| `AzRouter.UnrollEntries` | src/azrouter2influxdb.py:60-66 | a list flattens without error exactly when every entry is a dict holding both `id` and `value` |
| `AzRouter.EntryField` | src/azrouter2influxdb.py:61-66 | an entry gives a pair exactly when it is a dict with `id` and `value`, and the pair's value is always a string. Otherwise it fails with KeyError for a dict and TypeError for anything else |
| `AzRouter.UnrollBaseCases` | src/azrouter2influxdb.py:50-69 | a scalar at `prefix` flattens to exactly `[(prefix, value)]`; an empty dict flattens to nothing; a value of any other type fails with `UnknownType` naming its type |
| `AzRouter.UnrollEntriesPairs` | src/azrouter2influxdb.py:60-63 | a flattened list gives exactly one pair per entry, in list order: key `prefix + str(id)`, value the string `str(value)` |
| `AzRouter.UnrollEntriesFirstError` | src/azrouter2influxdb.py:61-66 | a list fails with the error of its first bad entry: a missing key (KeyError) for a dict, a non-mapping error (TypeError) otherwise |
| `AzRouter.EntryExtraKeysIgnored` | src/azrouter2influxdb.py:61-63 | keys a record carries besides `id` and `value`, before or after them, do not change the pair it yields |
| `AzRouter.UnrollKeys` | src/azrouter2influxdb.py:54-63 | every flattened key starts with the prefix, and below a dict or list with a non-empty prefix it starts with `prefix_` (that no separator is added at the root is stated by `UnrollSingleMember`) |
| `AzRouter.UnrollMembersKeys` | src/azrouter2influxdb.py:56-59 | every key flattened from a dict's members starts with the prefix they are placed under |
| `AzRouter.UnrollEntriesKeys` | src/azrouter2influxdb.py:60-63 | every key flattened from a list starts with the prefix the entries are placed under |
| `AzRouter.UnrollSingleMember` | src/azrouter2influxdb.py:54-59 | a one-member dict flattens its value under `prefix_key`, or under bare `key` at the root |
| `AzRouter.UnrollObjAppend` | src/azrouter2influxdb.py:56-59 | a dict flattens to the in-order concatenation of its members' flattenings. Splitting the members splits the result, and an error in the first part wins |
| `AzRouter.DuplicateKeysKept` | src/azrouter2influxdb.py:56-59 | `{"a_b": 1, "a": {"b": 2}}` flattens to two pairs, both keyed `a_b`: the flattener does not deduplicate |
| `AzRouter.ListOfRecordsExample` | src/azrouter2influxdb.py:60-63 | `{"x": [{"id": "t1", "value": 3}, {"id": "t2", "value": 4}]}` flattens to `x_t1 = "3"`, `x_t2 = "4"` |
| `AzRouter.AssignLookup` | src/azrouter2influxdb.py:108 | after `d[key] = value` the key reads `value`, and every other key reads what it read before |
| `AzRouter.AssignKeys` | src/azrouter2influxdb.py:108 | `d[key] = value` keeps the key order, and appends the key only when it was absent |
| `AzRouter.MergeMembers` | src/azrouter2influxdb.py:108 | unpacking one dict into another keeps the first dict's keys in their places, followed by the second's new keys in the second's order |
| `AzRouter.MergeResponses` | src/azrouter2influxdb.py:108 | `{**status, **power}` fails exactly when a response is not a dict. Otherwise its keys are status's keys, then power's keys that status lacks, in power's order |
| `AzRouter.MergeLookup` | src/azrouter2influxdb.py:108 | in `{**status, **power}` a key holds power's value when power has it, and status's value otherwise |
| `AzRouter.MergeKeys` | src/azrouter2influxdb.py:108 | the merged keys are status's keys in their order followed by power's new keys in power's order. They are exactly the union of both key sets, and distinct |
| `AzRouter.BuildPoint` | src/azrouter2influxdb.py:72-79 | the point carries the tags verbatim and in order, then the flattened pairs in flattening order. It fails exactly when flattening fails, with the flattener's error |
| `AzRouter.QueryData` | src/azrouter2influxdb.py:101-116 | with a terminal on stdout: nothing on stdout, and either one sample from the merged status+power document with empty tags or the merge or flatten error. Otherwise the k-th line is the k-th status response's point with empty tags. There is one line per trigger unless a response fails to flatten, and then the run ends with that response's error |
| `Points.TagInLine` | src/telegraf_plugin_main.py:62 | every tag of a point appears as `,key=value` in its line |
| `Points.FieldInLine` | src/telegraf_plugin_main.py:62 | every field of a point that holds a value appears as `key=value` in its line |
| `StdinLines.Lines` | src/telegraf_plugin_main.py:47-57 | the triggers are a prefix of the `readline` results, none of them empty, and the result right after them (if any) is the empty read |
| `StdinLines.LinesIgnoreAfterEof` | src/telegraf_plugin_main.py:53-57 | input after the first empty read is never a trigger |
| `GoodWe.FieldName` | src/goodwe2influxdb.py:47-50 | unit `%` gives `id_pct`, unit `1` or an empty unit gives plain `id`, and any other unit `u` gives `id_u` |
| `GoodWe.SensorFields` | src/goodwe2influxdb.py:43-51 | no sensor gives more than one field, and no field holds None |
| `GoodWe.SensorFieldsAppend` | src/goodwe2influxdb.py:43-51 | fields follow sensor order: the fields of two runs of sensors are the first run's fields, then the second's |
| `GoodWe.SensorFieldsExactly` | src/goodwe2influxdb.py:44-51 | a sensor gives its field, under its field name, when it has a reading other than None (falsy readings included) and its id is not `timestamp`. Every field comes from such a sensor |
| `GoodWe.ReadPoint` | src/goodwe2influxdb.py:38-52 | the point has the measurement name and all tags verbatim and in order before the fields. Its fields are exactly the reporting sensors' fields, in sensor order |
| `GoodWe.CollectTags` | src/goodwe2influxdb.py:89-96 | `ip_address` comes first. Each of the six listed attributes is present exactly when the inverter has it with a truthy value, with its string value. No other key is present and no key repeats |
| `GoodWe.GetRuntimeData` | src/goodwe2influxdb.py:84-107 | the tags are `ip_address` first, then exactly the listed attributes the inverter has with a truthy value, with their string values, no key twice. With a terminal on stdout: the sample's line from the second runtime read. Otherwise: one line per trigger, the k-th from the k-th runtime read, all with those tags |
| `GoodWe.ServeTriggers` | src/goodwe2influxdb.py:103-107 | one line per trigger line, the k-th being the point built from the k-th runtime read |
| `GoodWe.BeforeComma` | src/goodwe2influxdb.py:35 | the part of the reply before the first comma is a prefix with no comma, followed by a comma unless it is the whole reply |
| `GoodWe.DecodeAscii` | src/goodwe2influxdb.py:35 | ASCII decoding keeps every byte as the same character, or fails at the first byte of 128 or more |
| `GoodWe.DetectIpAddress` | src/goodwe2influxdb.py:32-35 | the address is the ASCII text of the reply before the first comma (all of it without one), so it holds no comma. It fails exactly when a byte before that comma is not ASCII |
| `TelegrafPlugin.AsBatch` | src/telegraf_plugin_main.py:83-84 | a yielded single point becomes a one-element batch, and any other yielded iterable is the batch unchanged (stated by `OneItemLines`) |
| `TelegrafPlugin.OneItemLines` | src/telegraf_plugin_main.py:83-86 | a yielded single point writes exactly its own line; a yielded iterable writes one line per point |
| `TelegrafPlugin.Describe` | src/telegraf_plugin_main.py:73 | the text the sample prints for the item, approximated: the point's line, or the batch's lines in brackets (see "## Left out") |
| `TelegrafPlugin.BatchLines` | src/telegraf_plugin_main.py:60-64 | a batch is written as one line per point, each its point's line, in iteration order |
| `TelegrafPlugin.EmittedLength` | src/telegraf_plugin_main.py:76-86 | the lines written for a run of pulls number the sum of the batch sizes |
| `TelegrafPlugin.EmittedAppend` | src/telegraf_plugin_main.py:76-86 | batches are written in pull order: two runs of pulls write the first run's lines, then the second's |
| `TelegrafPlugin.EarlierBatchesKept` | src/telegraf_plugin_main.py:78-86 | the lines of earlier pulls stay as they are whatever later pulls write |
| `TelegrafPlugin.Plugin.constructor` | src/telegraf_plugin_main.py:76 | a fresh driver has pulled nothing, written nothing and is running |
| `TelegrafPlugin.Plugin.Pull` | src/telegraf_plugin_main.py:79-80 | each `__anext__` call advances the source by one and returns the next item, or signals exhaustion once the source has stopped |
| `TelegrafPlugin.Plugin.EmitPoints` | src/telegraf_plugin_main.py:60-65 | stdout grows by exactly the batch's lines, and everything written is flushed |
| `TelegrafPlugin.Plugin.LogSample` | src/telegraf_plugin_main.py:69-74 | with a terminal on stderr the sample loop makes one pull and writes nothing on stdout. When the source yields an item, the notice and the item go to stderr and the run exits with 0. When it yields nothing, nothing is written and the run goes on |
| `TelegrafPlugin.Plugin.Trigger` | src/telegraf_plugin_main.py:77-86 | one trigger makes one pull. Its batch is appended to stdout and flushed; or, when the source has stopped, nothing is emitted, the stop is logged and the exit status is 1 |
| `TelegrafPlugin.Plugin.Serve` | src/telegraf_plugin_main.py:76-86 | each trigger adds exactly one pull. At end of input stdout holds the batches of all triggers in order and the exit status is 0. When the source stops first the exit status is 1, and everything it yielded stays written |
| `TelegrafPlugin.Plugin.Run` | src/telegraf_plugin_main.py:68-86 | stderr a terminal and a non-empty source: one pull, the sample on stderr, exit 0. Stderr a terminal and an empty source: the trigger loop on an exhausted source, so exit 0 at once on end of input, or the stop logged and exit 1 on the first trigger. Stderr not a terminal: the trigger loop, and in a clean run stdout holds as many lines as the pulled batches hold points. All output is flushed |
| `TelegrafPlugin.Plugin.RunSampleOnly` | src/telegraf_plugin_main.py:68-86 | the evidently intended driver: with a terminal on stderr it ends with 0 after the sample attempt, and never reads stdin; otherwise it behaves as `Run` |
| `TelegrafPlugin.EmptySourceOnTerminal` | src/telegraf_plugin_main.py:69-82 | as written: stderr a terminal, an empty source and one trigger line give two pulls, the stop logged and exit 1 |
| `TelegrafPlugin.EmptySourceOnTerminalIntended` | src/telegraf_plugin_main.py:69-74 | as intended: the same input gives one pull, nothing logged and exit 0 |

## Findings

| source | as written | input that shows it | evidently intended | confidence | as-written member | corrected member |
|---|---|---|---|---|---|---|
| src/telegraf_plugin_main.py:69-76 | the `return` of the terminal branch sits inside the `async for`, so a source that yields nothing falls through to the trigger loop | stderr a terminal, a source that yields nothing, stdin one line then end of input: two pulls, the stop logged, exit 1 | with a terminal on stderr the driver logs at most one sample and ends with 0, without reading stdin | medium; not executed | `TelegrafPlugin.EmptySourceOnTerminal` | `TelegrafPlugin.Plugin.RunSampleOnly` |

`TelegrafPlugin.Plugin.Run` models the code as written.
`TelegrafPlugin.Plugin.RunSampleOnly` is the corrected driver.

## Left out

- Network and device I/O are parameters of the model. This covers the
  `status` and `power` HTTP fetches, GoodWe discovery (`search_inverters`),
  `goodwe.connect`, `read_runtime_data` and `inverter.sensors()`. A failed
  fetch is not modelled.
- `GoodWe.GetRuntimeData` does not model the fallback to discovery when no
  address is given. That is the `ip_address is None` step at
  src/goodwe2influxdb.py:85-86, and it is not composed with
  `GoodWe.DetectIpAddress`.
- `influxdb_client.Point` and `to_line_protocol` are replaced by a stand-in
  serializer:
  - The stand-in writes measurement, `,key=value` tags, a space, then
    comma-separated fields.
  - It does no escaping, sorts no tags, writes no timestamp and does not
    format floats. Float readings are kept as their decimal text.
  - The library's `Point.tag` and `Point.field` store into a dict, so a
    repeated key keeps one value. The model keeps every tag and field in
    order. For example, the two `a_b` pairs of `AzRouter.DuplicateKeysKept`
    become one `a_b` field in the library, and two in the stand-in line.
  - The library drops tags with empty values. The stand-in writes them.
  - The stand-in drops fields holding None. What the library does with a
    point that has no field at all is not modelled.
  - Only the facts that tags and fields appear in the line are stated about
    the stand-in.
- The asyncio machinery becomes sequential loops over sequences. This
  covers the event loop, `connect_read_pipe`, `asyncio.to_thread` and the
  async generators.
- `logging` output is left out, except that the driver's stop message is
  written to `stderr`.
- `argparse` and the `main` functions are left out.
- `os.isatty` is a boolean input.
- `AzRouter.QueryData`: in sample mode the sample's line is returned as
  `sample` instead of logged. The logged `str(json)` of the response is not
  modelled.
- `GoodWe.GetRuntimeData`: in sample mode stdout holds only the final
  line-format line. The human-readable listing that `print_sample` prints
  before it is not modelled.
- `TelegrafPlugin.Describe`: Python prints `str(point)` for a point and
  `str(list)` for a list, which shows each point's `repr` separated by
  `", "`. The model uses the point's line, and for a list the points' lines
  in brackets, separated by commas.
- `TelegrafPlugin.Plugin.LogSample`: the text for the sampled item
  approximates Python's `str` of a point or a list of points by their line
  format.
- Python's `repr` of strings is modelled without escaping quotes or special
  characters. This matters only for `str(id)` and `str(value)` of list
  entries that are not scalars.
- A Python value of any other type reaching the flattener is modelled as
  `Json.Other`, with its type name and its `str` text.
  - Where such a value is a record's `id` or `value`, that text is what the
    pair holds, as `str` gives.
  - Nested inside a dict or list that is a record's `id` or `value`, the
    model still uses the `str` text. Python would use `repr` there.
