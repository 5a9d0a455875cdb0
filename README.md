# Salary aggregation bot: a Dafny model

The repository is a Telegram bot. Its one piece of logic is `aggregate_salaries`. The function takes a time range `dt_from`..`dt_upto` and a granularity word `group_type` (`hour`, `day` or `month`). It runs a MongoDB aggregation pipeline over the salary records: `$match` on `dt`, inclusive on both ends; `$group` by `dt` truncated to the granularity, with `$sum` of `value`; `$sort` ascending by group key. It returns `{"dataset": [totals], "labels": [keys]}`, with each list wrapped in a one-element outer list. The function is written twice:

- The copy in `main.py` returns exactly that.
- The copy in `utils.py` appends one more bucket. Its value is `0` and its label is the last real label plus one hour, whatever the granularity.

`utils.py` also has `escape_markdown`, which backslash-escapes the characters reserved by Telegram's MarkdownV2 syntax, plus the backslash itself.

Files:

- `results.dfy`: module `Results`. The exceptions the code raises are modelled as an `Error` value inside a `Result`:
  - `ValueError` from `datetime.fromisoformat`, for a text of the wrong shape;
  - `ValueError` from the datetime constructor, for a well-shaped text with a field out of range;
  - `ValueError` for a bad `group_type`;
  - `IndexError` from `labels[-1]`;
  - `OverflowError` from the datetime addition.
- `calendar.dfy`: module `Calendar`. It holds:
  - timestamps as field tuples (`DateTime`) and the validity of a naive datetime (years 1 to 9999, real calendar days);
  - chronological order;
  - the fixed-width ISO 8601 text `YYYY-MM-DDThh:mm:ss` (ISO 8601:2004, section 4.3.2), written by `Format` and read by `Parse`;
  - "plus one hour" with day, month and year rollover (`AddHour`).
- `aggregation.dfy`: module `Aggregation`, which is `main.py`. The record store is a `seq<Record>`. Each pipeline stage is a pure function:
  - `Matched` is the `$match` stage.
  - `AddTo` and `Group` are `$group` + `$sum` + `$sort`. Each record is added to a strictly ascending list of groups.
  - `Aggregate` shapes the result.
  - `AggregateSalaries` adds the parsing and the granularity dispatch.

  The results are specified against reference sums taken directly over the store: `RangeSum` and `BucketSum`.
- `utils.dfy`: module `Utils`, which is `utils.py`. It holds `EscapeMarkdown` with its inverse `Unescape`, and the padded variant as a method. The method extends the two result lists the way `dataset.append(0)` and `labels.append(...)` do.

A label is a `DateTime` field tuple, and its text is `Format(label)`. The lemma `FormatOrder` shows that on valid datetimes the string order of these texts equals chronological order. So sorting the string `_id`s, as MongoDB does, and sorting the tuples give the same order. `ParseOfFormat` shows that reading a written label back gives the same tuple. The padded variant uses this where it calls `datetime.fromisoformat(labels[-1])`.

The two copies of `aggregate_salaries` are identical up to the appended bucket. The padded method therefore calls `Aggregation.AggregateSalaries` instead of restating the pipeline, and then appends.

## Model

| member | source | states |
|---|---|---|
| `Calendar.Parse` | main.py:34-35 | An accepted timestamp text gives a valid datetime. A text without the `YYYY-MM-DDThh:mm:ss` shape is rejected with the "Invalid isoformat string" ValueError that names the text. A well-shaped text naming no real datetime, such as `2024-02-30T00:00:00`, is rejected with the datetime constructor's out-of-range-field ValueError. |
| `Calendar.Format` | main.py:60 | The text of a key, as `$dateToString` and `.isoformat()` write it, is always 19 characters. Its meaning is fixed by `ParseOfFormat`, `FormatOfParse` and `FormatOrder`. |
| `Calendar.ParseOfFormat` | utils.py:74 | Writing a valid datetime as `YYYY-MM-DDThh:mm:ss` and parsing it back gives the same datetime. So `fromisoformat(labels[-1])` recovers the last bucket key. |
| `Calendar.FormatOfParse` | main.py:34-35 | Every text the parser accepts is the canonical text of the datetime it returns. |
| `Calendar.FormatOrder` | main.py:64 | On valid datetimes, string order of the fixed-width texts equals chronological order. |
| `Calendar.AddHour` | utils.py:74 | `+ timedelta(hours=1)`: the result is valid, strictly later, and keeps minutes and seconds. It fails with OverflowError exactly at 9999-12-31, hour 23. |
| `Calendar.AddHourIsNextHour` | utils.py:74 | No hour is skipped. Among valid datetimes with the same minutes and seconds, `AddHour(d)` is the first one after `d`, and it exists whenever any later one does. |
| `Aggregation.ParseGroupType` | main.py:38-45 | Exactly `"hour"`, `"day"` and `"month"` are accepted, and each maps to the granularity of that name. Everything else is the invalid-group_type ValueError; there is no default. |
| `Aggregation.ParseGroupTypeName` | main.py:38-43 | Each granularity's own name is accepted and gives that granularity back. |
| `Aggregation.Truncate` | main.py:38-43 | The key that `$dateToString` writes with `%Y-%m-%dT%H:00:00`, `%Y-%m-%dT00:00:00` or `%Y-%m-01T00:00:00`. Every key is a whole hour in the same year as its record and, for a real day, not after the record. |
| `Aggregation.TruncateIsBucketStart` | main.py:38-43 | The key of a valid `d` is the start of its bucket. It is a valid fixed point of truncation, not after `d`, and no bucket start lies strictly between it and `d`. |
| `Aggregation.TruncateMonotone` | main.py:60 | Truncation preserves chronological order. |
| `Aggregation.TruncateExample` | main.py:39-43 | `2024-03-15T14:37:00` has key `14:00:00` for hour, `2024-03-15T00:00:00` for day and `2024-03-01T00:00:00` for month. |
| `Aggregation.Matched` | main.py:57 | A record is kept if and only if it is in the store and `from <= dt <= to`, inclusive at both ends. |
| `Aggregation.AddTo` | main.py:58-64 | One record's step of `$group`/`$sum`/`$sort`: it either adds to the group with its key or inserts one new group, so the list grows by at most one. Its meaning is stated by `AddToSpec`. |
| `Aggregation.Group` | main.py:58-64 | `$group` by key with `$sum` of `value`, sorted by key: there are never more groups than records. Its meaning is stated by `GroupSpec`. |
| `Aggregation.AddToSpec` | main.py:58-64 | Adding one record keeps the groups strictly ascending. It adds the record's key to the key set, adds `value` to that key's total only, and raises the sum of totals by `value`. |
| `Aggregation.GroupSpec` | main.py:58-64 | The groups are strictly ascending. There is one group for exactly the keys some record has. Each group's total is the sum over that key's records, and all totals add up to the sum of all values. |
| `Aggregation.TotalOfOwnKey` | main.py:59-61 | With ascending keys, no other group shares a group's key, so its total is its own. |
| `Aggregation.MatchedSums` | main.py:57-61 | Sums over the matched records equal the range-restricted sums over the whole store, per key and overall. |
| `Aggregation.Aggregate` | main.py:72-75 | Both outer lists have exactly one element. The inner `dataset` and `labels` have equal length, and the labels are strictly ascending. |
| `Aggregation.AggregateTotals` | main.py:58-61 | `dataset[0][i]` is the sum of `value` over the store's records in `[from, to]` whose key is `labels[0][i]`. |
| `Aggregation.AggregateLabels` | main.py:57-60 | A datetime is a label if and only if it is the key of some store record in `[from, to]`. |
| `Aggregation.AggregateConservation` | main.py:57-61 | Conservation: the sum of `dataset[0]` is the sum of `value` over all records in `[from, to]`. |
| `Aggregation.AggregateEmpty` | main.py:69-75 | The result is `{"dataset": [[]], "labels": [[]]}` if and only if no record lies in `[from, to]`. |
| `Aggregation.ReversedRangeIsEmpty` | main.py:57 | A range with `from` after `to` is not an error; it gives the empty result. |
| `Aggregation.LabelsAreBucketStarts` | main.py:59-60 | Over a store of real calendar dates, and for a range between two valid datetimes, every label is a valid datetime and the start of its own bucket. |
| `Aggregation.LabelTextsAscending` | main.py:64 | The label texts, which are the `_id` strings, are strictly ascending as strings. |
| `Aggregation.AggregateSalaries` | main.py:30-75 | Both timestamps are parsed before `group_type` is checked, so a bad `dt_from`, then a bad `dt_upto`, wins over a bad group type. The call succeeds if and only if all three are accepted, and then it gives the chart for the parsed range and granularity. |
| `Aggregation.HourlyExample` | main.py:30-75 | Records at 10:15 (100) and 11:05 (50) on 2024-01-01, over that day by hour, give labels `[[10:00:00, 11:00:00]]` and dataset `[[100, 50]]`. |
| `Utils.EscapeMarkdown` | utils.py:21-23 | The output is as long as the input plus one per reserved character. |
| `Utils.EscapeCharsAreNineteen` | utils.py:22 | The escape set has 19 distinct characters, including the backslash. |
| `Utils.EscapeConcat` | utils.py:23 | Escaping works character by character and keeps the input order: escaping `a + b` gives the escape of `a` followed by the escape of `b`. |
| `Utils.UnescapeOfEscape` | utils.py:23 | Round trip: dropping each escaping backslash from the output, and keeping the character after it, gives the input back. |
| `Utils.EscapeIsWellEscaped` | utils.py:22-23 | In the output, every reserved character, the backslash included, stands right after an escaping backslash. |
| `Utils.EscapeOfUnescape` | utils.py:22-23 | Every well-escaped text is the escape of exactly one text, so escaping is a bijection onto well-escaped texts. |
| `Utils.AggregateSalariesPadded` | utils.py:27-76 | Errors of the unpadded function propagate unchanged. No matching record gives IndexError. If the last label is the last representable hour, the result is OverflowError. Otherwise both lists get one more entry: value 0, labelled one hour after the last label. The first `n` entries equal the unpadded result, the labels stay strictly ascending, and the totals still sum to the range sum. |
| `Utils.PaddedLabelPlacement` | utils.py:73-74 | For `hour`, the appended label is the next bucket start. For `day` and `month` it is `T01:00:00` inside the last real bucket, not the start of the next bucket. |

## Left out

- The MongoDB client, its module-load initialisation, `collection.aggregate` and `to_list` (main.py:25-26, 68-69; utils.py:16-17, 65-66) are external I/O. The store is a `seq<Record>`, and the pipeline is modelled by its stated semantics. A store failure (connection or query error) is not modelled.
- `async`/`await` is not modelled. There is no concurrency in the logic.
- `load_dotenv`, `os.getenv` and logging are configuration plumbing and are not modelled.
- All aiogram code is not modelled: `handle_message`, `handle_start`, `main` and polling (handlers.py is not part of this model). It is chat transport.
- `json.loads` and `json.dumps` are library calls and are not modelled.
- `Calendar.Parse`: only the fixed 19-character `YYYY-MM-DDThh:mm:ss` layout is modelled. The rest of `datetime.fromisoformat`'s grammar is rejected by the model. That includes date-only text, other separators, fractional seconds and UTC offsets.
- Time zones, and the UTC conversion inside `$dateToString`, are not modelled. Timestamps are naive.
- Stored timestamps have second precision in the model. MongoDB's milliseconds are not modelled.
- `$sum` over non-numeric or missing `value` fields is not modelled. Every record has an integer `value`, and integers are unbounded.
- `Aggregation.TruncateIsBucketStart`: requires a valid datetime. On an impossible day such as day 0, "not after `d`" would not hold for `month`, and such a datetime cannot be stored.
- `Utils.AggregateSalariesPadded`: requires every stored `dt` to be a real calendar date and time (`ValidStore`), in any year. A stored date outside years 1..9999 is allowed; the parsed range never contains it, so `$match` drops it. A BSON date before year 0 cannot be written as a `DateTime`, whose year is a natural number, so it is not modelled.
- Idempotence gets no lemma. Every operation is a function of the store and its arguments, so it holds by construction.
- Both parse failures and the bad `group_type` raise ValueError in the code. The model gives them separate constructors with the same trigger conditions. It does not model the exact message text of each ValueError.
- The padded copy always appends. With no matching record it raises IndexError.
