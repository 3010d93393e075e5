# CloudWatch log-line renderer

A Dafny model of `AWSCloudWatchLogs`, the structlog renderer in
`src/util/logging.py` of a small Python micro-service. The renderer turns an
event dict into one line for AWS CloudWatch Logs:

    [<LEVEL>] "<callout one>" "<callout two>" <serializer(event_dict, **dumps_kw)>

It has two parts.

- **Construction** takes the first two entries of a `callouts` list as the
  callout keys and ignores the rest. A missing entry becomes `None`. It also
  stores the serializer and its keyword options, adding
  `default = _json_fallback_handler` when the caller gave no `default`.
- **Rendering** upper-cases the level name and resolves each callout. A falsy
  key (None or `""`) gives `none`. A key absent from the event dict gives the
  empty string. A present key gives the `str()` of its value. The serializer
  then gets the whole event dict, callout fields included.

Modules:

- `Wrappers` (wrappers.dfy): `Option` for Python's `None`, `Result` for raised exceptions.
- `Values` (values.dfy): field values, their `str()` text (decimal for ints), the
  event dict as an ordered list of entries, and `dict.get`.
- `Ascii` (ascii.dfy): `str.upper()` on ASCII text.
- `CloudWatch` (cloudwatch.dfy): construction (`InitKeys`, `SetDefault`, the class
  constructor and `Create`), callout resolution (`CalloutText`), the line layout
  (`Line`) with a reader (`ParseLine`) proved to recover the four parts of any
  line whose level has no `]` and whose callouts have no `"`, and
  `AWSCloudWatchLogs.Render`.

The serializer (`json.dumps` by default) and its fallback handler are library
code. They appear as a function-typed field `dumps` and a marker option value
`JsonFallbackHandler`. The serializer's output is taken as it is; nothing else is assumed about it.

Behaviour of the source worth knowing, each stated by a member of the model:

- A configured key that is absent from the event dict renders as `""`. Only an
  unconfigured or falsy key renders as `none` (src/util/logging.py:60-67;
  `CalloutText`, `MissingKeysRenderEmpty`).
- Callout values are inserted unescaped, so a line break or a `"` in a value
  reaches the line (src/util/logging.py:68). A line break makes the output span
  several lines (`CalloutNewlineReachesLine`). A `"` can make two different
  callout pairs render alike (`CalloutsAreNotEscaped`).
- Entries after the second callout are ignored, as the docstring says
  (src/util/logging.py:25-26; `InitKeysIgnoresExtra`).

## Model

| member | source | states |
|---|---|---|
| `Values.Get` | src/util/logging.py:61-65 | `event_dict.get(key, default)`: the default when no entry has the key, otherwise the value of the first entry with that key |
| `Values.GetPresent` | src/util/logging.py:61-65 | in a dict with unique keys, `get` of a present key returns that key's value, never the default |
| `Values.IntText` | src/util/logging.py:68 | `str()` of an int: a minus sign exactly for negatives, then decimal digits with no leading zero that read back to the number |
| `Values.ToText` | src/util/logging.py:68 | `str()` inside the f-string: a string is inserted as it is, an int as `IntText`, and an int, bool or None never gives the empty text or `none` |
| `Values.DecimalRoundTrip` | src/util/logging.py:68 | the decimal text of a natural number reads back to that number |
| `Ascii.Upper` | src/util/logging.py:68 | `name.upper()`: same length, each character upper-cased, nothing else changed |
| `Ascii.UpperHasNoLower` | src/util/logging.py:68 | the upper-cased level name has no lower-case letter |
| `Ascii.UpperIdempotent` | src/util/logging.py:68 | upper-casing twice equals upper-casing once |
| `Ascii.UpperKeepsSymbol` | src/util/logging.py:68 | a non-letter occurs in the upper-cased name exactly when it occurs in the name |
| `CloudWatch.InitKeysTakesFirstTwo` | src/util/logging.py:44-51 | with two or more callouts, the stored keys are exactly `callouts[0]` and `callouts[1]` |
| `CloudWatch.InitKeysIgnoresExtra` | src/util/logging.py:25-26 | entries after the second do not change the stored keys |
| `CloudWatch.InitKeysShortList` | src/util/logging.py:44-51 | an empty list stores no key for either callout; a one-entry list stores it as the first key and no second key (the IndexError is caught) |
| `CloudWatch.InitKeysRejectsNone` | src/util/logging.py:40-47 | the default `callouts=None` raises a TypeError, which `except IndexError` does not catch |
| `CloudWatch.InitKeys` | src/util/logging.py:44-51 | the stored keys, through `callouts[i]` with IndexError caught; it fails exactly when `callouts` is None, and then only with TypeError |
| `CloudWatch.SetDefault` | src/util/logging.py:52 | `setdefault`: adds the key with the given value only when absent, and keeps every value the caller passed |
| `CloudWatch.SetDefaultIdempotent` | src/util/logging.py:52-53 | once `default` is set, a further `setdefault` changes nothing, so a caller's own `default` survives |
| `CloudWatch.AWSCloudWatchLogs.constructor` | src/util/logging.py:38-54 | the stored keys are those `InitKeys` gives for the list, the stored options are the caller's options with `default` set only when absent, and the stored serializer is the caller's |
| `CloudWatch.AWSCloudWatchLogs.Create` | src/util/logging.py:38-54 | construction fails exactly when `callouts` is None, with TypeError; otherwise it yields a fresh renderer whose fields are as the constructor states |
| `CloudWatch.Truthy` | src/util/logging.py:60-64 | `if key:` on a callout key: None and the empty string are falsy, every non-empty string is truthy |
| `CloudWatch.CalloutText` | src/util/logging.py:60-67 | a falsy or unconfigured key renders `none`; a configured key missing from the event dict renders the empty string; a present key renders the `str()` of its value |
| `CloudWatch.Line` | src/util/logging.py:68 | the f-string layout: the line is nine characters longer than its four parts, starts with the bracketed level and ends with the payload |
| `CloudWatch.ParseLineInverse` | src/util/logging.py:68 | a line whose level has no `]` and whose callouts have no `"` reads back into its level, both callouts and the payload |
| `CloudWatch.LineInjective` | src/util/logging.py:68 | under those conditions, lines built from different parts differ |
| `CloudWatch.CalloutsAreNotEscaped` | src/util/logging.py:68 | callouts are not escaped: `a" "b` with `c` renders the same as `a` with `b" "c` |
| `CloudWatch.CalloutNewlineReachesLine` | src/util/logging.py:68 | a line break in a callout value appears in the output line |
| `CloudWatch.AWSCloudWatchLogs.Render` | src/util/logging.py:56-68 | the line is exactly `Line` of the upper-cased name, the two callout texts and the serialization of the whole event dict with the stored options: it starts with `[` + upper-cased name + `]`, ends with that serialization and has 9 characters of framing; when the name has no `]` and the callouts have no `"`, it reads back into those four parts; it only reads the renderer, so nothing is modified |
| `CloudWatch.MissingKeysRenderEmpty` | src/util/logging.py:60-68 | configured keys absent from the event dict give `[LEVEL] "" ""` and not `"none"` |
| `CloudWatch.UnconfiguredKeysRenderNone` | src/util/logging.py:44-68 | a renderer built from an empty callouts list renders `[LEVEL] "none" "none"` |
| `CloudWatch.PaymentsLine` | src/util/logging.py:56-68 | callouts `order_id` and `amount`, `info` with `order_id="O-42"` and `amount=19.99`, renders `[INFO] "O-42" "19.99" ` followed by the serialized event dict |

## Left out

- The `structlog.configure` processor chain (src/util/logging.py:71-114): level filtering, timestamps, stack and exception rendering, byte decoding and call-site capture are structlog library behaviour. The chain also ends in `JSONRenderer`, not in this renderer.
- `logging.basicConfig` and the noisy-source loop (src/util/logging.py:115-122): they install a standard-output handler on the root logger and set the levels of named loggers, which is process-wide stdlib logging state.
- `get_logger` (src/util/logging.py:125-126) is a one-line wrapper around `structlog.get_logger`, and `full_stack` (src/util/logging.py:129-142) reads ambient exception state through `traceback`. Neither is part of this model.
- The serializer and `_json_fallback_handler` are library code. The serializer is a function parameter returning text. A serializer that returns bytes, which would make the Python concatenation raise, is not modelled. A serializer that raises (an option `json.dumps` does not accept, a circular reference in the event dict) is not modelled either: `Serializer` is a total function, so `Render` always returns a line where the source would pass the exception on.
- The first argument of `__call__` (the wrapped logger) is ignored by the source and is not a parameter of `Render`.
- Callout keys are strings or None. Other falsy keys Python would accept (`0`, `False`, empty containers) and non-string keys are not modelled.
- `Ascii.Upper`: does not model Unicode case mapping of `str.upper()` (for example `ß` becoming `SS`); only ASCII letters change.
- `Values.IntText`: does not model the limit that Python 3.11, and 3.10.7 and later 3.10 releases, put on converting an int to text; an int of more than 4300 digits makes the f-string raise ValueError, which the model does not produce.
- `Values.ToText` gives the text of strings, ints, booleans and None. Floats, containers and other objects carry their `str()` text in `Other`, because their formatting belongs to Python. Two values with the same `str()` text, such as the float `19.99` and `Decimal("19.99")`, become the same `Other` value, although the fallback handler serializes them differently; no proved property depends on telling them apart. The f-string inserts `format(v, "")`, which equals `str(v)` for the modelled kinds; `Other` carries the `format(v, "")` text, and an object whose `__str__` or `__format__` raises inside the f-string is not modelled.
- The event dict is an ordered list of entries. Unique keys, which a Python dict guarantees, are assumed only where a lemma states `UniqueKeys`.
- Thread safety and atomic writes of the output sink are out of scope (concurrency).
