/** The CloudWatch line renderer `AWSCloudWatchLogs` of src/util/logging.py:
    construction picks up to two callout keys and fixes the serializer's
    keyword options; rendering builds one line
    `[LEVEL] "callout one" "callout two" <serialized event dict>`. */
module CloudWatch {
  import opened Wrappers
  import opened Values
  import opened Ascii

  /** A configured callout key: a field name, or Python's None. */
  type Key = Option<string>

  /** `if key:` on a key: None and the empty string are falsy, every other
      string is truthy. */
  predicate Truthy(key: Key)
    ensures key == None ==> !Truthy(key)
    ensures key == Some("") ==> !Truthy(key)
    ensures key.Some? && |key.value| > 0 ==> Truthy(key)
  {
    key.Some? && key.value != ""
  }

  /** The exceptions that indexing the callouts list can raise. */
  datatype PyError = IndexError | TypeError

  /** A keyword option passed to the serializer. */
  datatype KwArg =
    | JsonFallbackHandler  // structlog's `_json_fallback_handler`
    | Arg(v: Value)        // anything the caller passed

  type DumpsKw = map<string, KwArg>

  /** A `json.dumps`-compatible callable: the event dict and the keyword
      options in, text out. */
  type Serializer = (EventDict, DumpsKw) -> string

  const DefaultOption: string := "default"

  // ---------------------------------------------------------------- construction

  /** `callouts[i]`: None cannot be indexed at all, a short list raises IndexError. */
  function Subscript(callouts: Option<seq<Key>>, i: nat): Result<Key, PyError>
  {
    match callouts
    case None => Err(TypeError)
    case Some(list) => if i < |list| then Ok(list[i]) else Err(IndexError)
  }

  /** `try: callouts[i] except IndexError: None`; a TypeError passes through. */
  function KeyOrNone(callouts: Option<seq<Key>>, i: nat): Result<Key, PyError>
  {
    match Subscript(callouts, i)
    case Err(IndexError) => Ok(None)
    case other => other
  }

  /** The two stored callout keys, or the error the constructor raises. */
  function InitKeys(callouts: Option<seq<Key>>): (r: Result<(Key, Key), PyError>)
    ensures r.Err? <==> callouts.None?
    ensures r.Err? ==> r.error == TypeError
  {
    match KeyOrNone(callouts, 0)
    case Err(e) => Err(e)
    case Ok(one) =>
      match KeyOrNone(callouts, 1)
      case Err(e) => Err(e)
      case Ok(two) => Ok((one, two))
  }

  /** A list of two or more callouts stores exactly its first two entries. */
  lemma InitKeysTakesFirstTwo(callouts: seq<Key>)
    requires |callouts| >= 2
    ensures InitKeys(Some(callouts)) == Ok((callouts[0], callouts[1]))
  {
  }

  /** Entries after the second never reach the renderer. */
  lemma InitKeysIgnoresExtra(callouts: seq<Key>, extra: seq<Key>)
    requires |callouts| >= 2
    ensures InitKeys(Some(callouts + extra)) == InitKeys(Some(callouts))
  {
  }

  /** A short list leaves the missing keys as None instead of failing. */
  lemma InitKeysShortList(callouts: seq<Key>)
    requires |callouts| < 2
    ensures |callouts| == 0 ==> InitKeys(Some(callouts)) == Ok((None, None))
    ensures |callouts| == 1 ==> InitKeys(Some(callouts)) == Ok((callouts[0], None))
  {
  }

  /** The declared default `callouts=None` fails with a TypeError, which the
      `except IndexError` clauses do not catch. */
  lemma InitKeysRejectsNone()
    ensures InitKeys(None) == Err(TypeError)
  {
  }

  /** `dict.setdefault(k, v)`: adds `k := v` only when `k` is absent. */
  function SetDefault<K, V>(m: map<K, V>, k: K, v: V): (r: map<K, V>)
    ensures r.Keys == m.Keys + {k}
    ensures k !in m ==> r[k] == v
    ensures forall j :: j in m ==> r[j] == m[j]
  {
    if k in m then m else m[k := v]
  }

  /** A second `setdefault` with the same key changes nothing, whatever value it offers. */
  lemma SetDefaultIdempotent<K, V>(m: map<K, V>, k: K, v: V, w: V)
    ensures SetDefault(SetDefault(m, k, v), k, w) == SetDefault(m, k, v)
  {
  }

  // ---------------------------------------------------------------- rendering

  /** The text a callout renders as: `none` when no key is configured (or the
      key is falsy), the empty string when the key is absent from the event
      dict, and otherwise the `str()` of the value stored under the key. */
  function CalloutText(key: Key, ev: EventDict): (text: string)
    ensures !Truthy(key) ==> text == "none"
    ensures Truthy(key) && !HasKey(ev, key.value) ==> text == ""
    ensures Truthy(key) ==> forall i :: IsFirstKey(ev, key.value, i) ==> text == ToText(ev[i].1)
  {
    if Truthy(key) then ToText(Get(ev, key.value, Str(""))) else "none"
  }

  /** The layout of one output line: nine framing characters around the
      level, the two callouts and the payload, with the bracketed level first
      and the payload last. */
  function Line(level: string, one: string, two: string, payload: string): (line: string)
    ensures |line| == |level| + |one| + |two| + |payload| + 9
    ensures line[..|level| + 2] == "[" + level + "]"
    ensures line[|line| - |payload|..] == payload
  {
    var head := "[" + level + "] \"" + one + "\" \"" + two + "\" ";
    assert (head + payload)[..|level| + 2] == head[..|level| + 2];
    head + payload
  }

  /** The parts of a line, as a reader of the log recovers them. */
  datatype Fields = Fields(level: string, one: string, two: string, payload: string)

  /** Splits `s` at the first occurrence of `c`. */
  function SplitAt(s: string, c: char): (r: Option<(string, string)>)
    ensures r.None? <==> c !in s
    ensures r.Some? ==> c !in r.value.0 && s == r.value.0 + [c] + r.value.1
  {
    if s == [] then None
    else if s[0] == c then Some(([], s[1..]))
    else
      match SplitAt(s[1..], c)
      case None => None
      case Some((before, after)) => Some(([s[0]] + before, after))
  }

  lemma {:induction false} SplitAtFirst(a: string, b: string, c: char)
    requires c !in a
    ensures SplitAt(a + [c] + b, c) == Some((a, b))
  {
    var s := a + [c] + b;
    if a == [] {
      assert s[0] == c && s[1..] == b;
    } else {
      assert s[0] == a[0] && a[0] != c;
      assert s[1..] == a[1..] + [c] + b;
      SplitAtFirst(a[1..], b, c);
      assert [a[0]] + a[1..] == a;
    }
  }

  /** Reads a space, then a double-quoted text without inner quotes, off the
      front of `s`: the text and what follows it. */
  function ReadQuoted(s: string): Option<(string, string)>
  {
    if |s| < 2 || s[..2] != " \"" then None else SplitAt(s[2..], '"')
  }

  lemma ReadQuotedInverse(text: string, after: string)
    requires '"' !in text
    ensures ReadQuoted(" \"" + text + "\"" + after) == Some((text, after))
  {
    var s := " \"" + text + "\"" + after;
    assert s[..2] == " \"" && s[2..] == text + ['"'] + after;
    SplitAtFirst(text, after, '"');
  }

  /** Reads a line back into its level, its two callouts and its payload. */
  function ParseLine(line: string): Option<Fields>
  {
    if |line| == 0 || line[0] != '[' then None
    else
      match SplitAt(line[1..], ']')
      case None => None
      case Some((level, rest)) =>
        match ReadQuoted(rest)
        case None => None
        case Some((one, rest2)) =>
          match ReadQuoted(rest2)
          case None => None
          case Some((two, rest3)) =>
            if |rest3| == 0 || rest3[0] != ' ' then None
            else Some(Fields(level, one, two, rest3[1..]))
  }

  /** A line whose level has no `]` and whose callouts have no `"` reads back
      into exactly the parts it was built from. */
  lemma ParseLineInverse(level: string, one: string, two: string, payload: string)
    requires ']' !in level && '"' !in one && '"' !in two
    ensures ParseLine(Line(level, one, two, payload)) == Some(Fields(level, one, two, payload))
  {
    var rest3 := " " + payload;
    var rest2 := " \"" + two + "\"" + rest3;
    var rest := " \"" + one + "\"" + rest2;
    var line := Line(level, one, two, payload);
    assert line == "[" + level + "]" + rest;
    assert line[1..] == level + [']'] + rest;
    SplitAtFirst(level, rest, ']');
    ReadQuotedInverse(one, rest2);
    ReadQuotedInverse(two, rest3);
    assert rest3[0] == ' ' && rest3[1..] == payload;
  }

  /** Under the same conditions, different parts never give the same line. */
  lemma LineInjective(a: Fields, b: Fields)
    requires ']' !in a.level && '"' !in a.one && '"' !in a.two
    requires ']' !in b.level && '"' !in b.one && '"' !in b.two
    requires Line(a.level, a.one, a.two, a.payload) == Line(b.level, b.one, b.two, b.payload)
    ensures a == b
  {
    ParseLineInverse(a.level, a.one, a.two, a.payload);
    ParseLineInverse(b.level, b.one, b.two, b.payload);
  }

  /** Callout text is inserted unescaped: two different callout pairs can
      produce the same line once a value contains a double quote. */
  lemma CalloutsAreNotEscaped()
    ensures Line("INFO", "a\" \"b", "c", "{}") == Line("INFO", "a", "b\" \"c", "{}")
  {
  }

  /** A line break inside a callout value reaches the output line. */
  lemma CalloutNewlineReachesLine(level: string, one: string, two: string, payload: string)
    requires '\n' in one
    ensures '\n' in Line(level, one, two, payload)
  {
    var i :| 0 <= i < |one| && one[i] == '\n';
    assert Line(level, one, two, payload)[|level| + 4 + i] == '\n';
  }

  /** The renderer: callout keys fixed at construction, a serializer and its
      keyword options. */
  class AWSCloudWatchLogs {
    var calloutOneKey: Key
    var calloutTwoKey: Key
    var dumpsKw: DumpsKw
    var dumps: Serializer

    /** `AWSCloudWatchLogs(callouts, serializer, **kw)` with a callouts list. */
    constructor (callouts: seq<Key>, serializer: Serializer, kw: DumpsKw)
      ensures InitKeys(Some(callouts)) == Ok((calloutOneKey, calloutTwoKey))
      ensures dumpsKw == SetDefault(kw, DefaultOption, JsonFallbackHandler)
      ensures dumps == serializer
    {
      if |callouts| > 0 {
        calloutOneKey := callouts[0];
      } else {
        calloutOneKey := None;
      }
      if |callouts| > 1 {
        calloutTwoKey := callouts[1];
      } else {
        calloutTwoKey := None;
      }
      var options := kw;
      if DefaultOption !in options {
        options := options[DefaultOption := JsonFallbackHandler];
      }
      dumpsKw := options;
      dumps := serializer;
    }

    /** Construction with an optional callouts argument: None raises a TypeError. */
    static method Create(callouts: Option<seq<Key>>, serializer: Serializer, kw: DumpsKw)
      returns (r: Result<AWSCloudWatchLogs, PyError>)
      ensures r.Err? <==> callouts.None?
      ensures r.Err? ==> InitKeys(callouts) == Err(r.error)
      ensures r.Ok? ==> fresh(r.value)
      ensures r.Ok? ==> InitKeys(callouts) == Ok((r.value.calloutOneKey, r.value.calloutTwoKey))
      ensures r.Ok? ==> r.value.dumpsKw == SetDefault(kw, DefaultOption, JsonFallbackHandler)
      ensures r.Ok? ==> r.value.dumps == serializer
    {
      if callouts.None? {
        return Err(TypeError);
      }
      var renderer := new AWSCloudWatchLogs(callouts.value, serializer, kw);
      r := Ok(renderer);
    }

    /** `renderer(logger, name, event_dict)`: the output line. Reading only,
        it leaves the event dict and the renderer as they were. */
    function Render(name: string, ev: EventDict): (line: string)
      reads this
      ensures line == Line(Upper(name), CalloutText(calloutOneKey, ev), CalloutText(calloutTwoKey, ev), dumps(ev, dumpsKw))
      ensures var one, two := CalloutText(calloutOneKey, ev), CalloutText(calloutTwoKey, ev);
        |line| == |name| + |one| + |two| + |dumps(ev, dumpsKw)| + 9
      ensures line[..|name| + 2] == "[" + Upper(name) + "]"
      ensures line[|line| - |dumps(ev, dumpsKw)|..] == dumps(ev, dumpsKw)
      ensures var one, two := CalloutText(calloutOneKey, ev), CalloutText(calloutTwoKey, ev);
        ']' !in name && '"' !in one && '"' !in two ==>
          ParseLine(line) == Some(Fields(Upper(name), one, two, dumps(ev, dumpsKw)))
    {
      var one, two := CalloutText(calloutOneKey, ev), CalloutText(calloutTwoKey, ev);
      var payload := dumps(ev, dumpsKw);
      UpperKeepsSymbol(name, ']');
      if ']' !in name && '"' !in one && '"' !in two then
        ParseLineInverse(Upper(name), one, two, payload);
        Line(Upper(name), one, two, payload)
      else
        Line(Upper(name), one, two, payload)
    }
  }

  /** With both keys configured and both absent from the event dict, the
      callouts render as two empty strings, not as `none`. */
  lemma MissingKeysRenderEmpty(r: AWSCloudWatchLogs, name: string, ev: EventDict)
    requires Truthy(r.calloutOneKey) && !HasKey(ev, r.calloutOneKey.value)
    requires Truthy(r.calloutTwoKey) && !HasKey(ev, r.calloutTwoKey.value)
    ensures r.Render(name, ev) == Line(Upper(name), "", "", r.dumps(ev, r.dumpsKw))
  {
  }

  /** With no callouts configured, the callouts render as `none`. */
  lemma UnconfiguredKeysRenderNone(r: AWSCloudWatchLogs, name: string, ev: EventDict)
    requires InitKeys(Some([])) == Ok((r.calloutOneKey, r.calloutTwoKey))
    ensures r.Render(name, ev) == Line(Upper(name), "none", "none", r.dumps(ev, r.dumpsKw))
  {
  }

  /** A logger for payments with callouts `order_id` and `amount`, logging
      `info("charge accepted", order_id="O-42", amount=19.99)`. */
  lemma PaymentsLine(r: AWSCloudWatchLogs)
    requires InitKeys(Some([Some("order_id"), Some("amount")])) == Ok((r.calloutOneKey, r.calloutTwoKey))
    ensures var ev := [("event", Str("charge accepted")), ("logger", Str("payments")),
                       ("order_id", Str("O-42")), ("amount", Other("19.99"))];
      r.Render("info", ev) == Line("INFO", "O-42", "19.99", r.dumps(ev, r.dumpsKw))
  {
    var ev := [("event", Str("charge accepted")), ("logger", Str("payments")),
               ("order_id", Str("O-42")), ("amount", Other("19.99"))];
    assert IsFirstKey(ev, "order_id", 2);
    assert IsFirstKey(ev, "amount", 3);
    assert Upper("info") == "INFO";
  }
}
