/** The values carried by a structlog event dict, and how Python's `str()`
    renders them inside an f-string. */
module Values {

  /** A field value of an event dict. Python values are open-ended; the
      renderer only ever turns them into text, so the kinds whose text the
      model computes are listed and every other kind carries its own text. */
  datatype Value =
    | Str(s: string)
    | Int(i: int)
    | Bool(b: bool)
    | Null                 // Python's None
    | Other(text: string)  // floats, containers, arbitrary objects: the text `format(v, "")` gives

  /** An event dict: field name to value, in insertion order. A Python dict
      has unique keys; lookups below find the first entry with a key. */
  type EventDict = seq<(string, Value)>

  predicate IsDigit(c: char) { '0' <= c <= '9' }

  function DigitChar(d: nat): (c: char)
    requires d < 10
    ensures IsDigit(c) && c as int - '0' as int == d
  {
    ('0' as int + d) as char
  }

  /** Decimal text of a natural number, as `str()` writes it: digits only,
      no leading zero. */
  function DecimalText(n: nat): (r: string)
    ensures |r| >= 1
    ensures forall i :: 0 <= i < |r| ==> IsDigit(r[i])
    ensures r[0] == '0' ==> n == 0
    ensures n == 0 ==> r == "0"
    decreases n
  {
    if n < 10 then [DigitChar(n)] else DecimalText(n / 10) + [DigitChar(n % 10)]
  }

  /** The number a string of decimal digits denotes. */
  function DigitsValue(s: string): nat
    requires forall i :: 0 <= i < |s| ==> IsDigit(s[i])
  {
    if s == [] then 0
    else
      assert IsDigit(s[|s| - 1]);
      DigitsValue(s[..|s| - 1]) * 10 + (s[|s| - 1] as int - '0' as int)
  }

  /** Reading back the decimal text of `n` gives `n`. */
  lemma {:induction false} DecimalRoundTrip(n: nat)
    ensures DigitsValue(DecimalText(n)) == n
    decreases n
  {
    var s := DecimalText(n);
    if n >= 10 {
      assert s[..|s| - 1] == DecimalText(n / 10);
      DecimalRoundTrip(n / 10);
    }
  }

  /** Text of a Python int: an optional minus sign, then its decimal digits
      with no leading zero. */
  function IntText(i: int): (r: string)
    ensures |r| >= 1 && (i < 0 <==> r[0] == '-')
    ensures i >= 0 ==> (forall k :: 0 <= k < |r| ==> IsDigit(r[k])) && DigitsValue(r) == i
    ensures i >= 0 ==> (r[0] == '0' ==> i == 0)
    ensures i == 0 ==> r == "0"
    ensures i < 0 ==> (forall k :: 1 <= k < |r| ==> IsDigit(r[k])) && DigitsValue(r[1..]) == -i
    ensures i < 0 ==> |r| >= 2 && r[1] != '0'
  {
    DecimalRoundTrip(if i < 0 then -i else i);
    if i < 0 then "-" + DecimalText(-i) else DecimalText(i)
  }

  /** `format(v, "")`, which is what `f"{v}"` inserts; for these kinds it
      equals `str(v)`. A string is inserted as it
      is; an int, a bool or None never gives the empty text or `none`. */
  function ToText(v: Value): (t: string)
    ensures v.Str? ==> t == v.s
    ensures v.Int? ==> t == IntText(v.i)
    ensures v.Int? || v.Bool? || v.Null? ==> t != "" && t != "none"
  {
    match v
    case Str(s) => s
    case Int(i) => IntText(i)
    case Bool(b) => if b then "True" else "False"
    case Null => "None"
    case Other(text) => text
  }

  predicate HasKey(ev: EventDict, key: string)
  {
    exists i :: 0 <= i < |ev| && ev[i].0 == key
  }

  /** Entry `i` is the first one whose key is `key`. */
  predicate IsFirstKey(ev: EventDict, key: string, i: int)
  {
    0 <= i < |ev| && ev[i].0 == key && forall j :: 0 <= j < i ==> ev[j].0 != key
  }

  predicate UniqueKeys(ev: EventDict)
  {
    forall i, j :: 0 <= i < j < |ev| ==> ev[i].0 != ev[j].0
  }

  /** `event_dict.get(key, default)`. */
  function Get(ev: EventDict, key: string, default: Value): (v: Value)
    ensures !HasKey(ev, key) ==> v == default
    ensures forall i :: IsFirstKey(ev, key, i) ==> v == ev[i].1
  {
    if ev == [] then default
    else if ev[0].0 == key then ev[0].1
    else
      var rest := Get(ev[1..], key, default);
      assert forall i :: IsFirstKey(ev, key, i) ==> IsFirstKey(ev[1..], key, i - 1);
      assert HasKey(ev[1..], key) ==> HasKey(ev, key);
      rest
  }

  /** In a dict with unique keys, `get` of a present key is its value. */
  lemma GetPresent(ev: EventDict, i: int, default: Value)
    requires UniqueKeys(ev) && 0 <= i < |ev|
    ensures Get(ev, ev[i].0, default) == ev[i].1
  {
    assert IsFirstKey(ev, ev[i].0, i);
  }
}
