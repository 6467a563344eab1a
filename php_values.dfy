/** The PHP values the bundle passes around: what an item accessor returns,
    what an option or a configuration entry holds, and the PHP rules the
    bundle relies on to read them (`isset`, truthiness, string conversion). */
module PhpValues {
  import opened Wrappers

  datatype Value =
    | Null
    | Bool(b: bool)
    | Int(i: int)
    | Str(s: string)
    /** A `\DateTime` instance, identified by its timestamp. */
    | Date(stamp: int)
    /** An array whose keys are 0, 1, ..., n-1 in order. */
    | List(items: seq<Value>)
    /** An array with string keys, in insertion order. */
    | Map(entries: seq<(string, Value)>)

  /** `is_array($v)`. */
  predicate IsArray(v: Value) {
    v.List? || v.Map?
  }

  /** PHP truthiness, as `if ($v)` and `?:` test it. */
  predicate Truthy(v: Value) {
    match v
    case Null => false
    case Bool(b) => b
    case Int(i) => i != 0
    case Str(s) => s != "" && s != "0"
    case Date(_) => true
    case List(items) => items != []
    case Map(entries) => entries != []
  }

  /** The values `foreach ($v as $x)` visits, in order. */
  function ArrayValues(v: Value): (r: seq<Value>)
    requires IsArray(v)
    ensures v.List? ==> r == v.items
    ensures v.Map? ==> |r| == |v.entries| && forall i :: 0 <= i < |r| ==> r[i] == v.entries[i].1
  {
    if v.List? then v.items else seq(|v.entries|, i requires 0 <= i < |v.entries| => v.entries[i].1)
  }

  /** The entry stored under `key` in an associative array. */
  function Lookup(entries: seq<(string, Value)>, key: string): (r: Option<Value>)
    ensures r.Some? <==> exists i :: 0 <= i < |entries| && entries[i].0 == key
    ensures r.Some? ==> exists i :: 0 <= i < |entries| && entries[i] == (key, r.value)
    decreases |entries|
  {
    if entries == [] then None
    else if entries[0].0 == key then Some(entries[0].1)
    else
      var r := Lookup(entries[1..], key);
      assert forall i :: 0 < i < |entries| ==> entries[i] == entries[1..][i - 1];
      r
  }

  /** A character in ASCII lower case; other characters are unchanged. */
  function LowerChar(c: char): char {
    if 'A' <= c <= 'Z' then (c as int + 32) as char else c
  }

  /** A name in ASCII lower case, as PHP folds the name of a method to
      find it: method names are case-insensitive. */
  function AsciiLower(s: string): (r: string)
    ensures |r| == |s|
    ensures forall i :: 0 <= i < |r| ==> !('A' <= r[i] <= 'Z')
    ensures forall i :: 0 <= i < |s| ==> r[i] == s[i] || (s[i] as int) + 32 == r[i] as int
  {
    seq(|s|, i requires 0 <= i < |s| => LowerChar(s[i]))
  }

  predicate IsDigit(c: char) {
    '0' <= c <= '9'
  }

  function DigitValue(c: char): nat
    requires IsDigit(c)
  {
    (c as int - '0' as int) as nat
  }

  function DigitChar(d: nat): char
    requires d < 10
  {
    (d + '0' as int) as char
  }

  /** Decimal digits of a natural number, without leading zeros. */
  function NatToString(n: nat): (s: string)
    ensures |s| > 0 && forall i :: 0 <= i < |s| ==> IsDigit(s[i])
    ensures s[0] == '0' ==> n == 0
    decreases n
  {
    if n < 10 then [DigitChar(n)] else NatToString(n / 10) + [DigitChar(n % 10)]
  }

  /** PHP's decimal rendering of an integer, as `(string)$i` gives it. */
  function IntToString(i: int): string {
    if i < 0 then "-" + NatToString(-i) else NatToString(i)
  }

  function DigitsValue(s: string): nat
    requires forall i :: 0 <= i < |s| ==> IsDigit(s[i])
    decreases |s|
  {
    if s == [] then 0 else DigitsValue(s[..|s| - 1]) * 10 + DigitValue(s[|s| - 1])
  }

  /** The array index a string key stands for: PHP turns a canonical decimal
      key ("0", "17", not "017") into an integer key. */
  function ParseIndex(key: string): Option<nat> {
    if key != [] && (forall i :: 0 <= i < |key| ==> IsDigit(key[i])) && (key == "0" || key[0] != '0')
    then Some(DigitsValue(key))
    else None
  }

  /** `$v[$key]` when `isset($v[$key])`, else None. A string offset only
      exists for an integer key. On a `\DateTime`, PHP 8 throws instead
      of answering; this function gives None there, and the caller that
      can meet a date raises `ObjectAsArray` first. */
  function Offset(v: Value, key: string): (r: Option<Value>)
    ensures r.Some? ==> r.value != Null
    ensures r.Some? ==> IsArray(v) || v.Str?
  {
    match v
    case Map(entries) =>
      (match Lookup(entries, key)
       case Some(x) => if x == Null then None else Some(x)
       case None => None)
    case List(items) =>
      (match ParseIndex(key)
       case Some(i) => if i < |items| && items[i] != Null then Some(items[i]) else None
       case None => None)
    case Str(s) =>
      (match ParseIndex(key)
       case Some(i) => if i < |s| then Some(Str([s[i]])) else None
       case None => None)
    case _ => None
  }

  /** `isset($v[$key])`. */
  predicate HasKey(v: Value, key: string) {
    Offset(v, key).Some?
  }

  /** The string PHP passes to a DOM method expecting a string: scalars and
      null convert, a `\DateTime` or an array is a TypeError (None). */
  function ToXmlString(v: Value): (r: Option<string>)
    ensures r.None? <==> v.Date? || IsArray(v)
    ensures v.Str? ==> r == Some(v.s)
  {
    match v
    case Null => Some("")
    case Bool(b) => Some(if b then "1" else "")
    case Int(i) => Some(IntToString(i))
    case Str(s) => Some(s)
    case _ => None
  }

  /** `$v == $word` under PHP 8 loose comparison, for a word that is not a
      numeric string (as `switch` compares each `case`). */
  predicate LooseEqualsWord(v: Value, word: string) {
    match v
    case Null => word == ""
    case Bool(b) => b == (word != "" && word != "0")
    case Int(i) => IntToString(i) == word
    case Str(s) => s == word
    case _ => false
  }

  /** The key set of an associative array. */
  function EntryKeys(entries: seq<(string, Value)>): set<string> {
    set i | 0 <= i < |entries| :: entries[i].0
  }

  /** The array `$v` as the `array $config` parameter of a constructor sees
      it: keys to values, list positions keyed by their decimal index. A
      non-array argument is a TypeError (None). */
  function AsConfig(v: Value): (r: Option<map<string, Value>>)
    ensures r.Some? <==> IsArray(v)
    ensures v.Map? ==> forall k :: k in r.value <==> Lookup(v.entries, k).Some?
    ensures v.Map? ==> forall k :: k in r.value ==> r.value[k] == Lookup(v.entries, k).value
  {
    match v
    case Map(entries) =>
      Some(map k | k in EntryKeys(entries) :: Lookup(entries, k).value)
    case List(items) =>
      var keys := set i | 0 <= i < |items| :: NatToString(i);
      Some(map k | k in keys && ParseIndex(k).Some? && ParseIndex(k).value < |items| :: items[ParseIndex(k).value])
    case _ => None
  }

  /** Decimal rendering and index parsing are inverse: a list's position
      `n` is found again under the key `NatToString(n)`. */
  lemma {:induction false} ParseIndexOfNatToString(n: nat)
    ensures ParseIndex(NatToString(n)) == Some(n)
  {
    DigitsOfNatToString(n);
  }

  lemma {:induction false} DigitsOfNatToString(n: nat)
    ensures DigitsValue(NatToString(n)) == n
    decreases n
  {
    var s := NatToString(n);
    if n >= 10 {
      DigitsOfNatToString(n / 10);
      assert s[..|s| - 1] == NatToString(n / 10);
    }
  }
}
