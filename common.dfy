/** Shared vocabulary of the model: optional values and results, the values that
    arrive over the platform method channel, association lists (maps in their
    iteration order) and the few string operations the bridge code relies on. */
module Common {

  datatype Option<+T> = None | Some(value: T)

  datatype Result<+T, +E> = Ok(value: T) | Err(error: E)

  /** A value decoded from the method channel: a key whose value is null is
      modelled as an absent key, and maps keep their iteration order. */
  datatype Value =
    | VBool(b: bool)
    | VInt(i: int)
    | VString(s: string)
    | VList(items: seq<Value>)
    | VMap(entries: seq<(string, Value)>)

  /** A map as an association list, in the map's iteration order. */
  type Fields = seq<(string, Value)>

  predicate HasKey<V>(entries: seq<(string, V)>, key: string) {
    exists i :: 0 <= i < |entries| && entries[i].0 == key
  }

  /** `map[key]`: the value of the first entry with that key. */
  function Lookup<V>(entries: seq<(string, V)>, key: string): (r: Option<V>)
    ensures r.Some? <==> HasKey(entries, key)
    ensures r.Some? ==> exists i :: 0 <= i < |entries| && entries[i] == (key, r.value)
    ensures forall i :: 0 <= i < |entries| && entries[i].0 == key && !HasKey(entries[..i], key) ==>
              r == Some(entries[i].1)
  {
    if |entries| == 0 then None
    else if entries[0].0 == key then Some(entries[0].1)
    else
      var r := Lookup(entries[1..], key);
      assert forall i :: 1 <= i < |entries| ==> entries[i] == entries[1..][i - 1];
      assert forall i :: 1 <= i < |entries| && HasKey(entries[1..][..i - 1], key) ==> HasKey(entries[..i], key) by {
        forall i | 1 <= i < |entries| && HasKey(entries[1..][..i - 1], key) {
          HasKeyTail(entries, key, i);
        }
      }
      r
  }

  lemma HasKeyTail<V>(entries: seq<(string, V)>, key: string, i: int)
    requires 1 <= i <= |entries|
    requires HasKey(entries[1..][..i - 1], key)
    ensures HasKey(entries[..i], key)
  {
    var j :| 0 <= j < i - 1 && entries[1..][..i - 1][j].0 == key;
    assert entries[..i][j + 1] == entries[1..][..i - 1][j];
  }

  // The `as? T` casts of Kotlin and Swift on a looked-up value.

  function AsString(v: Option<Value>): Option<string> {
    if v.Some? && v.value.VString? then Some(v.value.s) else None
  }

  function AsBool(v: Option<Value>): Option<bool> {
    if v.Some? && v.value.VBool? then Some(v.value.b) else None
  }

  function AsInt(v: Option<Value>): Option<int> {
    if v.Some? && v.value.VInt? then Some(v.value.i) else None
  }

  function AsMap(v: Option<Value>): Option<Fields> {
    if v.Some? && v.value.VMap? then Some(v.value.entries) else None
  }

  function AsList(v: Option<Value>): Option<seq<Value>> {
    if v.Some? && v.value.VList? then Some(v.value.items) else None
  }

  /** `v as? Boolean ?: default`: the given boolean, or the default for anything else. */
  function BoolOr(v: Option<Value>, default: bool): (b: bool)
    ensures v.Some? && v.value.VBool? ==> b == v.value.b
    ensures !(v.Some? && v.value.VBool?) ==> b == default
  {
    GetOr(AsBool(v), default)
  }

  /** `v as? String ?: default`: the given string, or the default for anything else. */
  function StringOr(v: Option<Value>, default: string): (s: string)
    ensures v.Some? && v.value.VString? ==> s == v.value.s
    ensures !(v.Some? && v.value.VString?) ==> s == default
  {
    GetOr(AsString(v), default)
  }

  function GetOr<T>(o: Option<T>, default: T): T {
    if o.Some? then o.value else default
  }

  // Strings.

  predicate IsPrefix(p: string, s: string) {
    |p| <= |s| && s[..|p|] == p
  }

  /** `s.contains(t)`: t occurs in s as a contiguous substring. */
  predicate Contains(s: string, t: string)
    decreases |s|
  {
    IsPrefix(t, s) || (|s| > 0 && Contains(s[1..], t))
  }

  /** Lower-casing, restricted to ASCII letters. */
  function LowerChar(c: char): char {
    if 'A' <= c <= 'Z' then (c as int + 32) as char else c
  }

  function Lower(s: string): (r: string)
    ensures |r| == |s|
    ensures forall i :: 0 <= i < |s| ==> r[i] == LowerChar(s[i])
  {
    seq(|s|, i requires 0 <= i < |s| => LowerChar(s[i]))
  }

  function DigitChar(d: nat): (c: char)
    requires d < 10
    ensures '0' <= c <= '9'
  {
    ('0' as int + d) as char
  }

  predicate IsDigits(s: string) {
    forall k :: 0 <= k < |s| ==> '0' <= s[k] <= '9'
  }

  /** The number a string of decimal digits stands for, read independently of how
      it was printed. */
  function ReadNat(s: string): nat
    requires IsDigits(s)
  {
    if s == [] then 0 else ReadNat(s[..|s| - 1]) * 10 + (s[|s| - 1] as int - '0' as int)
  }

  /** The integer an optional minus sign followed by decimal digits stands for. */
  function ReadInt(s: string): int
    requires |s| > 0 && (s[0] == '-' || '0' <= s[0] <= '9') && IsDigits(s[1..])
  {
    if s[0] == '-' then -(ReadNat(s[1..]) as int) else ReadNat(s)
  }

  /** Decimal rendering of a natural number, without leading zeros: reading the
      digits back gives the number. */
  function NatToString(n: nat): (r: string)
    ensures |r| > 0 && IsDigits(r)
    ensures r[0] == '0' ==> r == "0"
    ensures ReadNat(r) == n
  {
    if n < 10 then [DigitChar(n)]
    else
      var prefix := NatToString(n / 10);
      var r := prefix + [DigitChar(n % 10)];
      assert r[..|r| - 1] == prefix;
      r
  }

  /** Decimal rendering of an integer, as Kotlin's and Swift's `toString`/interpolation
      do: a minus sign exactly for a negative number, then the digits of its
      magnitude; reading the text back gives the number. */
  function IntToString(i: int): (r: string)
    ensures |r| > 0 && (r[0] == '-' <==> i < 0)
    ensures (r[0] == '-' || '0' <= r[0] <= '9') && IsDigits(r[1..])
    ensures ReadInt(r) == i
  {
    if i < 0 then
      var digits := NatToString(-i);
      assert ("-" + digits)[1..] == digits;
      "-" + digits
    else NatToString(i)
  }

  function Join(parts: seq<string>, sep: string): string {
    if |parts| == 0 then ""
    else if |parts| == 1 then parts[0]
    else parts[0] + sep + Join(parts[1..], sep)
  }
}
