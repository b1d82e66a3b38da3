/** PHP values as the source handles them: scalars, null and ordered arrays.
    A PHP array is an ordered list of key/value entries; decoded JSON objects
    and lists are both arrays (numeric keys are integer keys). */
module Php {
  import opened Common
  import Text

  datatype Key = IntKey(i: int) | StrKey(s: string)

  datatype Val =
    | Null
    | Bool(b: bool)
    | Int(i: int)
    | Num(r: real)          // a PHP float, as an exact rational
    | Str(s: string)
    | Arr(entries: seq<(Key, Val)>)

  /** is_scalar */
  predicate IsScalar(v: Val) {
    v.Bool? || v.Int? || v.Num? || v.Str?
  }

  /** The value of the first entry with key k. */
  function Lookup(entries: seq<(Key, Val)>, k: Key): (r: Option<Val>)
    ensures r.None? <==> forall i :: 0 <= i < |entries| ==> entries[i].0 != k
  {
    if entries == [] then None
    else if entries[0].0 == k then Some(entries[0].1)
    else Lookup(entries[1..], k)
  }

  /** A value found is the value of the first entry with that key. */
  lemma {:induction false} LookupFirst(entries: seq<(Key, Val)>, k: Key)
    requires Lookup(entries, k).Some?
    ensures exists i :: 0 <= i < |entries| && entries[i] == (k, Lookup(entries, k).value)
                        && forall j :: 0 <= j < i ==> entries[j].0 != k
  {
    if entries[0].0 != k {
      LookupFirst(entries[1..], k);
      var i :| 0 <= i < |entries[1..]| && entries[1..][i] == (k, Lookup(entries, k).value)
               && forall j :: 0 <= j < i ==> entries[1..][j].0 != k;
      assert entries[i + 1] == (k, Lookup(entries, k).value);
    }
  }

  /** `$v[$k] ?? null`: the entry's value, or Null when v is not an array
      or has no such key. */
  function Get(v: Val, k: Key): Val {
    if v.Arr? then
      match Lookup(v.entries, k)
      case Some(x) => x
      case None => Null
    else Null
  }

  /** `$v['name']` */
  function Field(v: Val, name: string): Val {
    Get(v, StrKey(name))
  }

  /** array_key_exists($k, $v) */
  predicate HasKey(v: Val, k: Key) {
    v.Arr? && Lookup(v.entries, k).Some?
  }

  /** isset($v[$k]): the key is present with a non-null value. */
  predicate IsSet(v: Val, k: Key) {
    Get(v, k) != Null
  }

  predicate FieldSet(v: Val, name: string) {
    IsSet(v, StrKey(name))
  }

  /** PHP empty(): null, false, 0, 0.0, "", "0" and the empty array. */
  predicate Empty(v: Val) {
    match v
    case Null => true
    case Bool(b) => !b
    case Int(i) => i == 0
    case Num(r) => r == 0.0
    case Str(s) => s == "" || s == "0"
    case Arr(e) => e == []
  }

  /** reset($v): the first value of a non-empty array, else false. */
  function Reset(v: Val): Val {
    if v.Arr? && v.entries != [] then v.entries[0].1 else Bool(false)
  }

  /** array_values($v) */
  function Values(v: Val): (r: seq<Val>)
    ensures v.Arr? ==> |r| == |v.entries| && forall i :: 0 <= i < |r| ==> r[i] == v.entries[i].1
    ensures !v.Arr? ==> r == []
  {
    if v.Arr? then seq(|v.entries|, i requires 0 <= i < |v.entries| => v.entries[i].1) else []
  }

  /** An entry whose key no earlier entry has is the one `$v[$k]` reads. */
  lemma GetAt(entries: seq<(Key, Val)>, i: int)
    requires 0 <= i < |entries|
    requires forall j :: 0 <= j < i ==> entries[j].0 != entries[i].0
    ensures Get(Arr(entries), entries[i].0) == entries[i].1
  {
    var r := Lookup(entries, entries[i].0);
    LookupFirst(entries, entries[i].0);
    var i' :| 0 <= i' < |entries| && entries[i'] == (entries[i].0, r.value)
              && forall j :: 0 <= j < i' ==> entries[j].0 != entries[i].0;
    assert i' == i;
  }

  /** An array literal with string keys ks and values vs, in order. */
  function Record(ks: seq<string>, vs: seq<Val>): (r: Val)
    requires |ks| == |vs|
    ensures r.Arr? && |r.entries| == |ks|
  {
    Arr(seq(|ks|, i requires 0 <= i < |ks| => (StrKey(ks[i]), vs[i])))
  }

  /** A key of a record whose earlier keys differ gives its own value. */
  lemma RecordField(ks: seq<string>, vs: seq<Val>, i: int)
    requires |ks| == |vs| && 0 <= i < |ks|
    requires forall j :: 0 <= j < i ==> ks[j] != ks[i]
    ensures Field(Record(ks, vs), ks[i]) == vs[i]
  {
    var e := Record(ks, vs).entries;
    assert forall j :: 0 <= j < |ks| ==> e[j] == (StrKey(ks[j]), vs[j]);
    GetAt(e, i);
  }

  /** count($v) for an array, 0 otherwise. */
  function Count(v: Val): nat {
    if v.Arr? then |v.entries| else 0
  }

  /** A list value [v0, v1, ...] with keys 0, 1, ... */
  function List(vs: seq<Val>): (r: Val)
    ensures r.Arr? && |r.entries| == |vs|
    ensures forall i :: 0 <= i < |vs| ==> r.entries[i] == (IntKey(i), vs[i])
    ensures Values(r) == vs
  {
    Arr(seq(|vs|, i requires 0 <= i < |vs| => (IntKey(i), vs[i])))
  }

  function SetEntries(entries: seq<(Key, Val)>, k: Key, x: Val): (r: seq<(Key, Val)>)
    ensures |r| == |entries| || (|r| == |entries| + 1 && r == entries + [(k, x)])
    ensures forall i :: 0 <= i < |entries| ==> r[i].0 == entries[i].0
  {
    if entries == [] then [(k, x)]
    else if entries[0].0 == k then [(k, x)] + entries[1..]
    else [entries[0]] + SetEntries(entries[1..], k, x)
  }

  /** `$v[$k] = $x`: replaces the value of an existing key where it stands,
      or appends a new entry; a non-array becomes a one-entry array. */
  function Set(v: Val, k: Key, x: Val): Val {
    if v.Arr? then Arr(SetEntries(v.entries, k, x)) else Arr([(k, x)])
  }

  function SetField(v: Val, name: string, x: Val): Val {
    Set(v, StrKey(name), x)
  }

  lemma {:induction false} LookupSetSame(entries: seq<(Key, Val)>, k: Key, x: Val)
    ensures Lookup(SetEntries(entries, k, x), k) == Some(x)
  {
    if entries != [] && entries[0].0 != k {
      LookupSetSame(entries[1..], k, x);
    }
  }

  lemma {:induction false} LookupSetOther(entries: seq<(Key, Val)>, k: Key, k': Key, x: Val)
    requires k != k'
    ensures Lookup(SetEntries(entries, k, x), k') == Lookup(entries, k')
  {
    if entries != [] && entries[0].0 != k {
      LookupSetOther(entries[1..], k, k', x);
    }
  }

  /** Assignment then read gives the assigned value; other keys keep theirs. */
  lemma GetSet(v: Val, k: Key, x: Val, k': Key)
    ensures Get(Set(v, k, x), k) == x
    ensures k != k' ==> Get(Set(v, k, x), k') == Get(v, k')
  {
    if v.Arr? {
      LookupSetSame(v.entries, k, x);
      if k != k' { LookupSetOther(v.entries, k, k', x); }
    }
  }

  /** (string) $v */
  function ToStr(v: Val): string {
    match v
    case Null => ""
    case Bool(b) => if b then "1" else ""
    case Int(i) => Text.IntToString(i)
    case Num(r) => Text.RealToString(r)
    case Str(s) => s
    case Arr(_) => "Array"
  }

  /** (int) $v: floats truncate toward zero, strings convert their numeric
      prefix, arrays give 0 when empty and 1 otherwise. */
  function ToInt(v: Val): int {
    match v
    case Null => 0
    case Bool(b) => if b then 1 else 0
    case Int(i) => i
    case Num(r) => if r >= 0.0 then r.Floor else -((-r).Floor)
    case Str(s) => Text.StringToInt(s)
    case Arr(e) => if e == [] then 0 else 1
  }

  /** floatval($v) */
  function ToReal(v: Val): real {
    match v
    case Null => 0.0
    case Bool(b) => if b then 1.0 else 0.0
    case Int(i) => i as real
    case Num(r) => r
    case Str(s) => Text.StringToReal(s)
    case Arr(e) => if e == [] then 0.0 else 1.0
  }

  /** `$v ?: $d` */
  function Elvis(v: Val, d: Val): Val {
    if Empty(v) then d else v
  }

  /** `$v ?? $d` */
  function Coalesce(v: Val, d: Val): Val {
    if v == Null then d else v
  }

  /** absint: the absolute value of the integer conversion. */
  function AbsInt(v: Val): nat {
    var i := ToInt(v);
    if i < 0 then -i else i
  }
}
