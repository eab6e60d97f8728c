/**
 * Decoded JSON values as PHP holds them after `json_decode($json, true)`:
 * scalars, lists, and ordered key/value arrays. Key order is significant
 * (the update type is the SECOND key of an update), so an object is a
 * sequence of entries rather than a map.
 */
module Json {

  datatype Option<T> = None | Some(value: T)

  datatype Value =
    | Null
    | Bool(b: bool)
    | Int(i: int)
    | Str(s: string)
    | List(items: seq<Value>)
    | Obj(fields: seq<Entry>)

  datatype Entry = Entry(key: string, val: Value)

  /** The keys of an ordered array, in order. */
  function KeysOf(fs: seq<Entry>): seq<string>
  {
    seq(|fs|, i requires 0 <= i < |fs| => fs[i].key)
  }

  /** The values of an ordered array, in order (what `foreach ($a as $v)` visits). */
  function ValuesOf(fs: seq<Entry>): seq<Value>
  {
    seq(|fs|, i requires 0 <= i < |fs| => fs[i].val)
  }

  /** A PHP array never holds the same key twice. */
  predicate DistinctKeys(fs: seq<Entry>)
  {
    forall i, j :: 0 <= i < j < |fs| ==> fs[i].key != fs[j].key
  }

  predicate HasKey(fs: seq<Entry>, k: string)
  {
    k in KeysOf(fs)
  }

  /** `$fs[$k] ?? null`: the value stored under k, Null when k is absent. */
  function Find(fs: seq<Entry>, k: string): Value
  {
    if fs == [] then Null
    else if fs[0].key == k then fs[0].val
    else Find(fs[1..], k)
  }

  /**
   * `$v[$k] ?? null` for a value of any shape: an object is looked up by key,
   * a list by the decimal integer key that names a position; scalars hold
   * nothing.
   */
  function Get(v: Value, k: string): Value
  {
    match v
    case Obj(fs) => Find(fs, k)
    case List(items) => if IsIndexKey(k) && IndexValue(k) < |items| then items[IndexValue(k)] else Null
    case _ => Null
  }

  /** The entries of an object, or none for any other value. */
  function FieldsOf(v: Value): seq<Entry>
  {
    if v.Obj? then v.fields else []
  }

  /** PHP's `$a ?? $b`: a present-but-null left operand counts as missing. */
  function Coalesce(a: Value, b: Value): Value
  {
    if a != Null then a else b
  }

  /** PHP's boolean conversion (floats are not modelled). */
  predicate Truthy(v: Value)
  {
    match v
    case Null => false
    case Bool(b) => b
    case Int(i) => i != 0
    case Str(s) => s != "" && s != "0"
    case List(items) => |items| > 0
    case Obj(fs) => |fs| > 0
  }

  /**
   * PHP 7's loose comparison `$v == $w` against a non-empty string `w` that
   * is not numeric: a string compares as a string, a boolean against the
   * string's truthiness (true), an integer against the string's numeric
   * value (0); null and arrays never match.
   */
  predicate LooselyEquals(v: Value, w: string)
  {
    match v
    case Str(s) => s == w
    case Bool(b) => b
    case Int(i) => i == 0
    case _ => false
  }

  function DigitChar(d: nat): char
    requires d < 10
  {
    ('0' as int + d) as char
  }

  predicate IsDigit(c: char)
  {
    '0' <= c <= '9'
  }

  function DigitValue(c: char): nat
    requires IsDigit(c)
  {
    c as int - '0' as int
  }

  function NatToString(n: nat): string
    decreases n
  {
    if n < 10 then [DigitChar(n)] else NatToString(n / 10) + [DigitChar(n % 10)]
  }

  function IntToString(i: int): string
  {
    if i < 0 then "-" + NatToString(-i) else NatToString(i)
  }

  /**
   * A string key that PHP turns into a non-negative integer key: decimal
   * digits without a leading zero (other than "0" itself).
   */
  predicate IsIndexKey(k: string)
  {
    && |k| > 0
    && IsDigit(k[0])
    && (k[0] == '0' ==> |k| == 1)
    && forall i :: 0 <= i < |k| ==> IsDigit(k[i])
  }

  /** The integer a string of decimal digits denotes. */
  function IndexValue(k: string): nat
    requires |k| > 0 && forall i :: 0 <= i < |k| ==> IsDigit(k[i])
    decreases |k|
  {
    var last := DigitValue(k[|k| - 1]);
    if |k| == 1 then last else IndexValue(k[..|k| - 1]) * 10 + last
  }

  /** The decimal form of n is n's index key: the digits, the leading one non-zero. */
  lemma {:induction false} NatToStringShape(n: nat)
    ensures |NatToString(n)| > 0
    ensures forall i :: 0 <= i < |NatToString(n)| ==> IsDigit(NatToString(n)[i])
    ensures |NatToString(n)| == 1 <==> n < 10
    ensures n > 0 ==> NatToString(n)[0] != '0'
    decreases n
  {
    if n >= 10 {
      NatToStringShape(n / 10);
      var s := NatToString(n);
      var p := NatToString(n / 10);
      assert s == p + [DigitChar(n % 10)];
      assert s[0] == p[0];
      assert forall i :: 0 <= i < |s| ==> IsDigit(s[i]) by {
        forall i | 0 <= i < |s| ensures IsDigit(s[i]) {
          if i < |p| { assert s[i] == p[i]; }
        }
      }
    }
  }

  /** Printing a natural number and reading it back as a key gives the number. */
  lemma {:induction false} PrintThenParse(n: nat)
    ensures IsIndexKey(NatToString(n))
    ensures IndexValue(NatToString(n)) == n
    decreases n
  {
    NatToStringShape(n);
    if n >= 10 {
      PrintThenParse(n / 10);
      var s := NatToString(n);
      assert s[..|s| - 1] == NatToString(n / 10);
      assert s[|s| - 1] == DigitChar(n % 10);
    }
  }

  /** Reading an index key and printing the number gives the key back. */
  lemma {:induction false} ParseThenPrint(k: string)
    requires IsIndexKey(k)
    ensures NatToString(IndexValue(k)) == k
    decreases |k|
  {
    if |k| > 1 {
      var p := k[..|k| - 1];
      assert p[0] == k[0];
      assert IsIndexKey(p);
      ParseThenPrint(p);
      var v := IndexValue(p);
      var n := IndexValue(k);
      assert n / 10 == v && n % 10 == DigitValue(k[|k| - 1]);
      assert k == p + [k[|k| - 1]];
    }
  }

  /** Exactly one key names each list position: its decimal form. */
  lemma IndexKeyIff(k: string, n: nat)
    ensures NatToString(n) == k <==> IsIndexKey(k) && IndexValue(k) == n
  {
    PrintThenParse(n);
    if IsIndexKey(k) {
      ParseThenPrint(k);
    }
  }

  /**
   * A list's entries as an array with integer keys start, start+1, ...:
   * what a list becomes once a key is written or removed out of order.
   */
  function ListEntries(items: seq<Value>, start: nat): seq<Entry>
    decreases |items|
  {
    if items == [] then [] else [Entry(NatToString(start), items[0])] + ListEntries(items[1..], start + 1)
  }

  lemma {:induction false} FindListEntries(items: seq<Value>, start: nat, k: string)
    ensures Find(ListEntries(items, start), k) ==
      if IsIndexKey(k) && start <= IndexValue(k) < start + |items| then items[IndexValue(k) - start] else Null
    decreases |items|
  {
    if items != [] {
      IndexKeyIff(k, start);
      FindListEntries(items[1..], start + 1, k);
    }
  }

  /** The key/value entries of any value: a list's keys are its positions. */
  function EntriesOf(v: Value): seq<Entry>
  {
    match v
    case Obj(fs) => fs
    case List(items) => ListEntries(items, 0)
    case _ => []
  }

  /** Reading any value is a lookup among its entries. */
  lemma GetEntries(v: Value, k: string)
    ensures Get(v, k) == Find(EntriesOf(v), k)
  {
    if v.List? {
      FindListEntries(v.items, 0, k);
    }
  }

  /**
   * `$v[$k] = $x`: an object assigns the key; a list overwrites the named
   * position or appends at its end, and any other key turns it into an
   * array with integer keys; null and other scalars become a one-entry
   * array (writes here only reach a value that already holds the key).
   */
  function SetKey(v: Value, k: string, x: Value): Value
  {
    match v
    case Obj(fs) => Obj(Put(fs, k, x))
    case List(items) =>
      if IsIndexKey(k) && IndexValue(k) < |items| then List(items[IndexValue(k) := x])
      else if IsIndexKey(k) && IndexValue(k) == |items| then List(items + [x])
      else Obj(Put(ListEntries(items, 0), k, x))
    case _ => Obj([Entry(k, x)])
  }

  /**
   * `unset($v[$k])`: an object drops the key; a list that holds the
   * position loses it and keeps the other integer keys (a gap, so no
   * longer a list); anything else is left as it was.
   */
  function UnsetKey(v: Value, k: string): Value
  {
    match v
    case Obj(fs) => Obj(Delete(fs, k))
    case List(items) =>
      if IsIndexKey(k) && IndexValue(k) < |items| then Obj(Delete(ListEntries(items, 0), k)) else v
    case _ => v
  }

  /** After `$v[$k] = $x`, k reads x and every other key reads as before. */
  lemma GetSetKey(v: Value, k: string, x: Value, j: string)
    ensures Get(SetKey(v, k, x), j) == if j == k then x else Get(v, j)
  {
    match v
    case Obj(fs) => PutFind(fs, k, x, j);
    case List(items) =>
      if IsIndexKey(k) && IsIndexKey(j) {
        ParseThenPrint(k);
        ParseThenPrint(j);
      }
      if !(IsIndexKey(k) && IndexValue(k) <= |items|) {
        PutFind(ListEntries(items, 0), k, x, j);
        FindListEntries(items, 0, j);
      }
    case _ => PutFind([], k, x, j);
  }

  /** After `unset($v[$k])`, k reads null and every other key reads as before. */
  lemma GetUnsetKey(v: Value, k: string, j: string)
    ensures Get(UnsetKey(v, k), j) == if j == k then Null else Get(v, j)
  {
    match v
    case Obj(fs) => DeleteFind(fs, k, j);
    case List(items) =>
      if IsIndexKey(k) && IsIndexKey(j) {
        ParseThenPrint(k);
        ParseThenPrint(j);
      }
      if IsIndexKey(k) && IndexValue(k) < |items| {
        DeleteFind(ListEntries(items, 0), k, j);
        FindListEntries(items, 0, j);
      }
    case _ =>
  }

  /** PHP's string conversion, as in `"{$v}"` or `$a . $b`. */
  function Interp(v: Value): string
  {
    match v
    case Null => ""
    case Bool(b) => if b then "1" else ""
    case Int(i) => IntToString(i)
    case Str(s) => s
    case List(_) => "Array"
    case Obj(_) => "Array"
  }

  /** `$fs[$k] = $v`: an existing key keeps its position, a new key goes last. */
  function Put(fs: seq<Entry>, k: string, v: Value): seq<Entry>
  {
    if fs == [] then [Entry(k, v)]
    else if fs[0].key == k then [Entry(k, v)] + fs[1..]
    else [fs[0]] + Put(fs[1..], k, v)
  }

  /** `unset($fs[$k])`: the other entries keep their order. */
  function Delete(fs: seq<Entry>, k: string): seq<Entry>
  {
    if fs == [] then []
    else if fs[0].key == k then Delete(fs[1..], k)
    else [fs[0]] + Delete(fs[1..], k)
  }

  /** Every key is looked up at the first entry that carries it. */
  lemma {:induction false} FindAt(fs: seq<Entry>, i: nat)
    requires DistinctKeys(fs) && i < |fs|
    ensures Find(fs, fs[i].key) == fs[i].val
  {
    if i > 0 {
      FindAt(fs[1..], i - 1);
    }
  }

  /** A non-null lookup comes from an entry of the array. */
  lemma {:induction false} FindFrom(fs: seq<Entry>, k: string)
    requires Find(fs, k) != Null
    ensures exists i :: 0 <= i < |fs| && fs[i] == Entry(k, Find(fs, k))
  {
    if fs[0].key != k {
      FindFrom(fs[1..], k);
      var i :| 0 <= i < |fs[1..]| && fs[1..][i] == Entry(k, Find(fs, k));
      assert fs[i + 1] == Entry(k, Find(fs, k));
    }
  }

  /** An absent key reads as Null. */
  lemma {:induction false} FindAbsent(fs: seq<Entry>, k: string)
    requires !HasKey(fs, k)
    ensures Find(fs, k) == Null
  {
    if fs != [] {
      assert KeysOf(fs) == [fs[0].key] + KeysOf(fs[1..]);
      FindAbsent(fs[1..], k);
    }
  }

  /** After `$fs[$k] = $v`, k reads v and every other key reads as before. */
  lemma {:induction false} PutFind(fs: seq<Entry>, k: string, v: Value, j: string)
    ensures Find(Put(fs, k, v), j) == if j == k then v else Find(fs, j)
  {
    if fs != [] && fs[0].key != k {
      PutFind(fs[1..], k, v, j);
    }
  }

  /** Assignment keeps the key order; a new key is appended. */
  lemma {:induction false} PutKeys(fs: seq<Entry>, k: string, v: Value)
    ensures KeysOf(Put(fs, k, v)) == if HasKey(fs, k) then KeysOf(fs) else KeysOf(fs) + [k]
  {
    if fs == [] {
    } else if fs[0].key == k {
      assert KeysOf(Put(fs, k, v)) == [k] + KeysOf(fs[1..]);
      assert KeysOf(fs) == [k] + KeysOf(fs[1..]);
    } else {
      PutKeys(fs[1..], k, v);
      assert KeysOf(fs) == [fs[0].key] + KeysOf(fs[1..]);
      assert KeysOf(Put(fs, k, v)) == [fs[0].key] + KeysOf(Put(fs[1..], k, v));
    }
  }

  lemma DistinctByKeys(fs: seq<Entry>, gs: seq<Entry>)
    requires KeysOf(fs) == KeysOf(gs)
    ensures DistinctKeys(fs) <==> DistinctKeys(gs)
  {
    assert forall i :: 0 <= i < |fs| ==> fs[i].key == KeysOf(fs)[i];
    assert forall i :: 0 <= i < |gs| ==> gs[i].key == KeysOf(gs)[i];
  }

  /** Assignment never creates a duplicate key. */
  lemma PutDistinct(fs: seq<Entry>, k: string, v: Value)
    requires DistinctKeys(fs)
    ensures DistinctKeys(Put(fs, k, v))
  {
    PutKeys(fs, k, v);
    var r := Put(fs, k, v);
    if HasKey(fs, k) {
      DistinctByKeys(fs, r);
    } else {
      forall i, j | 0 <= i < j < |r| ensures r[i].key != r[j].key {
        assert r[i].key == KeysOf(r)[i] && r[j].key == KeysOf(r)[j];
        if j == |fs| {
          assert KeysOf(r)[i] == KeysOf(fs)[i];
        } else {
          assert KeysOf(r)[i] == fs[i].key && KeysOf(r)[j] == fs[j].key;
        }
      }
    }
  }

  /** After `unset($fs[$k])`, k reads Null and every other key reads as before. */
  lemma {:induction false} DeleteFind(fs: seq<Entry>, k: string, j: string)
    ensures Find(Delete(fs, k), j) == if j == k then Null else Find(fs, j)
  {
    if fs != [] {
      DeleteFind(fs[1..], k, j);
    }
  }

  /** `unset` removes the key and nothing else. */
  lemma {:induction false} DeleteKeys(fs: seq<Entry>, k: string, j: string)
    ensures HasKey(Delete(fs, k), j) <==> HasKey(fs, j) && j != k
  {
    if fs != [] {
      DeleteKeys(fs[1..], k, j);
      assert KeysOf(fs) == [fs[0].key] + KeysOf(fs[1..]);
      if fs[0].key != k {
        assert KeysOf(Delete(fs, k)) == [fs[0].key] + KeysOf(Delete(fs[1..], k));
      }
    }
  }
}
