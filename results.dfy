/**
 * The two-level table behind both copies of MethodResult: a decoded API
 * response whose reads fall back from the top level to the nested `result`
 * object, and the write and unset policies each copy applies.
 */
module Results {
  import opened Json

  /** `$data['result'][$k] ?? null` */
  function Nested(data: seq<Entry>, k: string): Value
  {
    Get(Find(data, "result"), k)
  }

  /** `$data[$k] ?? $data['result'][$k] ?? null` */
  function Lookup(data: seq<Entry>, k: string): Value
  {
    Coalesce(Find(data, k), Nested(data, k))
  }

  /** `isset($data[$k]) || isset($data['result'][$k])` */
  predicate IsSet(data: seq<Entry>, k: string)
  {
    Find(data, k) != Null || Nested(data, k) != Null
  }

  /** `$data['result'][$k] = $v` */
  function PutNested(data: seq<Entry>, k: string, v: Value): seq<Entry>
  {
    Put(data, "result", SetKey(Find(data, "result"), k, v))
  }

  /** `unset($data['result'][$k])` */
  function DeleteNested(data: seq<Entry>, k: string): seq<Entry>
  {
    Put(data, "result", UnsetKey(Find(data, "result"), k))
  }

  /** Write where the entry is already set in `result`, else at the top level. */
  function SetNestedFirst(data: seq<Entry>, k: string, v: Value): seq<Entry>
  {
    if Nested(data, k) != Null then PutNested(data, k, v) else Put(data, k, v)
  }

  /** Remove from `result` if set there, else from the top level. */
  function UnsetNestedFirst(data: seq<Entry>, k: string): seq<Entry>
  {
    if Nested(data, k) != Null then DeleteNested(data, k) else Delete(data, k)
  }

  /**
   * Remove from the top level if set there, else from `result` if set there;
   * otherwise the property fallback ends in `__unset`, which removes the
   * (null or absent) top-level entry.
   */
  function UnsetTopFirst(data: seq<Entry>, k: string): seq<Entry>
  {
    if Find(data, k) != Null then Delete(data, k)
    else if Nested(data, k) != Null then DeleteNested(data, k)
    else Delete(data, k)
  }

  /**
   * A reply whose `result` is a list, `{"ok":true,"result":[5]}`: the
   * element reads and counts as set under key "0", a write replaces it in
   * the list, and either unset leaves an empty array.
   */
  lemma ListResult()
    ensures var data := [Entry("ok", Bool(true)), Entry("result", List([Int(5)]))];
      && Lookup(data, "0") == Int(5) && IsSet(data, "0") && !IsSet(data, "1")
      && Find(SetNestedFirst(data, "0", Int(7)), "result") == List([Int(7)])
      && Find(UnsetNestedFirst(data, "0"), "result") == Obj([])
      && Find(UnsetTopFirst(data, "0"), "result") == Obj([])
  {
  }

  /** A read finds a value exactly when the entry is set at one of the two levels. */
  lemma LookupIsSet(data: seq<Entry>, k: string)
    ensures Lookup(data, k) != Null <==> IsSet(data, k)
    ensures Find(data, k) != Null ==> Lookup(data, k) == Find(data, k)
  {
  }

  lemma NestedAfterPutNested(data: seq<Entry>, k: string, v: Value, j: string)
    ensures Nested(PutNested(data, k, v), j) == if j == k then v else Nested(data, j)
    ensures j != "result" ==> Find(PutNested(data, k, v), j) == Find(data, j)
  {
    var r := SetKey(Find(data, "result"), k, v);
    PutFind(data, "result", r, "result");
    PutFind(data, "result", r, j);
    GetSetKey(Find(data, "result"), k, v, j);
  }

  lemma NestedAfterDeleteNested(data: seq<Entry>, k: string, j: string)
    ensures Nested(DeleteNested(data, k), j) == if j == k then Null else Nested(data, j)
    ensures j != "result" ==> Find(DeleteNested(data, k), j) == Find(data, j)
  {
    var r := UnsetKey(Find(data, "result"), k);
    PutFind(data, "result", r, "result");
    PutFind(data, "result", r, j);
    GetUnsetKey(Find(data, "result"), k, j);
  }

  /**
   * `__set`/`offsetSet` of files/methodresult.class.php change exactly one
   * location; reading the key back returns the new value unless the key is
   * set at BOTH levels, where the top level keeps shadowing the write.
   */
  lemma {:induction false} SetNestedFirstEffect(data: seq<Entry>, k: string, v: Value)
    requires k != "result"
    ensures var after := SetNestedFirst(data, k, v);
      && (v != Null ==> Lookup(after, k) == if Find(data, k) != Null && Nested(data, k) != Null then Find(data, k) else v)
      && (Nested(data, k) != Null ==> forall j :: j != "result" ==> Find(after, j) == Find(data, j))
      && (Nested(data, k) != Null ==> forall j :: j != k ==> Nested(after, j) == Nested(data, j))
      && (Nested(data, k) == Null ==> forall j :: j != k ==> Find(after, j) == Find(data, j))
      && (Nested(data, k) == Null ==> forall j :: Nested(after, j) == Nested(data, j))
  {
    var after := SetNestedFirst(data, k, v);
    if Nested(data, k) != Null {
      forall j ensures Nested(after, j) == (if j == k then v else Nested(data, j))
        && (j != "result" ==> Find(after, j) == Find(data, j))
      {
        NestedAfterPutNested(data, k, v, j);
      }
    } else {
      forall j ensures Find(after, j) == (if j == k then v else Find(data, j)) {
        PutFind(data, k, v, j);
      }
      PutFind(data, k, v, "result");
    }
  }

  /**
   * The older copy's write (bot.class.php): the top level if set there, else
   * `result` if set there; otherwise the table is left alone (the value goes
   * to an object property instead).
   */
  function SetTopFirst(data: seq<Entry>, k: string, v: Value): seq<Entry>
  {
    if Find(data, k) != Null then Put(data, k, v)
    else if Nested(data, k) != Null then PutNested(data, k, v)
    else data
  }

  /**
   * The top-first write changes one location only, and a key already set at
   * either level reads back the written value.
   */
  lemma {:induction false} SetTopFirstEffect(data: seq<Entry>, k: string, v: Value)
    requires k != "result"
    ensures var after := SetTopFirst(data, k, v);
      && (v != Null && IsSet(data, k) ==> Lookup(after, k) == v)
      && (Find(data, k) != Null ==> forall j :: Nested(after, j) == Nested(data, j))
      && (Find(data, k) != Null ==> forall j :: j != k ==> Find(after, j) == Find(data, j))
      && (Find(data, k) == Null && Nested(data, k) != Null ==> forall j :: j != "result" ==> Find(after, j) == Find(data, j))
      && (Find(data, k) == Null && Nested(data, k) != Null ==> forall j :: j != k ==> Nested(after, j) == Nested(data, j))
      && (!IsSet(data, k) ==> after == data)
  {
    var after := SetTopFirst(data, k, v);
    if Find(data, k) != Null {
      forall j ensures Find(after, j) == (if j == k then v else Find(data, j)) {
        PutFind(data, k, v, j);
      }
      PutFind(data, k, v, "result");
    } else if Nested(data, k) != Null {
      forall j ensures Nested(after, j) == (if j == k then v else Nested(data, j))
        && (j != "result" ==> Find(after, j) == Find(data, j))
      {
        NestedAfterPutNested(data, k, v, j);
      }
    }
  }

  /**
   * The two unsets disagree exactly when both levels hold the key: `__unset`
   * removes the nested entry, so the top-level value still reads back, while
   * `offsetUnset` removes the top-level one and uncovers the nested value.
   * Otherwise both leave the key unset.
   */
  lemma {:induction false} UnsetEffects(data: seq<Entry>, k: string)
    requires k != "result"
    ensures Lookup(UnsetNestedFirst(data, k), k) ==
      if Find(data, k) != Null && Nested(data, k) != Null then Find(data, k) else Null
    ensures Lookup(UnsetTopFirst(data, k), k) ==
      if Find(data, k) != Null then Nested(data, k) else Null
  {
    NestedAfterDeleteNested(data, k, k);
    DeleteFind(data, k, k);
    DeleteFind(data, k, "result");
  }

  /** Unsetting touches one level only: the other level reads as before. */
  lemma UnsetOneLevel(data: seq<Entry>, k: string, j: string)
    requires k != "result" && j != "result"
    ensures Nested(data, k) != Null ==> Find(UnsetNestedFirst(data, k), j) == Find(data, j)
    ensures Nested(data, k) == Null ==> Nested(UnsetNestedFirst(data, k), j) == Nested(data, j)
    ensures Find(data, k) != Null ==> Nested(UnsetTopFirst(data, k), j) == Nested(data, j)
  {
    NestedAfterDeleteNested(data, k, j);
    DeleteFind(data, k, "result");
  }
}
