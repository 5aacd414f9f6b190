/** What the two Python receivers share: Python's truthiness and `dict.get`
    on a parsed JSON value, and the module-level `deque(maxlen=100)` they
    append received comments to. */
module DanmuQueue {

  import opened Wrappers
  import opened Json

  /** `maxlen` of `danmu_queue`. */
  const MAXLEN: nat := 100

  /** Python truthiness of a parsed value: `None`, `False`, `0`, `''`, `[]`
      and `{}` are false. */
  predicate PyTruthy(x: Json)
  {
    match x
    case JNull => false
    case JBool(b) => b
    case JNum(n) => n != 0
    case JStr(s) => s != ""
    case JArr(items) => items != []
    case JObj(fields) => fields != []
  }

  /** `d.get(key, default)` on a dict: the bound value, `None` included, or
      the default when the key is absent. */
  function PyGet(d: Json, key: string, default: Json): (r: Json)
    requires d.JObj?
    ensures Field(d, key).Some? ==> r == Field(d, key).value
    ensures Field(d, key).None? ==> r == default
  {
    match Lookup(d.fields, key)
    case Some(v) => v
    case None => default
  }

  /** `append` on a deque with `maxlen`: the newest MAXLEN entries of the
      queue followed by `x`. */
  function Push(q: seq<Json>, x: Json): seq<Json>
  {
    var s := q + [x];
    if |s| > MAXLEN then s[|s| - MAXLEN..] else s
  }

  /** An append never takes the queue past MAXLEN; it ends with the new entry;
      it drops nothing below MAXLEN and exactly the oldest entry at MAXLEN. */
  lemma PushFacts(q: seq<Json>, x: Json)
    requires |q| <= MAXLEN
    ensures var r := Push(q, x);
      && |r| <= MAXLEN && r[|r| - 1] == x
      && (|q| < MAXLEN ==> r == q + [x])
      && (|q| == MAXLEN ==> r == q[1..] + [x])
  {
    var r := Push(q, x);
    if |q| == MAXLEN {
      assert (q + [x])[1..] == q[1..] + [x];
    }
  }

  /** `danmu_queue`. */
  class Deque {
    var items: seq<Json>

    ghost predicate Valid()
      reads this
    {
      |items| <= MAXLEN
    }

    constructor ()
      ensures Valid() && items == []
    {
      items := [];
    }

    /** `danmu_queue.append(x)`. */
    method Append(x: Json)
      requires Valid()
      modifies this
      ensures Valid()
      ensures items == Push(old(items), x)
    {
      PushFacts(items, x);
      items := Push(items, x);
    }
  }
}
