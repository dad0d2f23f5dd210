/** Key-by-key copying between Python dicts (`for key, value in
    data.items(): obj[key] = value`), and appending to a list only when the
    item is not already there (`if x not in xs: xs.append(x)`). */
module Records {
  import opened Values

  /** What `target` becomes when every key of `data` that is in `keys` is
      copied into it. */
  function Overwritten(target: Record, data: Record, keys: set<string>): (r: Record)
    ensures forall k :: k in r <==> k in target || (k in data && k in keys)
    ensures forall k :: k in data && k in keys ==> r[k] == data[k]
    ensures forall k :: k in target && !(k in data && k in keys) ==> r[k] == target[k]
  {
    map k | k in target.Keys + (data.Keys * keys) :: if k in data && k in keys then data[k] else target[k]
  }

  /** Copying nothing, or copying into a dict the same values it already
      holds, changes nothing. */
  lemma OverwrittenIdempotent(target: Record, data: Record, keys: set<string>)
    ensures Overwritten(target, data, {}) == target
    ensures Overwritten(Overwritten(target, data, keys), data, keys) == Overwritten(target, data, keys)
  {
  }

  /** The loop `for key, value in data.items(): if key in keys: target[key] = value`;
      the order of `data` does not matter since each key is written once. */
  method CopyKeys(target: Record, data: Record, keys: set<string>) returns (r: Record)
    ensures r == Overwritten(target, data, keys)
  {
    r := target;
    var todo := data.Keys;
    while todo != {}
      invariant todo <= data.Keys
      invariant forall k :: k in r <==> k in target || (k in data && k in keys && k !in todo)
      invariant forall k :: k in data && k in keys && k !in todo ==> r[k] == data[k]
      invariant forall k :: k in target && !(k in data && k in keys && k !in todo) ==> r[k] == target[k]
      decreases todo
    {
      var k :| k in todo;
      if k in keys {
        r := r[k := data[k]];
      }
      todo := todo - {k};
    }
  }

  /** `if x not in xs: xs.append(x)`. */
  function AddOnce<T(==)>(xs: seq<T>, x: T): (r: seq<T>)
    ensures x in r
    ensures forall y :: y in xs ==> y in r
    ensures forall y :: y in r ==> y in xs || y == x
  {
    if x in xs then xs else xs + [x]
  }

  /** No item occurs twice in `xs`. */
  ghost predicate NoDuplicates<T>(xs: seq<T>)
  {
    forall i, j :: 0 <= i < j < |xs| ==> xs[i] != xs[j]
  }

  /** Adding once is idempotent and never introduces a duplicate. */
  lemma AddOnceIdempotent<T>(xs: seq<T>, x: T)
    ensures AddOnce(AddOnce(xs, x), x) == AddOnce(xs, x)
    ensures NoDuplicates(xs) ==> NoDuplicates(AddOnce(xs, x))
  {
    if NoDuplicates(xs) && x !in xs {
      var r := xs + [x];
      forall i, j | 0 <= i < j < |r| ensures r[i] != r[j] {
        if j == |xs| { assert r[i] == xs[i]; }
      }
    }
  }

  /** `[x for x in rows if keep(x)]`. */
  function Where(rows: seq<Record>, keep: Record -> bool): (r: seq<Record>)
    ensures |r| <= |rows|
    ensures forall x :: x in r <==> x in rows && keep(x)
  {
    if rows == [] then []
    else (if keep(rows[0]) then [rows[0]] else []) + Where(rows[1..], keep)
  }

  /** A filter that keeps every row returns the rows unchanged. */
  lemma {:induction false} WhereKeepsAll(rows: seq<Record>, keep: Record -> bool)
    requires forall x :: x in rows ==> keep(x)
    ensures Where(rows, keep) == rows
  {
    if rows != [] {
      assert forall x :: x in rows[1..] ==> x in rows;
      WhereKeepsAll(rows[1..], keep);
    }
  }
}
