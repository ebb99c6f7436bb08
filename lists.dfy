/**
 * The Python lists the extractor accumulates rows in, and the loop shape it
 * uses three times: flatten every record of a response and append the row,
 * until a record raises.
 */
module Lists {
  import opened Wrappers
  import opened Records

  /** A Python list, shared by reference and grown in place. */
  class MutableList<T> {
    var elems: seq<T>

    constructor (init: seq<T>)
      ensures elems == init
    {
      elems := init;
    }

    /** `list.append(x)` */
    method Append(x: T)
      modifies this
      ensures elems == old(elems) + [x]
    {
      elems := elems + [x];
    }

    /** `list.extend(xs)` */
    method Extend(xs: seq<T>)
      modifies this
      ensures elems == old(elems) + xs
    {
      elems := elems + xs;
    }
  }

  /** `[f(x) for x in s]`, built element by element from the front. */
  function MapSeq<A, B>(f: A -> B, s: seq<A>): seq<B>
  {
    if s == [] then [] else MapSeq(f, s[..|s| - 1]) + [f(s[|s| - 1])]
  }

  /** `MapSeq` keeps the length and applies `f` at every position. */
  lemma {:induction false} MapSeqAt<A, B>(f: A -> B, s: seq<A>)
    ensures |MapSeq(f, s)| == |s|
    ensures forall j :: 0 <= j < |s| ==> MapSeq(f, s)[j] == f(s[j])
  {
    if s != [] {
      MapSeqAt(f, s[..|s| - 1]);
    }
  }

  /** Regrouping a concatenation; stated once over any element type, so
      that proofs about lists of rows need not compare rows. */
  lemma AppendAssoc<T>(a: seq<T>, b: seq<T>, c: seq<T>)
    ensures (a + b) + c == a + (b + c)
  {
  }

  /** The empty list is a unit of concatenation, over any element type. */
  lemma AppendEmpty<T>(a: seq<T>)
    ensures [] + a == a && a + [] == a
  {
  }

  /** What flattening `data` record by record produces: the rows of the records
      before the first one that raises, and that record's error if there is one. */
  datatype Batch = Batch(rows: seq<Row>, failure: Option<FlattenError>)

  /** The rows appended, and the exception raised, when `data` is flattened in
      order with `flatten`: one row per record, in order, up to the first
      failing record, which ends the loop. */
  function FlattenAll<R>(data: seq<R>, flatten: R -> Result<Row, FlattenError>): (b: Batch)
    ensures |b.rows| <= |data|
    ensures forall j :: 0 <= j < |b.rows| ==> flatten(data[j]) == Success(b.rows[j])
    ensures b.failure.None? <==> |b.rows| == |data|
    ensures b.failure.Some? ==> flatten(data[|b.rows|]) == Failure(b.failure.value)
  {
    if data == [] then Batch([], None)
    else
      var before := FlattenAll(data[..|data| - 1], flatten);
      if before.failure.Some? then before
      else match flatten(data[|data| - 1])
        case Success(row) => Batch(before.rows + [row], None)
        case Failure(e) => Batch(before.rows, Some(e))
  }

  /** `for record in data: target.append(<row of record>)`: appends to
      `target` exactly the rows `FlattenAll` describes and reports the
      exception that stopped the loop, if any. */
  method AppendEach<R>(target: MutableList<Row>, data: seq<R>, flatten: R -> Result<Row, FlattenError>)
    returns (failure: Option<FlattenError>)
    modifies target
    ensures target.elems == old(target.elems) + FlattenAll(data, flatten).rows
    ensures failure == FlattenAll(data, flatten).failure
  {
    for i := 0 to |data|
      invariant target.elems == old(target.elems) + FlattenAll(data[..i], flatten).rows
      invariant FlattenAll(data[..i], flatten).failure.None?
    {
      assert data[..i + 1][..i] == data[..i];
      var r := flatten(data[i]);
      if r.Failure? {
        failure := Some(r.error);
        FlattenAllStops(data, flatten, i + 1);
        return;
      }
      target.Append(r.value);
    }
    assert data[..|data|] == data;
    failure := None;
  }

  /** Once a prefix of `data` has failed, the whole of `data` fails the same way. */
  lemma {:induction false} FlattenAllStops<R>(data: seq<R>, flatten: R -> Result<Row, FlattenError>, k: nat)
    requires k <= |data| && FlattenAll(data[..k], flatten).failure.Some?
    ensures FlattenAll(data, flatten) == FlattenAll(data[..k], flatten)
    decreases |data| - k
  {
    if k < |data| {
      assert data[..k + 1][..k] == data[..k];
      FlattenAllStops(data, flatten, k + 1);
    } else {
      assert data[..k] == data;
    }
  }
}
