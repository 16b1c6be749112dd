/** Content normalisation (`_ClusterTask._prepare_contents`) and the slicing
    of normalised records into upload chunks of 100 (`_cluster_push`,
    `_comments_push`). */
module Contents {
  import opened Text
  import opened Values

  /** Records per upload request. */
  const ChunkSize: nat := 100

  /** The id `uuid.uuid4()` hands out the n-th time it is called: the model
      keeps only the property the client relies on, that no two are equal. */
  function Uuid(n: nat): string
  {
    "uuid-" + NatToString(n)
  }

  lemma UuidInjective(a: nat, b: nat)
    requires Uuid(a) == Uuid(b)
    ensures a == b
  {
    assert NatToString(a) == Uuid(a)[5..];
    assert NatToString(b) == Uuid(b)[5..];
    NatToStringInjective(a, b);
  }

  /** `_id, s = x` followed by `{"_id": _id, "text": s}`. Unpacking iterates
      over `x`: a pair yields its two elements, a two-character string its
      two characters, a `{_id, text}` dict its two keys; anything else raises. */
  function Unpack(x: Value): (r: Result<Value>)
    ensures r.Success? ==> r.value.Dict?
    ensures x.Tuple? ==> (r.Success? <==> |x.elems| == 2)
    ensures x.Tuple? && |x.elems| == 2 ==> r == Success(Dict(x.elems[0], x.elems[1]))
    ensures x.Str? ==> (r.Success? <==> |x.s| == 2)
    ensures x.Str? && |x.s| == 2 ==> r == Success(Dict(Str([x.s[0]]), Str([x.s[1]])))
    ensures x.Dict? ==> r == Success(Dict(Str("_id"), Str("text")))
    ensures x.Int? ==> r == Failure(UnpackError)
    ensures r.Failure? ==> r.error == UnpackError
  {
    match x
    case Tuple(es) => if |es| == 2 then Success(Dict(es[0], es[1])) else Failure(UnpackError)
    case Str(s) => if |s| == 2 then Success(Dict(Str([s[0]]), Str([s[1]]))) else Failure(UnpackError)
    case Dict(_, _) => Success(Dict(Str("_id"), Str("text")))
    case Int(_) => Failure(UnpackError)
  }

  /** The list comprehension over `Unpack`: it raises at the first item that
      does not unpack. */
  function UnpackAll(xs: seq<Value>): (r: Result<seq<Value>>)
    ensures r.Success? <==> forall k :: 0 <= k < |xs| ==> Unpack(xs[k]).Success?
    ensures r.Success? ==> |r.value| == |xs|
    ensures r.Success? ==> forall k :: 0 <= k < |xs| ==> Unpack(xs[k]) == Success(r.value[k])
    ensures r.Failure? ==> r.error == UnpackError
    decreases |xs|
  {
    if |xs| == 0 then Success([])
    else match Unpack(xs[0])
      case Failure(e) => Failure(e)
      case Success(d) =>
        match UnpackAll(xs[1..])
        case Failure(e) => Failure(e)
        case Success(ds) => Success([d] + ds)
  }

  /** `_prepare_contents`. The shape of the whole list is decided by its first
      item: texts get fresh ids `Uuid(next)`, `Uuid(next + 1)`, ...; tuples are
      unpacked; anything else is returned as it is. */
  function Prepare(xs: seq<Value>, next: nat): Result<seq<Value>>
  {
    if |xs| == 0 then Success([])
    else if xs[0].Str? then Success(seq(|xs|, k requires 0 <= k < |xs| => Dict(Str(Uuid(next + k)), xs[k])))
    else if xs[0].Tuple? then UnpackAll(xs)
    else Success(xs)
  }

  /** How many fresh ids `Prepare` draws. */
  function IdsUsed(xs: seq<Value>): nat
  {
    if 0 < |xs| && xs[0].Str? then |xs| else 0
  }

  /** What normalisation does to each documented input shape; length and
      order are kept. */
  lemma PrepareShapes(xs: seq<Value>, next: nat)
    ensures |xs| == 0 ==> Prepare(xs, next) == Success([])
    ensures Prepare(xs, next).Success? ==> |Prepare(xs, next).value| == |xs|
    ensures 0 < |xs| && xs[0].Str? ==>
      Prepare(xs, next).Success? &&
      forall k :: 0 <= k < |xs| ==> Prepare(xs, next).value[k] == Dict(Str(Uuid(next + k)), xs[k])
    ensures 0 < |xs| && (forall k :: 0 <= k < |xs| ==> xs[k].Tuple? && |xs[k].elems| == 2) ==>
      Prepare(xs, next).Success? &&
      forall k :: 0 <= k < |xs| ==> Prepare(xs, next).value[k] == Dict(xs[k].elems[0], xs[k].elems[1])
    ensures 0 < |xs| && xs[0].Tuple? ==>
      (Prepare(xs, next).Failure? <==> exists k :: 0 <= k < |xs| && Unpack(xs[k]).Failure?)
    ensures 0 < |xs| && xs[0].Dict? ==> Prepare(xs, next) == Success(xs)
  {
    if 0 < |xs| && (forall k :: 0 <= k < |xs| ==> xs[k].Tuple? && |xs[k].elems| == 2) {
      var r := UnpackAll(xs);
      assert forall k :: 0 <= k < |xs| ==> Unpack(xs[k]) == Success(Dict(xs[k].elems[0], xs[k].elems[1]));
    }
  }

  /** The ids normalisation generates are pairwise distinct and differ from
      every id handed out before. */
  lemma PrepareIdsFresh(xs: seq<Value>, next: nat)
    requires 0 < |xs| && xs[0].Str?
    ensures Prepare(xs, next).Success? && |Prepare(xs, next).value| == |xs|
    ensures forall k :: 0 <= k < |xs| ==> Prepare(xs, next).value[k].Dict?
    ensures forall i, j :: 0 <= i < j < |xs| ==> Prepare(xs, next).value[i].id != Prepare(xs, next).value[j].id
    ensures forall i: nat, m: nat :: i < |xs| && m < next ==> Prepare(xs, next).value[i].id != Str(Uuid(m))
  {
    var r := Prepare(xs, next).value;
    forall i, j | 0 <= i < j < |xs|
      ensures r[i].id != r[j].id
    {
      if r[i].id == r[j].id {
        UuidInjective(next + i, next + j);
      }
    }
    forall i: nat, m: nat | i < |xs| && m < next
      ensures r[i].id != Str(Uuid(m))
    {
      if r[i].id == Str(Uuid(m)) {
        UuidInjective(next + i, m);
      }
    }
  }

  /** Normalising twice is normalising once, and the second pass draws no ids:
      `push` normalises and then `_cluster_push` normalises again. */
  lemma PrepareIdempotent(xs: seq<Value>, next: nat, later: nat)
    requires Prepare(xs, next).Success?
    ensures Prepare(Prepare(xs, next).value, later) == Prepare(xs, next)
    ensures IdsUsed(Prepare(xs, next).value) == 0
  {
    var r := Prepare(xs, next).value;
    if 0 < |xs| && xs[0].Tuple? {
      assert Unpack(xs[0]) == Success(r[0]);
    }
  }

  /** The one-shot wrappers' own numbering of plain texts:
      `[{"_id": _id, "text": s} for _id, s in enumerate(contents)]`. */
  function Positional(xs: seq<Value>): seq<Value>
  {
    seq(|xs|, k requires 0 <= k < |xs| => Dict(Int(k), xs[k]))
  }

  /** Positionally numbered texts keep their ids 0 .. n-1 through
      normalisation, which draws no fresh id for them. */
  lemma PositionalIdsKept(xs: seq<Value>, next: nat)
    ensures |Positional(xs)| == |xs|
    ensures forall k :: 0 <= k < |xs| ==> Positional(xs)[k] == Dict(Int(k), xs[k])
    ensures Prepare(Positional(xs), next) == Success(Positional(xs))
    ensures IdsUsed(Positional(xs)) == 0
  {
  }

  /** `[contents[i:i + 100] for i in range(0, len(contents), 100)]`. */
  function Chunks<T>(xs: seq<T>): seq<seq<T>>
    decreases |xs|
  {
    if |xs| == 0 then []
    else if |xs| <= ChunkSize then [xs]
    else [xs[..ChunkSize]] + Chunks(xs[ChunkSize..])
  }

  function Flatten<T>(ss: seq<seq<T>>): seq<T>
    decreases |ss|
  {
    if |ss| == 0 then [] else ss[0] + Flatten(ss[1..])
  }

  /** ceil(N/100) chunks, every one but the last exactly 100 long, none
      empty, and together, in order, exactly the input. */
  lemma {:induction false} ChunksPartition<T>(xs: seq<T>)
    ensures |Chunks(xs)| == (|xs| + ChunkSize - 1) / ChunkSize
    ensures Flatten(Chunks(xs)) == xs
    ensures forall j :: 0 <= j < |Chunks(xs)| ==> 0 < |Chunks(xs)[j]| <= ChunkSize
    ensures forall j :: 0 <= j < |Chunks(xs)| - 1 ==> |Chunks(xs)[j]| == ChunkSize
    decreases |xs|
  {
    if |xs| > ChunkSize {
      ChunksPartition(xs[ChunkSize..]);
      var c := Chunks(xs);
      assert c[1..] == Chunks(xs[ChunkSize..]);
      assert Flatten(c) == xs[..ChunkSize] + xs[ChunkSize..];
    }
  }

  /** Chunk j is the slice starting at 100 * j, as the source's loop cuts it. */
  lemma {:induction false} ChunkAt<T>(xs: seq<T>, j: nat)
    requires ChunkSize * j < |xs|
    ensures j < |Chunks(xs)|
    ensures Chunks(xs)[j] == xs[ChunkSize * j .. Min(ChunkSize * j + ChunkSize, |xs|)]
    decreases |xs|
  {
    if j > 0 {
      var tail := xs[ChunkSize..];
      ChunkAt(tail, j - 1);
      var lo, hi := ChunkSize * (j - 1), Min(ChunkSize * (j - 1) + ChunkSize, |tail|);
      assert ChunkSize + lo == ChunkSize * j;
      assert ChunkSize + hi == Min(ChunkSize * j + ChunkSize, |xs|);
      assert tail[lo..hi] == xs[ChunkSize + lo .. ChunkSize + hi];
    }
  }
}
