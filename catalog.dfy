/** Catalog items as they come from the upstream API, and the three list operations the
    backends apply to them: tagging with a media type, concatenation, and shuffling. */
module Catalog {

  /** A JSON value. */
  datatype Json =
    | JNull
    | JBool(b: bool)
    | JNum(n: real)
    | JStr(s: string)
    | JArr(elems: seq<Json>)
    | JObj(fields: map<string, Json>)

  /** One upstream result: a JSON object. */
  type Item = map<string, Json>

  const MEDIA_TYPE := "media_type"

  datatype MediaType = Movie | Tv

  function MediaTypeName(m: MediaType): string {
    match m
    case Movie => "movie"
    case Tv => "tv"
  }

  /** `{ ...item, media_type: m }`: every field is kept, and `media_type` is set to `m`
      whether or not the item had one. */
  function Tag(item: Item, m: MediaType): (r: Item)
    ensures r.Keys == item.Keys + {MEDIA_TYPE}
    ensures r[MEDIA_TYPE] == JStr(MediaTypeName(m))
    ensures forall k :: k in item && k != MEDIA_TYPE ==> r[k] == item[k]
  {
    item[MEDIA_TYPE := JStr(MediaTypeName(m))]
  }

  /** Tagging twice keeps the last tag only. */
  lemma RetagOverrides(item: Item, m1: MediaType, m2: MediaType)
    ensures Tag(Tag(item, m1), m2) == Tag(item, m2)
  {
  }

  /** `items.map(item => ({ ...item, media_type: m }))`: the same length and order, each
      item tagged. */
  function TagAll(items: seq<Item>, m: MediaType): (r: seq<Item>)
    ensures |r| == |items|
    ensures forall i :: 0 <= i < |items| ==> r[i] == Tag(items[i], m)
  {
    if items == [] then [] else [Tag(items[0], m)] + TagAll(items[1..], m)
  }

  /** Every tagged item carries the tag. */
  lemma TagAllTagged(items: seq<Item>, m: MediaType)
    ensures forall it :: it in TagAll(items, m) ==> MEDIA_TYPE in it && it[MEDIA_TYPE] == JStr(MediaTypeName(m))
  {
    var r := TagAll(items, m);
    forall it | it in r ensures MEDIA_TYPE in it && it[MEDIA_TYPE] == JStr(MediaTypeName(m)) {
      var i :| 0 <= i < |r| && r[i] == it;
    }
  }

  /** `r` holds the movies tagged "movie", followed by the TV series tagged "tv". */
  predicate MoviesThenTv(r: seq<Item>, movies: seq<Item>, tv: seq<Item>) {
    && |r| == |movies| + |tv|
    && (forall i :: 0 <= i < |movies| ==> r[i] == Tag(movies[i], Movie))
    && (forall j :: 0 <= j < |tv| ==> r[|movies| + j] == Tag(tv[j], Tv))
  }

  /** `[...movies, ...tv]` with each side tagged: movies first, then TV, nothing lost. */
  function TagBoth(movies: seq<Item>, tv: seq<Item>): (r: seq<Item>)
    ensures MoviesThenTv(r, movies, tv)
  {
    TagAll(movies, Movie) + TagAll(tv, Tv)
  }

  /** `xs` without its element at `k`. */
  function RemoveAt<T>(xs: seq<T>, k: nat): (r: seq<T>)
    requires k < |xs|
    ensures |r| == |xs| - 1
    ensures multiset(r) == multiset(xs) - multiset{xs[k]}
  {
    assert xs == xs[..k] + [xs[k]] + xs[k + 1..];
    xs[..k] + xs[k + 1..]
  }

  /** `list.sort(() => Math.random() - 0.5)`, with the random numbers abstracted as a list of
      draws: each draw picks which of the remaining elements comes next. A missing or
      out-of-range draw picks the first remaining element. */
  function Shuffle<T>(xs: seq<T>, draws: seq<nat>): (r: seq<T>)
    ensures multiset(r) == multiset(xs)
    ensures |r| == |xs|
    decreases |xs|
  {
    if xs == [] then []
    else
      var k := if draws == [] || draws[0] >= |xs| then 0 else draws[0];
      var rest := Shuffle(RemoveAt(xs, k), if draws == [] then [] else draws[1..]);
      assert multiset([xs[k]] + rest) == multiset{xs[k]} + multiset(RemoveAt(xs, k));
      assert xs[k] in multiset(xs);
      [xs[k]] + rest
  }

  /** A first draw below the length picks exactly that element. */
  lemma ShuffleStep<T>(xs: seq<T>, k: nat, more: seq<nat>)
    requires k < |xs|
    ensures Shuffle(xs, [k] + more) == [xs[k]] + Shuffle(RemoveAt(xs, k), more)
  {
    assert ([k] + more)[1..] == more;
  }

  /** Every ordering of `xs` is the result of some draws, so the model does not constrain
      the order the random sort produces. */
  lemma {:induction false} ShuffleReachesEveryPermutation<T>(xs: seq<T>, ys: seq<T>)
    requires multiset(ys) == multiset(xs)
    ensures exists draws :: Shuffle(xs, draws) == ys
    decreases |xs|
  {
    if xs == [] {
      assert |ys| == 0;
      assert Shuffle(xs, []) == ys;
    } else {
      assert ys != [] by { assert xs[0] in multiset(ys); }
      assert ys[0] in multiset(xs) by { assert ys[0] in multiset(ys); }
      var k: nat :| k < |xs| && xs[k] == ys[0];
      TailMultiset(xs, ys, k);
      ShuffleReachesEveryPermutation(RemoveAt(xs, k), ys[1..]);
      var more :| Shuffle(RemoveAt(xs, k), more) == ys[1..];
      ShuffleExtends(xs, ys, k, more);
    }
  }

  /** Draws that produce the rest of `ys` from `xs` without `ys[0]`, preceded by the index
      of `ys[0]`, produce `ys`. */
  lemma ShuffleExtends<T>(xs: seq<T>, ys: seq<T>, k: nat, more: seq<nat>)
    requires k < |xs| && ys != [] && xs[k] == ys[0]
    requires Shuffle(RemoveAt(xs, k), more) == ys[1..]
    ensures Shuffle(xs, [k] + more) == ys
    ensures exists draws :: Shuffle(xs, draws) == ys
  {
    ShuffleStep(xs, k, more);
    HeadTail(ys);
  }

  lemma HeadTail<T>(ys: seq<T>)
    requires ys != []
    ensures [ys[0]] + ys[1..] == ys
  {
  }

  /** Taking the same element off the front of one ordering and out of the other leaves
      orderings of the same elements. */
  lemma TailMultiset<T>(xs: seq<T>, ys: seq<T>, k: nat)
    requires multiset(ys) == multiset(xs) && k < |xs| && ys != [] && xs[k] == ys[0]
    ensures multiset(ys[1..]) == multiset(RemoveAt(xs, k))
  {
    assert ys == [ys[0]] + ys[1..];
  }
}
