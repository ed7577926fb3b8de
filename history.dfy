/**
 * The generation history of the AI service: a list of generated images,
 * most recent first, capped at 50 entries, with favourite flags.
 */
module History {
  import opened Wrappers

  /** A model name other than the three back ends: the `default` branch of the service's switches. */
  predicate IsOtherModelName(name: string) {
    name != "stable-diffusion" && name != "qwen-image-edit" && name != "google-imagen"
  }

  type OtherModelName = name: string | IsOtherModelName(name) witness ""

  /** The generation back ends; `Unsupported` carries any other model name a caller passes. */
  datatype AIModel = StableDiffusion | QwenImageEdit | GoogleImagen | Unsupported(name: OtherModelName)

  /**
   * One history entry; `image` is `None` when the response held no image
   * string (the value is then `undefined`). The creation time is not modelled.
   */
  datatype GenerationHistory = GenerationHistory(id: string, prompt: string, image: Option<string>,
                                                 model: AIModel, favorite: bool)

  const MaxHistoryItems: nat := 50

  function Min(a: int, b: int): int {
    if a <= b then a else b
  }

  /** `addToHistory`: `[item, ...history].slice(0, 50)`. */
  function AddToHistory(h: seq<GenerationHistory>, item: GenerationHistory): (r: seq<GenerationHistory>)
    ensures |r| == Min(|h| + 1, MaxHistoryItems)
    ensures r[0] == item
    ensures forall k :: 1 <= k < |r| ==> r[k] == h[k - 1]
  {
    ([item] + h)[..Min(|h| + 1, MaxHistoryItems)]
  }

  /** Adding the items of `items` one after another, as successive generations do. */
  function AddAll(h: seq<GenerationHistory>, items: seq<GenerationHistory>): (r: seq<GenerationHistory>)
    ensures items != [] ==> |r| > 0
    decreases |items|
  {
    if items == [] then h else AddAll(AddToHistory(h, items[0]), items[1..])
  }

  /**
   * However many generations are added, the history never holds more than 50
   * entries, and the newest generation is first.
   */
  lemma {:induction false} AddAllBounded(h: seq<GenerationHistory>, items: seq<GenerationHistory>)
    requires |h| <= MaxHistoryItems
    ensures |AddAll(h, items)| <= MaxHistoryItems
    ensures items != [] ==> AddAll(h, items)[0] == items[|items| - 1]
    decreases |items|
  {
    if items != [] {
      var next := AddToHistory(h, items[0]);
      AddAllBounded(next, items[1..]);
      if |items| == 1 {
        assert items[1..] == [];
      } else {
        assert items[1..][|items[1..]| - 1] == items[|items| - 1];
      }
    }
  }

  /** The entry with `favorite` flipped when its id is `id`. */
  function ToggleItem(x: GenerationHistory, id: string): GenerationHistory {
    if x.id == id then x.(favorite := !x.favorite) else x
  }

  /** `toggleFavorite`: flip the favourite flag of every entry with the id; nothing else changes. */
  function ToggleFavorite(h: seq<GenerationHistory>, id: string): (r: seq<GenerationHistory>)
    ensures |r| == |h|
    ensures forall k :: 0 <= k < |h| && h[k].id == id ==>
      r[k].favorite == !h[k].favorite && r[k].(favorite := h[k].favorite) == h[k]
    ensures forall k :: 0 <= k < |h| && h[k].id != id ==> r[k] == h[k]
    decreases |h|
  {
    if h == [] then [] else [ToggleItem(h[0], id)] + ToggleFavorite(h[1..], id)
  }

  /** Toggling twice restores the history. */
  lemma ToggleInvolution(h: seq<GenerationHistory>, id: string)
    ensures ToggleFavorite(ToggleFavorite(h, id), id) == h
  {
    var r := ToggleFavorite(ToggleFavorite(h, id), id);
    forall k | 0 <= k < |h|
      ensures r[k] == h[k]
    {
      if h[k].id == id {
        assert ToggleFavorite(h, id)[k].id == id;
      }
    }
  }

  /** The entries of `h` that `keep` accepts, in their order (`Array.prototype.filter`). */
  function Filter(h: seq<GenerationHistory>, keep: GenerationHistory -> bool): (r: seq<GenerationHistory>)
    ensures |r| <= |h|
    decreases |h|
  {
    if h == [] then []
    else if keep(h[0]) then [h[0]] + Filter(h[1..], keep)
    else Filter(h[1..], keep)
  }

  /** An entry is in the result exactly when it is in `h` and `keep` accepts it. */
  lemma {:induction false} FilterMembers(h: seq<GenerationHistory>, keep: GenerationHistory -> bool)
    ensures forall x :: x in Filter(h, keep) <==> x in h && keep(x)
    decreases |h|
  {
    if h != [] {
      FilterMembers(h[1..], keep);
      assert forall x :: x in h <==> x == h[0] || x in h[1..];
    }
  }

  /** Filtering distributes over concatenation, so it keeps the relative order of the entries. */
  lemma {:induction false} FilterAppend(a: seq<GenerationHistory>, b: seq<GenerationHistory>,
                                        keep: GenerationHistory -> bool)
    ensures Filter(a + b, keep) == Filter(a, keep) + Filter(b, keep)
    decreases |a|
  {
    if a == [] {
      assert a + b == b;
    } else {
      assert (a + b)[0] == a[0];
      assert (a + b)[1..] == a[1..] + b;
      FilterAppend(a[1..], b, keep);
    }
  }

  /** When every entry is kept, the result is the whole history. */
  lemma {:induction false} FilterKeepsAll(h: seq<GenerationHistory>, keep: GenerationHistory -> bool)
    requires forall k :: 0 <= k < |h| ==> keep(h[k])
    ensures Filter(h, keep) == h
    decreases |h|
  {
    if h != [] {
      FilterKeepsAll(h[1..], keep);
    }
  }

  /** Filtering twice by the same predicate is filtering once. */
  lemma FilterIdempotent(h: seq<GenerationHistory>, keep: GenerationHistory -> bool)
    ensures Filter(Filter(h, keep), keep) == Filter(h, keep)
  {
    var r := Filter(h, keep);
    FilterMembers(h, keep);
    forall k | 0 <= k < |r|
      ensures keep(r[k])
    {
      assert r[k] in r;
    }
    FilterKeepsAll(r, keep);
  }

  function NotId(id: string): GenerationHistory -> bool {
    (x: GenerationHistory) => x.id != id
  }

  function IsFavorite(): GenerationHistory -> bool {
    (x: GenerationHistory) => x.favorite
  }

  /** `deleteFromHistory`: exactly the entries whose id differs, in order. */
  function DeleteFromHistory(h: seq<GenerationHistory>, id: string): (r: seq<GenerationHistory>)
    ensures forall x :: x in r <==> x in h && x.id != id
  {
    FilterMembers(h, NotId(id));
    Filter(h, NotId(id))
  }

  /** Deleting an id that no entry has leaves the history unchanged. */
  lemma DeleteAbsent(h: seq<GenerationHistory>, id: string)
    requires forall k :: 0 <= k < |h| ==> h[k].id != id
    ensures DeleteFromHistory(h, id) == h
  {
    FilterKeepsAll(h, NotId(id));
  }

  /** Deleting is idempotent. */
  lemma DeleteTwice(h: seq<GenerationHistory>, id: string)
    ensures DeleteFromHistory(DeleteFromHistory(h, id), id) == DeleteFromHistory(h, id)
  {
    FilterIdempotent(h, NotId(id));
  }

  /**
   * Deleting keeps order and multiplicity: it works entry by entry, keeping an
   * entry exactly when its id differs, and distributes over concatenation.
   */
  lemma DeleteInOrder(a: seq<GenerationHistory>, b: seq<GenerationHistory>, x: GenerationHistory, id: string)
    ensures DeleteFromHistory(a + b, id) == DeleteFromHistory(a, id) + DeleteFromHistory(b, id)
    ensures DeleteFromHistory([x], id) == if x.id != id then [x] else []
  {
    FilterAppend(a, b, NotId(id));
    assert [x][1..] == [];
  }

  /** `getFavorites`: exactly the entries marked favourite, in order. */
  function Favorites(h: seq<GenerationHistory>): (r: seq<GenerationHistory>)
    ensures forall x :: x in r <==> x in h && x.favorite
  {
    FilterMembers(h, IsFavorite());
    Filter(h, IsFavorite())
  }

  /**
   * The favourites keep order and multiplicity: an entry is kept exactly when
   * it is marked, and taking favourites distributes over concatenation.
   */
  lemma FavoritesInOrder(a: seq<GenerationHistory>, b: seq<GenerationHistory>, x: GenerationHistory)
    ensures Favorites(a + b) == Favorites(a) + Favorites(b)
    ensures Favorites([x]) == if x.favorite then [x] else []
  {
    FilterAppend(a, b, IsFavorite());
    assert [x][1..] == [];
  }

  /** Adding a favourite-free generation leaves the favourites as they were, until one falls off the end. */
  lemma FavoritesAfterAdd(h: seq<GenerationHistory>, item: GenerationHistory)
    requires !item.favorite && |h| < MaxHistoryItems
    ensures Favorites(AddToHistory(h, item)) == Favorites(h)
  {
    assert AddToHistory(h, item) == [item] + h;
    FilterAppend([item], h, IsFavorite());
    assert [item][1..] == [];
  }
}
