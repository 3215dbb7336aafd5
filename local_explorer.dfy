/**
 * The local data panel (src/app/components/LocalDataExplorer.tsx): the local
 * datasets split into a favourites section, a fetched section and a computed
 * section, and the message shown when there are no local datasets at all.
 */
module LocalDataExplorer {
  import opened Seqs
  import opened Types

  /** `favoritesSection`: the datasets whose id is a favourite id, in list order. */
  function FavoritesSection(ds: seq<LocalDataset>, favoriteIds: seq<Id>): (r: seq<LocalDataset>)
    ensures IsSubsequence(r, ds)
    ensures forall i :: 0 <= i < |r| ==> r[i] in ds && r[i].id in favoriteIds
    ensures forall i :: 0 <= i < |ds| && ds[i].id in favoriteIds ==> ds[i] in r
    ensures forall i :: 0 <= i < |ds| && ds[i].id in favoriteIds ==> multiset(r)[ds[i]] == multiset(ds)[ds[i]]
  {
    var keep := (d: LocalDataset) => d.id in favoriteIds;
    FilterKeepsCopies(ds, keep);
    Filter(ds, keep)
  }

  /** `fetchedSection`: the fetched datasets that are not favourites, in list order. */
  function FetchedSection(ds: seq<LocalDataset>, favoriteIds: seq<Id>): (r: seq<LocalDataset>)
    ensures IsSubsequence(r, ds)
    ensures forall i :: 0 <= i < |r| ==> r[i] in ds && r[i].kind == Fetched && r[i].id !in favoriteIds
    ensures forall i :: 0 <= i < |ds| && ds[i].kind == Fetched && ds[i].id !in favoriteIds ==> ds[i] in r
    ensures forall i :: 0 <= i < |ds| && ds[i].kind == Fetched && ds[i].id !in favoriteIds ==>
      multiset(r)[ds[i]] == multiset(ds)[ds[i]]
  {
    var keep := (d: LocalDataset) => d.kind == Fetched && d.id !in favoriteIds;
    FilterKeepsCopies(ds, keep);
    Filter(ds, keep)
  }

  /** `computedSection`: every computed dataset, favourite or not, in list order. */
  function ComputedSection(ds: seq<LocalDataset>): (r: seq<LocalDataset>)
    ensures IsSubsequence(r, ds)
    ensures forall i :: 0 <= i < |r| ==> r[i] in ds && r[i].kind == Computed
    ensures forall i :: 0 <= i < |ds| && ds[i].kind == Computed ==> ds[i] in r
    ensures forall i :: 0 <= i < |ds| && ds[i].kind == Computed ==> multiset(r)[ds[i]] == multiset(ds)[ds[i]]
  {
    var keep := (d: LocalDataset) => d.kind == Computed;
    FilterKeepsCopies(ds, keep);
    Filter(ds, keep)
  }

  /** The "No local datasets yet" message. */
  predicate ShowEmptyState(ds: seq<LocalDataset>)
  {
    |ds| == 0
  }

  /** No dataset is shown both as a favourite and as fetched data. */
  lemma FavoritesAndFetchedDisjoint(ds: seq<LocalDataset>, favoriteIds: seq<Id>)
    ensures forall i, j ::
      (0 <= i < |FavoritesSection(ds, favoriteIds)| && 0 <= j < |FetchedSection(ds, favoriteIds)|
       ==> FavoritesSection(ds, favoriteIds)[i] != FetchedSection(ds, favoriteIds)[j])
  {
    var fav, fetched := FavoritesSection(ds, favoriteIds), FetchedSection(ds, favoriteIds);
    forall i, j | 0 <= i < |fav| && 0 <= j < |fetched| ensures fav[i] != fetched[j] {
      assert fav[i].id in favoriteIds && fetched[j].id !in favoriteIds;
    }
  }

  /** Every dataset is shown in at least one section, since each is fetched or computed. */
  lemma EverySectionCovered(ds: seq<LocalDataset>, favoriteIds: seq<Id>)
    ensures forall i :: 0 <= i < |ds| ==>
      ds[i] in FavoritesSection(ds, favoriteIds) || ds[i] in FetchedSection(ds, favoriteIds)
      || ds[i] in ComputedSection(ds)
  {
    forall i | 0 <= i < |ds|
      ensures ds[i] in FavoritesSection(ds, favoriteIds) || ds[i] in FetchedSection(ds, favoriteIds)
              || ds[i] in ComputedSection(ds)
    {
      if ds[i].id in favoriteIds {
        assert ds[i] in FavoritesSection(ds, favoriteIds);
      } else if ds[i].kind == Fetched {
        assert ds[i] in FetchedSection(ds, favoriteIds);
      } else {
        assert ds[i] in ComputedSection(ds);
      }
    }
  }

  /** A computed favourite is shown twice: among the favourites and among the computed data. */
  lemma ComputedFavoriteShownTwice(ds: seq<LocalDataset>, favoriteIds: seq<Id>, i: nat)
    requires i < |ds| && ds[i].kind == Computed && ds[i].id in favoriteIds
    ensures ds[i] in FavoritesSection(ds, favoriteIds) && ds[i] in ComputedSection(ds)
    ensures ds[i] !in FetchedSection(ds, favoriteIds)
  {
  }

  /** The message is shown exactly when all three sections are empty. */
  lemma EmptyStateIffNoSections(ds: seq<LocalDataset>, favoriteIds: seq<Id>)
    ensures ShowEmptyState(ds) <==>
      FavoritesSection(ds, favoriteIds) == [] && FetchedSection(ds, favoriteIds) == [] && ComputedSection(ds) == []
  {
    if |ds| > 0 {
      EverySectionCovered(ds, favoriteIds);
      assert ds[0] in FavoritesSection(ds, favoriteIds) || ds[0] in FetchedSection(ds, favoriteIds)
             || ds[0] in ComputedSection(ds);
    }
  }

  /**
   * The favourite ids are catalog ids while a fetched copy gets a fresh
   * `local-` id, so when no catalog id starts with `local-` the favourites
   * section stays empty.
   */
  lemma NoFavoritesAmongLocalCopies(ds: seq<LocalDataset>, favoriteIds: seq<Id>)
    requires forall i :: 0 <= i < |ds| ==> LocalIdPrefix <= ds[i].id
    requires forall k :: 0 <= k < |favoriteIds| ==> !(LocalIdPrefix <= favoriteIds[k])
    ensures FavoritesSection(ds, favoriteIds) == []
  {
  }
}
