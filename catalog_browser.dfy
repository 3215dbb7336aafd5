/**
 * The catalog browser's filtering (src/app/components/STACCatalogBrowser.tsx):
 * the distinct ECV and data-source values offered as filters, and the
 * datasets shown for a search term, an ECV filter and a source filter, where
 * the filter value "all" matches everything.
 */
module CatalogBrowser {
  import opened Seqs
  import opened Types

  const AllValues: string := "all"

  /** `toLowerCase` on ASCII letters; every other character is left as it is. */
  function LowerChar(c: char): char
  {
    if 'A' <= c <= 'Z' then (c as int + 32) as char else c
  }

  function Lower(s: string): (r: string)
    ensures |r| == |s| && forall i :: 0 <= i < |s| ==> r[i] == LowerChar(s[i])
  {
    Map(s, LowerChar)
  }

  /** `needle` occurs in `hay` starting at position `i`. */
  ghost predicate OccursAt(hay: string, needle: string, i: int)
  {
    0 <= i && i + |needle| <= |hay| && hay[i..i + |needle|] == needle
  }

  /** `String.prototype.includes`: whether `needle` occurs somewhere in `hay`. */
  function Includes(hay: string, needle: string): (b: bool)
    ensures b <==> exists i :: OccursAt(hay, needle, i)
    decreases |hay|
  {
    if |needle| > |hay| then false
    else if hay[..|needle|] == needle then
      assert OccursAt(hay, needle, 0);
      true
    else
      var b := Includes(hay[1..], needle);
      assert forall i :: OccursAt(hay[1..], needle, i) ==> OccursAt(hay, needle, i + 1) by {
        forall i | OccursAt(hay[1..], needle, i) ensures OccursAt(hay, needle, i + 1) {
          assert hay[1..][i..i + |needle|] == hay[i + 1..i + 1 + |needle|];
        }
      }
      assert forall i :: OccursAt(hay, needle, i) ==> OccursAt(hay[1..], needle, i - 1) by {
        forall i | OccursAt(hay, needle, i) ensures OccursAt(hay[1..], needle, i - 1) {
          assert i != 0;
          assert hay[1..][i - 1..i - 1 + |needle|] == hay[i..i + |needle|];
        }
      }
      b
  }

  lemma IncludesEmpty(hay: string)
    ensures Includes(hay, "")
  {
    assert OccursAt(hay, "", 0);
  }

  lemma IncludesTransitive(a: string, b: string, c: string)
    requires Includes(a, b) && Includes(b, c)
    ensures Includes(a, c)
  {
    var i :| OccursAt(a, b, i);
    var j :| OccursAt(b, c, j);
    forall k | 0 <= k < |c| ensures a[i + j + k] == c[k] {
      assert a[i..i + |b|][j + k] == b[j + k];
      assert b[j..j + |c|][k] == c[k];
    }
    assert a[i + j..i + j + |c|] == c;
    assert OccursAt(a, c, i + j);
  }

  lemma LowerKeepsIncludes(a: string, b: string)
    requires Includes(a, b)
    ensures Includes(Lower(a), Lower(b))
  {
    var i :| OccursAt(a, b, i);
    assert Lower(a)[i..i + |b|] == Lower(b);
    assert OccursAt(Lower(a), Lower(b), i);
  }

  predicate MatchesSearch(d: StacDataset, searchTerm: string)
  {
    Includes(Lower(d.title), Lower(searchTerm)) || Includes(Lower(d.description), Lower(searchTerm))
  }

  predicate MatchesEcv(d: StacDataset, selectedEcv: string)
  {
    selectedEcv == AllValues || d.ecv == selectedEcv
  }

  predicate MatchesSource(d: StacDataset, selectedSource: string)
  {
    selectedSource == AllValues || d.dataSource == selectedSource
  }

  predicate Matches(d: StacDataset, searchTerm: string, selectedEcv: string, selectedSource: string)
  {
    MatchesSearch(d, searchTerm) && MatchesEcv(d, selectedEcv) && MatchesSource(d, selectedSource)
  }

  /** `filteredDatasets`: the datasets meeting all three criteria, in catalog order. */
  function FilteredDatasets(ds: seq<StacDataset>, searchTerm: string, selectedEcv: string, selectedSource: string)
    : (r: seq<StacDataset>)
    ensures IsSubsequence(r, ds)
    ensures forall i :: 0 <= i < |r| ==> r[i] in ds && Matches(r[i], searchTerm, selectedEcv, selectedSource)
    ensures forall i :: 0 <= i < |ds| && Matches(ds[i], searchTerm, selectedEcv, selectedSource) ==> ds[i] in r
    ensures forall i :: 0 <= i < |ds| && Matches(ds[i], searchTerm, selectedEcv, selectedSource) ==>
      multiset(r)[ds[i]] == multiset(ds)[ds[i]]
  {
    var keep := (d: StacDataset) => Matches(d, searchTerm, selectedEcv, selectedSource);
    FilterKeepsCopies(ds, keep);
    Filter(ds, keep)
  }

  /** With no search term and both filters on "all", the whole catalog is shown. */
  lemma UnfilteredShowsAll(ds: seq<StacDataset>)
    ensures FilteredDatasets(ds, "", AllValues, AllValues) == ds
  {
    forall d | d in ds ensures Matches(d, "", AllValues, AllValues) {
      assert Lower("") == "";
      IncludesEmpty(Lower(d.title));
    }
    FilterKeepsAll(ds, (d: StacDataset) => Matches(d, "", AllValues, AllValues));
  }

  /** Setting the ECV filter to "all" can only add datasets. */
  lemma RelaxEcvFilter(ds: seq<StacDataset>, searchTerm: string, selectedEcv: string, selectedSource: string)
    ensures IsSubsequence(FilteredDatasets(ds, searchTerm, selectedEcv, selectedSource),
                          FilteredDatasets(ds, searchTerm, AllValues, selectedSource))
  {
    FilterMonotone(ds, (d: StacDataset) => Matches(d, searchTerm, selectedEcv, selectedSource),
                       (d: StacDataset) => Matches(d, searchTerm, AllValues, selectedSource));
  }

  /** Setting the source filter to "all" can only add datasets. */
  lemma RelaxSourceFilter(ds: seq<StacDataset>, searchTerm: string, selectedEcv: string, selectedSource: string)
    ensures IsSubsequence(FilteredDatasets(ds, searchTerm, selectedEcv, selectedSource),
                          FilteredDatasets(ds, searchTerm, selectedEcv, AllValues))
  {
    FilterMonotone(ds, (d: StacDataset) => Matches(d, searchTerm, selectedEcv, selectedSource),
                       (d: StacDataset) => Matches(d, searchTerm, selectedEcv, AllValues));
  }

  /** A search term that contains another one shows only datasets the shorter one shows. */
  lemma NarrowSearch(ds: seq<StacDataset>, broad: string, narrow: string, selectedEcv: string, selectedSource: string)
    requires Includes(narrow, broad)
    ensures IsSubsequence(FilteredDatasets(ds, narrow, selectedEcv, selectedSource),
                          FilteredDatasets(ds, broad, selectedEcv, selectedSource))
  {
    LowerKeepsIncludes(narrow, broad);
    forall d: StacDataset | MatchesSearch(d, narrow) ensures MatchesSearch(d, broad) {
      if Includes(Lower(d.title), Lower(narrow)) {
        IncludesTransitive(Lower(d.title), Lower(narrow), Lower(broad));
      } else {
        IncludesTransitive(Lower(d.description), Lower(narrow), Lower(broad));
      }
    }
    FilterMonotone(ds, (d: StacDataset) => Matches(d, narrow, selectedEcv, selectedSource),
                       (d: StacDataset) => Matches(d, broad, selectedEcv, selectedSource));
  }

  function EcvColumn(ds: seq<StacDataset>): seq<string>
  {
    Map(ds, (d: StacDataset) => d.ecv)
  }

  function SourceColumn(ds: seq<StacDataset>): seq<string>
  {
    Map(ds, (d: StacDataset) => d.dataSource)
  }

  /** `ecvs`: every ECV of the catalog once, in order of first occurrence. */
  function Ecvs(ds: seq<StacDataset>): (r: seq<string>)
    ensures forall e :: e in r <==> exists i :: 0 <= i < |ds| && ds[i].ecv == e
    ensures NoDuplicates(r)
    ensures forall i, j :: 0 <= i < j < |r| ==>
      r[i] in EcvColumn(ds) && r[j] in EcvColumn(ds) && IndexOf(EcvColumn(ds), r[i]) < IndexOf(EcvColumn(ds), r[j])
  {
    var col := EcvColumn(ds);
    var r := Distinct(col);
    assert forall e :: e in r ==> exists i :: 0 <= i < |ds| && ds[i].ecv == e by {
      forall e | e in r ensures exists i :: 0 <= i < |ds| && ds[i].ecv == e {
        var k :| 0 <= k < |r| && r[k] == e;
        var i :| 0 <= i < |col| && col[i] == e;
      }
    }
    r
  }

  /** `sources`: every data source of the catalog once, in order of first occurrence. */
  function Sources(ds: seq<StacDataset>): (r: seq<string>)
    ensures forall s :: s in r <==> exists i :: 0 <= i < |ds| && ds[i].dataSource == s
    ensures NoDuplicates(r)
    ensures forall i, j :: 0 <= i < j < |r| ==>
      r[i] in SourceColumn(ds) && r[j] in SourceColumn(ds)
      && IndexOf(SourceColumn(ds), r[i]) < IndexOf(SourceColumn(ds), r[j])
  {
    var col := SourceColumn(ds);
    var r := Distinct(col);
    assert forall s :: s in r ==> exists i :: 0 <= i < |ds| && ds[i].dataSource == s by {
      forall s | s in r ensures exists i :: 0 <= i < |ds| && ds[i].dataSource == s {
        var k :| 0 <= k < |r| && r[k] == s;
        var i :| 0 <= i < |col| && col[i] == s;
      }
    }
    r
  }
}
