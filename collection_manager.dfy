/**
 * The server's in-memory collection manager: an ordered list of bands, the
 * date the collection was created and the id allocator, with the operations
 * the command layer calls on them.
 */
module CollectionManager {
  import opened Bands
  import opened Sequences

  // ---------------------------------------------------------------------------
  // Facts about a list of bands
  // ---------------------------------------------------------------------------

  /** Two distinct positions hold bands with the same id. */
  ghost predicate HasRepeatingId(s: seq<Band>)
  {
    exists i, j :: 0 <= i < j < |s| && s[i].id == s[j].id
  }

  function Max(a: int, b: int): (r: int)
  {
    if a < b then b else a
  }

  /** The largest id among the first `k` bands of the list. */
  function MaxIdAmongFirst(s: seq<Band>, k: nat): (m: int)
    requires 0 < k <= |s|
    ensures forall j :: 0 <= j < k ==> s[j].id <= m
  {
    if k == 1 then s[0].id else Max(MaxIdAmongFirst(s, k - 1), s[k - 1].id)
  }

  /** The largest id is the id of one of the bands counted. */
  lemma {:induction false} MaxIdIsAttained(s: seq<Band>, k: nat)
    requires 0 < k <= |s|
    ensures exists j :: 0 <= j < k && s[j].id == MaxIdAmongFirst(s, k)
  {
    if k == 1 {
      assert s[0].id == MaxIdAmongFirst(s, k);
    } else {
      MaxIdIsAttained(s, k - 1);
      var j :| 0 <= j < k - 1 && s[j].id == MaxIdAmongFirst(s, k - 1);
      if s[k - 1].id > s[j].id {
        assert s[k - 1].id == MaxIdAmongFirst(s, k);
      } else {
        assert s[j].id == MaxIdAmongFirst(s, k);
      }
    }
  }

  /** The position of the first band with the given id, if there is one. */
  function FirstIndexOfId(s: seq<Band>, id: int): (r: Option<nat>)
    ensures r.Some? ==> r.value < |s| && s[r.value].id == id
    ensures r.Some? ==> forall j :: 0 <= j < r.value ==> s[j].id != id
    ensures r.None? <==> forall j :: 0 <= j < |s| ==> s[j].id != id
    decreases |s|
  {
    if s == [] then None
    else if s[0].id == id then Some(0)
    else match FirstIndexOfId(s[1..], id)
      case None => None
      case Some(k) => Some(k + 1)
  }

  /** Every band with the given id swapped for `band` (the `map` step of `replace`). */
  function ReplaceId(s: seq<Band>, id: int, band: Band): (r: seq<Band>)
    ensures |r| == |s|
    ensures forall i :: 0 <= i < |s| && s[i].id == id ==> r[i] == band
    ensures forall i :: 0 <= i < |s| && s[i].id != id ==> r[i] == s[i]
    decreases |s|
  {
    if s == [] then []
    else [if s[0].id == id then band else s[0]] + ReplaceId(s[1..], id, band)
  }

  /** Keeps the bands whose id differs from `id`. */
  function IdOtherThan(id: int): (p: Band -> bool)
  {
    (b: Band) => b.id != id
  }

  /** Keeps the bands that `equals` does not identify with `band`. */
  function NotEqualTo(equals: (Band, Band) -> bool, band: Band): (p: Band -> bool)
  {
    b => !equals(b, band)
  }

  predicate SinglesBelow(n: int, b: Band)
  {
    b.singlesCount.Some? && b.singlesCount.value < n
  }

  predicate GenreBelow(genre: Genre, b: Band)
  {
    b.genre.Some? && CompareGenres(b.genre.value, genre) < 0
  }

  /** The order of `sortByGenre`: bands without a genre first, then by genre. */
  predicate GenreLe(a: Band, b: Band)
  {
    match (a.genre, b.genre)
    case (None, _) => true
    case (Some(_), None) => false
    case (Some(x), Some(y)) => CompareGenres(x, y) <= 0
  }

  /** The comparator `sortByGenre` hands to the sort, as the source writes it. */
  function GenreComparatorAsWritten(a: Band, b: Band): (r: int)
    ensures a.genre.None? ==> r < 0
    ensures a.genre.Some? && b.genre.None? ==> r > 0
    ensures a.genre.Some? && b.genre.Some? ==> (r < 0 <==> a.genre.value.ordinal < b.genre.value.ordinal)
    ensures a.genre.Some? && b.genre.Some? ==> (r == 0 <==> a.genre == b.genre)
  {
    if a.genre.None? then -1
    else if b.genre.None? then 1
    else CompareGenres(a.genre.value, b.genre.value)
  }

  /**
   * Two bands without a genre are each put before the other, which breaks the
   * comparator contract `sgn(compare(x, y)) == -sgn(compare(y, x))`.
   */
  lemma GenreComparatorAsWrittenIsNotAntisymmetric(a: Band, b: Band)
    requires a.genre.None? && b.genre.None?
    ensures GenreComparatorAsWritten(a, b) < 0 && GenreComparatorAsWritten(b, a) < 0
  {
  }

  /** Wherever the written comparator is consistent, `GenreLe` orders exactly as it does. */
  lemma GenreLeAgreesWithComparator(a: Band, b: Band)
    requires a.genre.Some? || b.genre.Some?
    ensures GenreLe(a, b) <==> GenreComparatorAsWritten(a, b) <= 0
  {
  }

  lemma GenreLeIsTotalPreorder()
    ensures TotalPreorder(GenreLe)
  {
  }

  // ---------------------------------------------------------------------------
  // Id uniqueness under the rebuilding operations
  // ---------------------------------------------------------------------------

  lemma {:induction false} SubsequenceKeepsIdsUnique(a: seq<Band>, b: seq<Band>)
    requires Subsequence(a, b)
    requires !HasRepeatingId(b)
    ensures !HasRepeatingId(a)
    decreases |b|
  {
    if a != [] {
      assert !HasRepeatingId(b[1..]) by {
        forall i, j | 0 <= i < j < |b[1..]| ensures b[1..][i].id != b[1..][j].id {
          assert b[1..][i] == b[i + 1] && b[1..][j] == b[j + 1];
        }
      }
      if a[0] == b[0] && Subsequence(a[1..], b[1..]) {
        SubsequenceKeepsIdsUnique(a[1..], b[1..]);
        SubsequenceMembers(a[1..], b[1..]);
        forall i, j | 0 <= i < j < |a| ensures a[i].id != a[j].id {
          assert a[j] == a[1..][j - 1];
          if i == 0 {
            assert a[j] in a[1..];
            var m :| 0 <= m < |b[1..]| && b[1..][m] == a[j];
            assert b[m + 1] == a[j];
          } else {
            assert a[i] == a[1..][i - 1];
          }
        }
      } else {
        SubsequenceKeepsIdsUnique(a, b[1..]);
      }
    }
  }

  /** Appending a band whose id exceeds every id present keeps the ids unique. */
  lemma AppendFreshIdKeepsIdsUnique(s: seq<Band>, band: Band)
    requires !HasRepeatingId(s)
    requires forall b :: b in s ==> b.id < band.id
    ensures !HasRepeatingId(s + [band])
  {
  }

  // ---------------------------------------------------------------------------
  // The manager
  // ---------------------------------------------------------------------------

  /** What `info` reports besides the type name. */
  datatype Summary = Summary(initializationDate: Date, numberOfElements: nat)

  class ArrayListManager {
    var bands: seq<Band>
    var initializationDate: Date
    var maxId: int

    constructor (arrayList: seq<Band>, initializationDate: Date)
      ensures bands == arrayList && this.initializationDate == initializationDate
      ensures maxId == 0
    {
      bands := arrayList;
      this.initializationDate := initializationDate;
      maxId := 0;
    }

    function Info(): (r: Summary)
      reads this
      ensures r.numberOfElements == |bands|
      ensures r.initializationDate == initializationDate
    {
      Summary(initializationDate, |bands|)
    }

    method Add(band: Band)
      modifies this`bands
      ensures bands == old(bands) + [band]
      ensures Get(|old(bands)|) == Success(band)
    {
      bands := bands + [band];
    }

    /** Sorts the list by the bands' natural order; `le(a, b)` means `a.compareTo(b) <= 0`. */
    method Sort(le: (Band, Band) -> bool)
      requires TotalPreorder(le)
      modifies this`bands
      ensures multiset(bands) == multiset(old(bands))
      ensures SortedBy(bands, le)
      ensures forall z :: Filter(bands, SameKey(le, z)) == Filter(old(bands), SameKey(le, z))
      ensures old(SortedBy(bands, le)) ==> bands == old(bands)
    {
      SortByProperties(bands, le);
      bands := SortBy(bands, le);
    }

    /** Removes every band that `equals` identifies with `band`. */
    method Remove(band: Band, equals: (Band, Band) -> bool)
      modifies this`bands
      ensures forall b :: b in bands ==> !equals(b, band)
      ensures forall b :: !equals(b, band) ==> multiset(bands)[b] == multiset(old(bands))[b]
      ensures Subsequence(bands, old(bands))
      ensures equals(band, band) ==> band !in bands
    {
      bands := Filter(bands, NotEqualTo(equals, band));
    }

    method Clear()
      modifies this`bands
      ensures bands == []
    {
      bands := [];
    }

    method RemoveLast()
      modifies this`bands
      ensures old(bands) == [] ==> bands == []
      ensures old(bands) != [] ==> bands + [old(bands)[|old(bands)| - 1]] == old(bands)
    {
      if |bands| > 0 {
        bands := bands[..|bands| - 1];
      }
    }

    function Get(index: int): (r: Result<Band, Error>)
      reads this
      ensures r.Success? <==> 0 <= index < |bands|
      ensures r.Success? ==> r.value == bands[index]
      ensures r.Failure? ==> r.error == IndexOutOfRange
    {
      if 0 <= index < |bands| then Success(bands[index]) else Failure(IndexOutOfRange)
    }

    method Set(index: int, band: Band) returns (outcome: Outcome<Error>)
      modifies this`bands
      ensures outcome.Pass? <==> 0 <= index < |old(bands)|
      ensures outcome.Pass? ==> |bands| == |old(bands)| && Get(index) == Success(band)
      ensures outcome.Pass? ==> forall k :: 0 <= k < |bands| && k != index ==> bands[k] == old(bands)[k]
      ensures outcome.Fail? ==> outcome.error == IndexOutOfRange && bands == old(bands)
    {
      if 0 <= index < |bands| {
        bands := bands[index := band];
        outcome := Pass;
      } else {
        outcome := Fail(IndexOutOfRange);
      }
    }

    /** The first band with the given id. */
    function GetById(id: int): (r: Result<Band, Error>)
      reads this
      ensures r.Success? <==> exists k :: 0 <= k < |bands| && bands[k].id == id
      ensures r.Success? ==> exists k :: 0 <= k < |bands| && bands[k] == r.value && r.value.id == id &&
                                      forall j :: 0 <= j < k ==> bands[j].id != id
      ensures r.Failure? ==> r.error == NoSuchId
    {
      match FirstIndexOfId(bands, id)
      case Some(k) => Success(bands[k])
      case None => Failure(NoSuchId)
    }

    /** Puts `band` in place of every band with the given id. */
    method Replace(id: int, band: Band)
      modifies this`bands
      ensures |bands| == |old(bands)|
      ensures forall k :: 0 <= k < |bands| && old(bands)[k].id == id ==> bands[k] == band
      ensures forall k :: 0 <= k < |bands| && old(bands)[k].id != id ==> bands[k] == old(bands)[k]
      ensures (forall b :: b in old(bands) ==> b.id != id) ==> bands == old(bands)
      ensures band.id == id && !HasRepeatingId(old(bands)) ==> !HasRepeatingId(bands)
    {
      bands := ReplaceId(bands, id, band);
    }

    method RemoveById(id: int)
      modifies this`bands
      ensures forall b :: b in bands ==> b.id != id
      ensures forall b: Band :: b.id != id ==> multiset(bands)[b] == multiset(old(bands))[b]
      ensures Subsequence(bands, old(bands))
      ensures (forall b :: b in old(bands) ==> b.id != id) ==> bands == old(bands)
      ensures !HasRepeatingId(old(bands)) ==> !HasRepeatingId(bands)
    {
      FilterKeepsAll(bands, IdOtherThan(id));
      var kept := Filter(bands, IdOtherThan(id));
      if !HasRepeatingId(bands) {
        SubsequenceKeepsIdsUnique(kept, bands);
      }
      bands := kept;
    }

    method InsertAtIndex(index: int, band: Band) returns (outcome: Outcome<Error>)
      modifies this`bands
      ensures outcome.Pass? <==> 0 <= index <= |old(bands)|
      ensures outcome.Pass? ==> bands == old(bands)[..index] + [band] + old(bands)[index..]
      ensures outcome.Pass? ==> Get(index) == Success(band)
      ensures outcome.Fail? ==> outcome.error == IndexOutOfRange && bands == old(bands)
    {
      if 0 <= index <= |bands| {
        bands := bands[..index] + [band] + bands[index..];
        outcome := Pass;
      } else {
        outcome := Fail(IndexOutOfRange);
      }
    }

    /**
     * The number of bands whose genre comes BEFORE `genre` (the comparison is
     * `< 0`, whatever the name says); a band without a genre makes the
     * comparison fail.
     */
    function CountGreaterThanGenre(genre: Genre): (r: Result<nat, Error>)
      reads this
      ensures r.Failure? <==> exists k :: 0 <= k < |bands| && bands[k].genre.None?
      ensures r.Failure? ==> r.error == NullGenre
      ensures r.Success? ==> r.value == |set k: nat | k < |bands| && bands[k].genre.value.ordinal < genre.ordinal|
    {
      if exists k :: 0 <= k < |bands| && bands[k].genre.None? then Failure(NullGenre)
      else
        var below := (b: Band) => GenreBelow(genre, b);
        FilterCountsIndices(bands, below);
        assert IndicesWhere(bands, below)
            == set k: nat | k < |bands| && bands[k].genre.value.ordinal < genre.ordinal;
        Success(|Filter(bands, below)|)
    }

    /** The bands with a singles count below `n`, in list order; the list itself is unchanged. */
    function FilterLessThanSinglesCount(n: int): (r: seq<Band>)
      reads this
      ensures forall b :: b in r ==> b.singlesCount.Some? && b.singlesCount.value < n
      ensures forall b :: SinglesBelow(n, b) ==> multiset(r)[b] == multiset(bands)[b]
      ensures Subsequence(r, bands)
    {
      Filter(bands, b => SinglesBelow(n, b))
    }

    /** A copy of the list sorted by genre, bands without a genre first, ties in list order. */
    function SortByGenre(): (r: seq<Band>)
      reads this
      ensures multiset(r) == multiset(bands)
      ensures SortedBy(r, GenreLe)
      ensures forall z :: Filter(r, SameKey(GenreLe, z)) == Filter(bands, SameKey(GenreLe, z))
    {
      GenreLeIsTotalPreorder();
      SortByProperties(bands, GenreLe);
      SortBy(bands, GenreLe)
    }

    function GetMaxId(): (r: int)
      reads this
    {
      maxId
    }

    /** Moves the allocator past every id in the list, or to 1 when the list is empty. */
    method IncreaseMaxId()
      modifies this`maxId
      ensures bands == [] ==> maxId == 1
      ensures bands != [] ==> maxId == Max(old(maxId), MaxIdAmongFirst(bands, |bands|) + 1)
      ensures forall b :: b in bands ==> b.id < maxId
    {
      if |bands| > 0 {
        ghost var start := maxId;
        for k := 0 to |bands|
          invariant maxId == if k == 0 then start else Max(start, MaxIdAmongFirst(bands, k) + 1)
          invariant forall j :: 0 <= j < k ==> bands[j].id < maxId
        {
          if bands[k].id >= maxId {
            maxId := bands[k].id + 1;
          }
        }
      } else {
        maxId := 1;
      }
    }

    method ContainsRepeatingId() returns (isRepeating: bool)
      ensures isRepeating <==> HasRepeatingId(bands)
    {
      isRepeating := false;
      var ids: set<int> := {};
      var k := 0;
      while k < |bands|
        invariant 0 <= k <= |bands|
        invariant ids == set j | 0 <= j < k :: bands[j].id
        invariant forall i, j :: 0 <= i < j < k ==> bands[i].id != bands[j].id
      {
        if bands[k].id in ids {
          var j :| 0 <= j < k && bands[j].id == bands[k].id;
          isRepeating := true;
          break;
        }
        ids := ids + {bands[k].id};
        k := k + 1;
      }
    }
  }
}
