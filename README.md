# Band collection manager and request fabric — a Dafny model

This project models the two pieces of the band-collection client/server
application that carry real invariants:

- the server's in-memory collection manager `ArrayListManager`: an ordered
  list of music bands, the date the collection was initialised and an id
  allocator `maxId`, with positional access (`get`, `set`, `insertAtIndex`),
  id-addressed access (`getById`, `replace`, `removeById`), list rebuilds
  (`sort`, `remove`, `removeLast`, `clear`, `add`), queries
  (`countGreaterThanGenre`, `filterLessThanSinglesCount`, `sortByGenre`,
  `info`) and the integrity helpers `increaseMaxId` and `containsRepeatingId`;
- the client's `RequestFabric.createRequest`, which attaches a band payload
  read from the console exactly when the command is one of the configured
  "extended" commands.

Files:

- `bands.dfy` (module `Bands`): the band record, its value parts, genres
  (compared by declaration position, as Java enums are) and the
  `Option`/`Result`/`Outcome` wrappers that model `null` and exceptions.
- `sequences.dfy` (module `Sequences`): the meaning of the stream pipelines
  the manager uses — an order-preserving `Filter`, a stable insertion sort
  `SortBy` — with their lemmas: subsequence, multiplicities, counting,
  sortedness, permutation, stability, idempotence.
- `collection_manager.dfy` (module `CollectionManager`): the class
  `ArrayListManager` with fields `bands: seq<Band>`, `initializationDate`
  and `maxId`. Methods that change the list or the allocator have
  `modifies` frames naming the one field they touch, and `ensures` that tie
  the new state to the old. Queries are `reads this` functions. Lemmas about
  id uniqueness sit beside them.
- `request_fabric.dfy` (module `RequestFabric`): requests and their
  construction as pure functions.

Modelling decisions:

- `MusicBand.compareTo` and `equals` are not part of this model. `Sort`
  takes `le(a, b)`, meaning `a.compareTo(b) <= 0`, and requires it to be a
  total preorder, which is the `Comparable` contract. `Remove` takes the
  equality as a parameter.
- Java exceptions (`IndexOutOfBoundsException`, `NoSuchIdException`, the
  `NullPointerException` of `countGreaterThanGenre`) become `Failure` or
  `Fail` values. An operation that fails leaves the list unchanged.
- The console `FieldsReader` is replaced by its answers, a `BandFields` value
  passed to `CreateRequest`. The user identity is an opaque type parameter.
- `increaseMaxId` returns nothing. On a non-empty list it sets `maxId` to
  `max(old maxId, largest id + 1)`, so a larger old value is kept; on an
  empty list it sets 1, even if the old value was larger.
- `sort` orders by `compareTo`, whatever that is; `remove` uses `equals`.
- The list never holds a null element: `seq<Band>` has no null, so the
  `Objects::nonNull` filter of `sortByGenre` is the identity here, and the
  `NullPointerException` a null element would raise in `getById`,
  `countGreaterThanGenre`, `remove` and the other stream operations is not
  modelled.
- Server-side command handling, which calls these operations, is not part
  of this model.

## Model

| member | source | states |
|---|---|---|
| `CollectionManager.ArrayListManager.constructor` | server/src/main/java/collectionmanager/ArrayListManager.java:23-26 | the manager holds the given list and date; the allocator starts at 0 |
| `CollectionManager.ArrayListManager.Info` | server/src/main/java/collectionmanager/ArrayListManager.java:31-37 | the summary reports the number of elements and the initialisation date |
| `CollectionManager.ArrayListManager.Add` | server/src/main/java/collectionmanager/ArrayListManager.java:49-51 | the new list is the old list plus the band at the tail; the band is at position old size |
| `CollectionManager.ArrayListManager.Sort` | server/src/main/java/collectionmanager/ArrayListManager.java:56-60 | the new list is a permutation of the old one and is sorted by the comparator. Bands the comparator cannot tell apart keep their relative order. An already sorted list is left as it is, so sorting twice equals sorting once |
| `CollectionManager.ArrayListManager.Remove` | server/src/main/java/collectionmanager/ArrayListManager.java:66-70 | removes every band equal to the argument, not only the first. The rest keep their order and multiplicity. The argument no longer occurs when equality is reflexive |
| `CollectionManager.ArrayListManager.Clear` | server/src/main/java/collectionmanager/ArrayListManager.java:75-77 | the list is empty afterwards |
| `CollectionManager.ArrayListManager.RemoveLast` | server/src/main/java/collectionmanager/ArrayListManager.java:82-88 | an empty list stays empty without failure; otherwise the new list plus the old last element is the old list |
| `CollectionManager.ArrayListManager.Get` | server/src/main/java/collectionmanager/ArrayListManager.java:105-107 | returns the band at the index, and fails with an index error exactly when the index is outside the list |
| `CollectionManager.ArrayListManager.Set` | server/src/main/java/collectionmanager/ArrayListManager.java:113-115 | succeeds exactly for an index inside the list. On success the length is kept, the index holds the band and every other position is unchanged. On failure the list is unchanged |
| `CollectionManager.ArrayListManager.GetById` | server/src/main/java/collectionmanager/ArrayListManager.java:122-132 | succeeds exactly when some band has the id, returning the first such band; otherwise fails with "no such id" |
| `CollectionManager.ArrayListManager.Replace` | server/src/main/java/collectionmanager/ArrayListManager.java:138-147 | the length is kept. Every position whose band had the id now holds the new band and all others are unchanged. An absent id is a no-op. Replacing with a band of the same id keeps the ids unique |
| `CollectionManager.ArrayListManager.RemoveById` | server/src/main/java/collectionmanager/ArrayListManager.java:152-156 | keeps, in order and with multiplicity, exactly the bands with another id. Afterwards no band has the id. An absent id is a no-op, and unique ids stay unique |
| `CollectionManager.ArrayListManager.InsertAtIndex` | server/src/main/java/collectionmanager/ArrayListManager.java:162-164 | succeeds exactly for 0 <= index <= size. On success the list is old[..index] + [band] + old[index..]. On failure the list is unchanged |
| `CollectionManager.ArrayListManager.CountGreaterThanGenre` | server/src/main/java/collectionmanager/ArrayListManager.java:170-176 | fails exactly when some band has no genre. Otherwise it returns the number of positions whose genre comes strictly before the argument, which is the `< 0` comparison the code makes, despite the name |
| `CollectionManager.ArrayListManager.FilterLessThanSinglesCount` | server/src/main/java/collectionmanager/ArrayListManager.java:182-188 | returns the order-preserving subsequence of bands whose singles count is present and below the argument, each with its original multiplicity; the list itself is untouched |
| `CollectionManager.ArrayListManager.SortByGenre` | server/src/main/java/collectionmanager/ArrayListManager.java:193-208 | returns a permutation of the (null-free) list sorted by genre with absent genres first; equal genres keep list order; the stored list is untouched |
| `CollectionManager.ArrayListManager.IncreaseMaxId` | server/src/main/java/collectionmanager/ArrayListManager.java:220-229 | on an empty list `maxId` becomes 1. Otherwise it becomes max(old maxId, largest id + 1), which exceeds every id in the list. The list is not changed |
| `CollectionManager.ArrayListManager.ContainsRepeatingId` | server/src/main/java/collectionmanager/ArrayListManager.java:242-254 | returns true exactly when two distinct positions hold the same id |
| `CollectionManager.MaxIdAmongFirst` | server/src/main/java/collectionmanager/ArrayListManager.java:222-226 | the value the allocator loop tracks is at least every id scanned so far |
| `CollectionManager.MaxIdIsAttained` | server/src/main/java/collectionmanager/ArrayListManager.java:222-226 | the largest id the loop finds belongs to a scanned band |
| `CollectionManager.FirstIndexOfId` | server/src/main/java/collectionmanager/ArrayListManager.java:124 | `findFirst` on the id filter: a position holding the id with no earlier one, or none exactly when no band has the id |
| `CollectionManager.ReplaceId` | server/src/main/java/collectionmanager/ArrayListManager.java:139-146 | the `map` step: same length, the band at every position with the id, every other position unchanged |
| `CollectionManager.GenreLeIsTotalPreorder` | server/src/main/java/collectionmanager/ArrayListManager.java:197-205 | the genre order with absent genres first is total and transitive |
| `CollectionManager.GenreComparatorAsWritten` | server/src/main/java/collectionmanager/ArrayListManager.java:197-205 | the comparator as written: negative whenever the first band has no genre, positive when only the second lacks one, and the enum comparison otherwise |
| `CollectionManager.GenreComparatorAsWrittenIsNotAntisymmetric` | server/src/main/java/collectionmanager/ArrayListManager.java:198-200 | the comparator as written puts each of two genre-less bands before the other |
| `CollectionManager.GenreLeAgreesWithComparator` | server/src/main/java/collectionmanager/ArrayListManager.java:197-205 | when at least one genre is present, the corrected order agrees with the written comparator |
| `CollectionManager.SubsequenceKeepsIdsUnique` | server/src/main/java/collectionmanager/ArrayListManager.java:152-156 | removing elements from a list with unique ids keeps the ids unique |
| `CollectionManager.AppendFreshIdKeepsIdsUnique` | server/src/main/java/collectionmanager/ArrayListManager.java:49-51 | appending a band whose id exceeds every id present, as `maxId` does after `increaseMaxId`, keeps the ids unique |
| `Bands.CompareGenres` | server/src/main/java/collectionmanager/ArrayListManager.java:173 | enum comparison is negative exactly when the first genre is declared earlier, and zero exactly for the same genre |
| `Sequences.Filter` | server/src/main/java/collectionmanager/ArrayListManager.java:67-69 | the filtered stream is a subsequence of the input. All its elements satisfy the predicate, and every element that satisfies it keeps its multiplicity |
| `Sequences.FilterAppend` | server/src/main/java/collectionmanager/ArrayListManager.java:153-155 | filtering distributes over concatenation |
| `Sequences.FilterKeepsAll` | server/src/main/java/collectionmanager/ArrayListManager.java:153-155 | a filter returns its input unchanged exactly when every element passes, which makes removal of an absent id a no-op |
| `Sequences.FilterCountsIndices` | server/src/main/java/collectionmanager/ArrayListManager.java:172-174 | the count of the filtered stream is the number of positions that satisfy the predicate |
| `Sequences.IndicesWhereSnoc` | server/src/main/java/collectionmanager/ArrayListManager.java:172-174 | appending an element adds one satisfying position exactly when the element satisfies the predicate |
| `Sequences.SubsequenceMembers` | server/src/main/java/collectionmanager/ArrayListManager.java:184-186 | every element of a subsequence occurs in the original |
| `Sequences.SubsequenceLength` | server/src/main/java/collectionmanager/ArrayListManager.java:184-186 | a subsequence is no longer than the original |
| `Sequences.Insert` | server/src/main/java/collectionmanager/ArrayListManager.java:57-59 | the insertion step adds exactly the one element to the multiset and to the members |
| `Sequences.SortBy` | server/src/main/java/collectionmanager/ArrayListManager.java:57-59 | sorting is a permutation of its input |
| `Sequences.InsertKeepsSorted` | server/src/main/java/collectionmanager/ArrayListManager.java:57-59 | inserting into a sorted list under a total preorder keeps it sorted |
| `Sequences.SortBySorts` | server/src/main/java/collectionmanager/ArrayListManager.java:57-59 | the sort's output is sorted under a total preorder |
| `Sequences.SortedIsFixpoint` | server/src/main/java/collectionmanager/ArrayListManager.java:57-59 | an already sorted list is returned unchanged |
| `Sequences.SortIdempotent` | server/src/main/java/collectionmanager/ArrayListManager.java:56-60 | sorting twice gives the same list as sorting once |
| `Sequences.InsertStable` | server/src/main/java/collectionmanager/ArrayListManager.java:57-59 | insertion places the new element before every element with an equal key and after none of them |
| `Sequences.SortByStable` | server/src/main/java/collectionmanager/ArrayListManager.java:57-59 | among elements with equal keys the sorted list keeps the input order |
| `Sequences.SortByProperties` | server/src/main/java/collectionmanager/ArrayListManager.java:195-206 | a stable sort is a sorted, stable permutation, and the identity on sorted input |
| `RequestFabric.CreateRequest` | client/src/main/java/client/RequestFabric.java:26-34 | the request has a band payload exactly when the command is an extended one. Command, argument and the fabric's user pass through unchanged. The payload has id 0, no creation date, and the reader's answers as its other fields |
| `RequestFabric.CreateExtendedRequest` | client/src/main/java/client/RequestFabric.java:36-44 | the payload is present, has id 0 and no creation date, and its name, coordinates, participants, singles, genre and label are the reader's answers |
| `RequestFabric.PlaceholderDeterminedByFields` | client/src/main/java/client/RequestFabric.java:43 | a payload band is determined by the reader's answers alone |
| `RequestFabric.PlainRequestIgnoresReader` | client/src/main/java/client/RequestFabric.java:30-31 | a request for a plain command does not depend on anything the reader could answer |

`GetMaxId` (lines 213-215) is a plain accessor returning `maxId` and carries no contract.

## Left out

- Concurrency: every manager method is `synchronized`. The model is a single-threaded class, so linearizability is not stated.
- `show`, and the text formatting of `info`: they depend on `toString` of the band and of the date, which are not part of this model. `Info` reports the element count and the date as values.
- `getArrayList`, `setArrayList` and `getInitializationDate`: they hand out or install the internal list or date. The aliasing they create is not modelled. The constructor likewise stores the caller's list by value, not by reference.
- `MusicBand.compareTo` and `equals` are parameters, not definitions. The genre constants are not part of this model either; a genre is its declaration position.
- `DatabaseInitializer.java`: table creation through JDBC. It is not part of this model.
- The console field reader: its prompting, validation and I/O are replaced by the answers it returns.
- `CollectionManager.ArrayListManager.IncreaseMaxId`: does not model 64-bit wrap-around of `id + 1` when an id equals `Long.MAX_VALUE`; ids are unbounded integers.
- `CollectionManager.ArrayListManager.CountGreaterThanGenre`: the argument genre is never null here. The source would also throw on a null argument over a non-empty list.
- `CollectionManager.ArrayListManager.FilterLessThanSinglesCount`: the argument is never null here. The source would throw on a null argument once a band with a singles count is reached.
- `CollectionManager.ArrayListManager.SortByGenre`: uses the consistent order "absent genre first, ties in list order" in place of the written comparator. The written comparator is inconsistent for two genre-less bands (see Findings), so the order Java produces among them is not modelled. The list is assumed to hold no null element, so the `Objects::nonNull` filter at line 196 is not modelled.
- `CollectionManager.ArrayListManager.Sort`: Java's sort may throw on a comparator that breaks its contract. The model requires a total preorder, so that failure is not modelled.

## Findings

| source | as written | input that shows it | evidently intended | confidence | as-written member | corrected member |
|---|---|---|---|---|---|---|
| server/src/main/java/collectionmanager/ArrayListManager.java:198-200 | the `sortByGenre` comparator returns -1 whenever the first band has no genre, so for two genre-less bands `compare(a, b)` and `compare(b, a)` are both negative, breaking the comparator contract | two bands whose genre is null | absent genres are equal to each other and before every present genre, with ties kept in list order | not executed | `CollectionManager.GenreComparatorAsWrittenIsNotAntisymmetric` | `CollectionManager.GenreLeIsTotalPreorder` |
