/** The ordering of the notes list (GetAllNotesUseCase.invoke). */
module NoteOrder {
  import opened Common
  import opened Sorting
  import opened NoteData

  datatype OrderType = Asc | Desc

  /**
   * The order kinds the preference can hold. Notes are sorted by title, by
   * creation date or by modification date; `Priority` stands for every other
   * kind, which notes do not have and which falls back to the modification date.
   */
  datatype Order =
    | Alphabetical(orderType: OrderType)
    | DateCreated(orderType: OrderType)
    | DateModified(orderType: OrderType)
    | Priority(orderType: OrderType)

  /** Titles compare as Kotlin strings do, by UTF-16 code unit. */
  function ByTitle(n: Note): Key { StrKey(Utf16(n.title)) }
  function ByCreated(n: Note): Key { IntKey(n.createdDate) }
  function ByUpdated(n: Note): Key { IntKey(n.updatedDate) }

  /** The key that `order` sorts by. */
  function NoteKey(order: Order): Note -> Key
  {
    match order
    case Alphabetical(_) => ByTitle
    case DateCreated(_) => ByCreated
    case DateModified(_) => ByUpdated
    case Priority(_) => ByUpdated
  }

  /**
   * The list the use case emits for `notes` under `order`: sorted by the
   * order's key, then reversed when descending.
   */
  function SortNotes(notes: seq<Note>, order: Order): (r: seq<Note>)
    ensures |r| == |notes|
    ensures multiset(r) == multiset(notes)
  {
    var sorted := SortBy(notes, NoteKey(order));
    SortByPermutation(notes, NoteKey(order));
    ReverseLength(sorted);
    ReversePermutation(sorted);
    match order.orderType
    case Asc => sorted
    case Desc => Reverse(sorted)
  }

  /**
   * Ascending orders are nondecreasing by their key and stable; a kind
   * without a note key sorts by modification date.
   */
  lemma SortNotesAscending(notes: seq<Note>, order: Order, k: Key)
    requires order.orderType == Asc
    ensures SortedBy(SortNotes(notes, order), NoteKey(order))
    ensures WithKey(SortNotes(notes, order), NoteKey(order), k) == WithKey(notes, NoteKey(order), k)
    ensures order.Priority? ==> SortNotes(notes, order) == SortNotes(notes, DateModified(Asc))
  {
    SortBySorted(notes, NoteKey(order));
    SortByStable(notes, NoteKey(order), k);
  }

  /**
   * Descending orders are nonincreasing by their key and list notes with
   * equal keys in the reverse of their input order.
   */
  lemma SortNotesDescending(notes: seq<Note>, order: Order, k: Key)
    requires order.orderType == Desc
    ensures SortedDescBy(SortNotes(notes, order), NoteKey(order))
    ensures WithKey(SortNotes(notes, order), NoteKey(order), k) == Reverse(WithKey(notes, NoteKey(order), k))
    ensures order.Priority? ==> SortNotes(notes, order) == SortNotes(notes, DateModified(Desc))
  {
    var key := NoteKey(order);
    SortBySorted(notes, key);
    ReverseSorted(SortBy(notes, key), key);
    ReverseWithKey(SortBy(notes, key), key, k);
    SortByStable(notes, key, k);
  }

  /** A descending list is the ascending list of the same kind read backwards. */
  lemma {:induction false} SortNotesDescIsReversedAsc(notes: seq<Note>, order: Order, i: int)
    requires 0 <= i < |notes|
    ensures SortNotes(notes, order.(orderType := Desc))[i] ==
            SortNotes(notes, order.(orderType := Asc))[|notes| - 1 - i]
  {
    var asc := SortNotes(notes, order.(orderType := Asc));
    SortNotesDirection(notes, order);
    ReverseAt(asc, i);
  }

  /** Both directions sort by the same key; only descending reverses. */
  lemma SortNotesDirection(notes: seq<Note>, order: Order)
    ensures SortNotes(notes, order.(orderType := Desc)) == Reverse(SortNotes(notes, order.(orderType := Asc)))
  {
    match order
    case Alphabetical(_) =>
    case DateCreated(_) =>
    case DateModified(_) =>
    case Priority(_) =>
  }

  /**
   * Titles are ordered by code unit, not by character: U+1F600 is stored as
   * the surrogates D83D DE00, so it sorts before U+FF41.
   */
  lemma TitlesOrderByCodeUnit(a: Note, b: Note)
    requires a.title == "\U{1F600}" && b.title == "\U{FF41}"
    ensures KeyLeq(ByTitle(a), ByTitle(b)) && !KeyLeq(ByTitle(b), ByTitle(a))
  {
    assert Utf16(a.title) == [0xD83D, 0xDE00];
    assert Utf16(b.title) == [0xFF41];
  }
}
