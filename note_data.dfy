/** The note record of the domain layer and its Room entity (NoteEntity.kt). */
module NoteData {

  /** A note as the domain and presentation layers see it; dates are epoch milliseconds. */
  datatype Note = Note(title: string, content: string, createdDate: int, updatedDate: int, id: int)

  /** A row of the `notes` table. */
  datatype NoteEntity = NoteEntity(title: string, content: string, createdDate: int, updatedDate: int, id: int)

  /** `NoteEntity()` with every default: nothing written and no id assigned yet. */
  function DefaultNoteEntity(): (e: NoteEntity)
    ensures e.title == "" && e.content == ""
    ensures e.createdDate == 0 && e.updatedDate == 0 && e.id == 0
  {
    NoteEntity("", "", 0, 0, 0)
  }

  /** `NoteEntity.toNote()`: every field is carried over, so nothing is lost. */
  function ToNote(e: NoteEntity): (n: Note)
    ensures ToNoteEntity(n) == e
  {
    Note(e.title, e.content, e.createdDate, e.updatedDate, e.id)
  }

  /** `Note.toNoteEntity()`: every field is carried over, so nothing is lost. */
  function ToNoteEntity(n: Note): (e: NoteEntity)
    ensures e.title == n.title && e.content == n.content
    ensures e.createdDate == n.createdDate && e.updatedDate == n.updatedDate && e.id == n.id
  {
    NoteEntity(n.title, n.content, n.createdDate, n.updatedDate, n.id)
  }

  /** Mapping a note to its entity and back gives the same note. */
  lemma NoteRoundTrip(n: Note)
    ensures ToNote(ToNoteEntity(n)) == n
  {
  }

  /** `withoutIds()`: the same rows with the ids reset, so that a restore inserts new rows. */
  function WithoutIds(es: seq<NoteEntity>): (r: seq<NoteEntity>)
    ensures |r| == |es|
    ensures forall i :: 0 <= i < |r| ==> r[i].id == 0
    ensures forall i :: 0 <= i < |r| ==>
      r[i].title == es[i].title && r[i].content == es[i].content &&
      r[i].createdDate == es[i].createdDate && r[i].updatedDate == es[i].updatedDate
  {
    seq(|es|, i requires 0 <= i < |es| => es[i].(id := 0))
  }

  /** Resetting the ids twice is the same as resetting them once. */
  lemma WithoutIdsIdempotent(es: seq<NoteEntity>)
    ensures WithoutIds(WithoutIds(es)) == WithoutIds(es)
  {
    var once := WithoutIds(es);
    var twice := WithoutIds(once);
    assert forall i :: 0 <= i < |once| ==> twice[i] == once[i];
  }

  /** A list whose ids are already 0 is left as it is. */
  lemma WithoutIdsFixed(es: seq<NoteEntity>)
    requires forall i :: 0 <= i < |es| ==> es[i].id == 0
    ensures WithoutIds(es) == es
  {
    assert forall i :: 0 <= i < |es| ==> WithoutIds(es)[i] == es[i];
  }
}
