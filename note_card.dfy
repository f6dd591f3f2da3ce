/**
 * The content preview of a note card in the notes list (NoteCard). Kotlin's
 * `take` and `length` count UTF-16 code units, so the preview is a sequence
 * of code units; a cut can fall between the two halves of a surrogate pair.
 */
module NoteCard {
  import opened Common

  const PREVIEW_LENGTH: nat := 200

  /** "..." as code units. */
  const ELLIPSIS: seq<CodeUnit> := ['.' as int, '.' as int, '.' as int]

  /** `content.take(200) + if (content.length > 200) "..." else ""`. */
  function Preview(content: string): (r: seq<CodeUnit>)
    ensures |r| <= PREVIEW_LENGTH + 3
    ensures var u := Utf16(content);
            var n := if |u| < PREVIEW_LENGTH then |u| else PREVIEW_LENGTH;
            n <= |r| && r[..n] == u[..n]
    ensures |Utf16(content)| <= PREVIEW_LENGTH ==> r == Utf16(content)
    ensures |Utf16(content)| > PREVIEW_LENGTH ==> |r| == PREVIEW_LENGTH + 3 && r[PREVIEW_LENGTH..] == ELLIPSIS
  {
    var u := Utf16(content);
    (if |u| <= PREVIEW_LENGTH then u else u[..PREVIEW_LENGTH]) +
    (if |u| > PREVIEW_LENGTH then ELLIPSIS else [])
  }

  /**
   * Characters outside the Basic Multilingual Plane count twice: content of
   * more than 100 of them is cut, and ends in "...".
   */
  lemma WideContentIsCut(content: string)
    requires |content| > PREVIEW_LENGTH / 2
    requires forall i :: 0 <= i < |content| ==> (content[i] as int) >= 0x1_0000
    ensures |Preview(content)| == PREVIEW_LENGTH + 3
    ensures Preview(content)[PREVIEW_LENGTH..] == ELLIPSIS
  {
    Utf16Wide(content);
  }

  /** Content inside the Basic Multilingual Plane is cut after its 200th character. */
  lemma NarrowContentIsCutByCharacter(content: string)
    requires forall i :: 0 <= i < |content| ==> (content[i] as int) < 0x1_0000
    ensures |content| <= PREVIEW_LENGTH ==> |Preview(content)| == |content|
    ensures |content| > PREVIEW_LENGTH ==>
      forall i :: 0 <= i < PREVIEW_LENGTH ==> Preview(content)[i] == content[i] as int
  {
    Utf16Narrow(content);
  }
}
