/**
 * The note editor's view model (NoteDetailsViewModel): the note on show,
 * the edited title and content, the AI panel's state, and what saving
 * writes to the repository.
 *
 * Repository answers (the stored note, the id `addNote` returns), the AI's
 * reply and the clock are inputs of the methods that need them; work the
 * view model starts is returned as an effect.
 */
module NoteDetails {
  import opened Common
  import opened NoteData
  import opened AiDispatch

  /** The id the screen passes for a note that does not exist yet. */
  const NEW_NOTE_ID := -1
  const INVALID_KEY_ERROR := "Invalid API key"
  const NO_INTERNET_ERROR := "No internet connection"
  const UNKNOWN_ERROR := "Unknown error"

  datatype UiState = UiState(note: Option<Note>, navigateUp: bool, readingMode: bool)

  datatype AiState = AiState(loading: bool, result: Option<string>, error: Option<string>, showAiSheet: bool)

  /** What a save writes: nothing, a new note, or a changed existing one. */
  datatype Write = NoWrite | AddNote(added: Note) | UpdateNote(updated: Note)

  /**
   * The outcome of `saveNote`: the write, the note the screen then shows,
   * the title it then shows, and whether the AI was asked for a title.
   */
  datatype SaveOutcome = SaveOutcome(write: Write, note: Option<Note>, title: string, askedAi: bool)

  datatype AiActionKind = AutoGenerateTitle | OtherAiAction

  /** The prompt an AI action sends: the title prompt built from the content, or "". */
  datatype AiPrompt = TitlePromptFor(content: string) | EmptyPrompt

  datatype Effect = ScheduleAutoSave | DeleteFromRepository(note: Note)

  /**
   * `saveNote`. `reply` is the AI's answer to the title prompt, read only
   * when the AI is asked; `addedId` is the row id `addNote` returns.
   */
  function Save(state: UiState, title: string, content: string,
                reply: NetworkResult<string>, now: int, addedId: int): (o: SaveOutcome)
    ensures state.navigateUp ==> o == SaveOutcome(NoWrite, state.note, title, false)
    ensures !state.navigateUp && state.note.None? && IsBlank(title) && IsBlank(content) ==>
      o == SaveOutcome(NoWrite, None, title, false)
    ensures !state.navigateUp && state.note.None? && !(IsBlank(title) && IsBlank(content)) ==>
      o.write.AddNote? &&
      (o.askedAi <==> IsBlank(title)) &&
      o.title == (if o.askedAi && reply.Success? then reply.data else title) &&
      o.write.added == Note(o.title, content, now, now, 0) &&
      o.note == Some(o.write.added.(id := ToInt32(addedId)))
    ensures !state.navigateUp && state.note.Some? ==>
      !o.askedAi && o.title == title &&
      (o.write.UpdateNote? <==> state.note.value.title != title || state.note.value.content != content) &&
      (o.write.UpdateNote? ==>
         o.write.updated.id == state.note.value.id &&
         o.write.updated.createdDate == state.note.value.createdDate &&
         o.write.updated.updatedDate == now &&
         o.write.updated.title == title && o.write.updated.content == content &&
         o.note == Some(o.write.updated)) &&
      (o.write.NoWrite? ==> o.note == state.note)
  {
    if state.navigateUp then SaveOutcome(NoWrite, state.note, title, false)
    else if state.note.None? then
      if !IsBlank(title) || !IsBlank(content) then
        var askAi := IsBlank(title) && !IsBlank(content);
        var finalTitle := if askAi && reply.Success? then reply.data else title;
        var note := Note(finalTitle, content, now, now, 0);
        SaveOutcome(AddNote(note), Some(note.(id := ToInt32(addedId))), finalTitle, askAi)
      else SaveOutcome(NoWrite, None, title, false)
    else
      var current := state.note.value;
      if current.title != title || current.content != content then
        var newNote := current.(title := title, content := content, updatedDate := now);
        SaveOutcome(UpdateNote(newNote), Some(newNote), title, false)
      else SaveOutcome(NoWrite, state.note, title, false)
  }

  /** The error the AI panel shows for a result: none on success. */
  function AiError(r: NetworkResult<string>): (e: Option<string>)
    ensures e.None? <==> r.Success?
    ensures r.InvalidKey? ==> e == Some(INVALID_KEY_ERROR)
    ensures r.InternetError? ==> e == Some(NO_INTERNET_ERROR)
    ensures r.OtherError? ==> e == Some(if r.message.Some? then r.message.value else UNKNOWN_ERROR)
  {
    match r
    case Success(_) => None
    case InvalidKey => Some(INVALID_KEY_ERROR)
    case InternetError => Some(NO_INTERNET_ERROR)
    case OtherError(message) => Some(match message case Some(m) => m case None => UNKNOWN_ERROR)
  }

  /**
   * Whether the AI features are on for a stored provider id, as the view
   * model computes it: `find { it.id == providerId } != AiProvider.None`
   * compares the nullable lookup with `None`, so an unknown id counts as on.
   */
  function AiEnabledAsWritten(providerId: int): (b: bool)
    ensures b <==> providerId != ProviderId(NoProvider)
  {
    FindProvider(providerId) != Some(NoProvider)
  }

  /** Whether the AI features are on: the provider the prompts go to is not `None`. */
  function AiEnabled(providerId: int): (b: bool)
    ensures b <==> exists p: AiProvider :: p != NoProvider && ProviderId(p) == providerId
  {
    ResolveProvider(providerId) != NoProvider
  }

  class NoteDetailsViewModel {
    var noteUiState: UiState
    var title: string
    var content: string
    var aiState: AiState
    var aiEnabled: bool

    /**
     * `init`: `stored` is what `getNote(id)` returns; a new note (id -1)
     * is not looked up. The provider collector has not reported yet.
     */
    constructor(id: int, stored: Option<Note>)
      ensures var note := if id != NEW_NOTE_ID then stored else None;
        noteUiState == UiState(note, false, note.Some?) &&
        (note.Some? ==> title == note.value.title && content == note.value.content) &&
        (note.None? ==> title == "" && content == "")
      ensures aiState == AiState(false, None, None, false) && !aiEnabled
    {
      var note := if id != NEW_NOTE_ID then stored else None;
      title := "";
      content := "";
      aiState := AiState(false, None, None, false);
      aiEnabled := false;
      noteUiState := UiState(None, false, false);
      new;
      if note.Some? {
        title := note.value.title;
        content := note.value.content;
      }
      noteUiState := noteUiState.(note := note, readingMode := note.Some?);
    }

    /** The provider preference changed to `providerId`. */
    method OnAiProviderChanged(providerId: int)
      modifies this
      ensures aiEnabled == AiEnabled(providerId)
      ensures noteUiState == old(noteUiState) && title == old(title) && content == old(content)
      ensures aiState == old(aiState)
    {
      aiEnabled := AiEnabled(providerId);
    }

    method ToggleReadingMode()
      modifies this
      ensures noteUiState == old(noteUiState).(readingMode := !old(noteUiState.readingMode))
      ensures title == old(title) && content == old(content) && aiState == old(aiState) && aiEnabled == old(aiEnabled)
    {
      noteUiState := noteUiState.(readingMode := !noteUiState.readingMode);
    }

    /** `UpdateTitle`: the title changes and an autosave is scheduled. */
    method UpdateTitle(newTitle: string) returns (effect: Effect)
      modifies this
      ensures title == newTitle && effect == ScheduleAutoSave
      ensures noteUiState == old(noteUiState) && content == old(content) && aiState == old(aiState) && aiEnabled == old(aiEnabled)
    {
      title := newTitle;
      effect := ScheduleAutoSave;
    }

    /** `UpdateContent`: the content changes and an autosave is scheduled. */
    method UpdateContent(newContent: string) returns (effect: Effect)
      modifies this
      ensures content == newContent && effect == ScheduleAutoSave
      ensures noteUiState == old(noteUiState) && title == old(title) && aiState == old(aiState) && aiEnabled == old(aiEnabled)
    {
      content := newContent;
      effect := ScheduleAutoSave;
    }

    /** `DeleteNote`: the note is deleted and the screen is left. */
    method DeleteNote(note: Note) returns (effect: Effect)
      modifies this
      ensures effect == DeleteFromRepository(note)
      ensures noteUiState == old(noteUiState).(navigateUp := true)
      ensures title == old(title) && content == old(content) && aiState == old(aiState) && aiEnabled == old(aiEnabled)
    {
      effect := DeleteFromRepository(note);
      noteUiState := noteUiState.(navigateUp := true);
    }

    /** `saveNote`; see `Save` for the inputs. */
    method SaveNote(reply: NetworkResult<string>, now: int, addedId: int) returns (write: Write, askedAi: bool)
      modifies this
      ensures var o := Save(old(noteUiState), old(title), old(content), reply, now, addedId);
        write == o.write && askedAi == o.askedAi &&
        noteUiState == old(noteUiState).(note := o.note) && title == o.title
      ensures content == old(content) && aiState == old(aiState) && aiEnabled == old(aiEnabled)
    {
      write, askedAi := NoWrite, false;
      if noteUiState.navigateUp { return; }
      if noteUiState.note.None? {
        if !IsBlank(title) || !IsBlank(content) {
          var finalTitle := title;
          if IsBlank(finalTitle) && !IsBlank(content) {
            askedAi := true;
            if reply.Success? {
              finalTitle := reply.data;
              title := finalTitle;
            }
          }
          var note := Note(finalTitle, content, now, now, 0);
          write := AddNote(note);
          noteUiState := noteUiState.(note := Some(note.(id := ToInt32(addedId))));
        }
      } else {
        var currentNote := noteUiState.note.value;
        if currentNote.title != title || currentNote.content != content {
          var newNote := currentNote.(title := title, content := content, updatedDate := now);
          write := UpdateNote(newNote);
          noteUiState := noteUiState.(note := Some(newNote));
        }
      }
    }

    /** `ScreenOnStop`: save now unless the screen is being left. */
    method ScreenOnStop(reply: NetworkResult<string>, now: int, addedId: int) returns (write: Write)
      modifies this
      ensures var o := Save(old(noteUiState), old(title), old(content), reply, now, addedId);
        write == o.write && noteUiState == old(noteUiState).(note := o.note) && title == o.title
      ensures content == old(content) && aiState == old(aiState) && aiEnabled == old(aiEnabled)
    {
      write := NoWrite;
      if !noteUiState.navigateUp {
        var askedAi;
        write, askedAi := SaveNote(reply, now, addedId);
      }
    }

    /**
     * An AI action with the AI's `reply`. The panel opens and loads, then
     * shows the reply or its error; a generated title goes to the title.
     */
    method RunAiAction(kind: AiActionKind, actionContent: string, reply: NetworkResult<string>)
      returns (prompt: AiPrompt)
      modifies this
      ensures prompt == if kind == AutoGenerateTitle then TitlePromptFor(actionContent) else EmptyPrompt
      ensures !aiState.loading && aiState.showAiSheet
      ensures aiState.error == AiError(reply)
      ensures aiState.result == if reply.Success? && kind != AutoGenerateTitle then Some(reply.data) else None
      ensures title == if reply.Success? && kind == AutoGenerateTitle then reply.data else old(title)
      ensures noteUiState == old(noteUiState) && content == old(content) && aiEnabled == old(aiEnabled)
    {
      var isTitleGeneration := kind == AutoGenerateTitle;
      aiState := aiState.(loading := true, showAiSheet := true, error := None);
      prompt := if isTitleGeneration then TitlePromptFor(actionContent) else EmptyPrompt;
      match reply {
        case Success(data) =>
          if isTitleGeneration {
            title := data;
          }
          aiState := aiState.(loading := false, result := if isTitleGeneration then None else Some(data), error := None);
        case InvalidKey =>
          aiState := aiState.(loading := false, result := None, error := Some(INVALID_KEY_ERROR));
        case InternetError =>
          aiState := aiState.(loading := false, result := None, error := Some(NO_INTERNET_ERROR));
        case OtherError(message) =>
          aiState := aiState.(loading := false, result := None,
                              error := Some(if message.Some? then message.value else UNKNOWN_ERROR));
      }
    }

    /** `AiResultHandled`: the panel closes; its contents stay. */
    method AiResultHandled()
      modifies this
      ensures aiState == old(aiState).(showAiSheet := false)
      ensures noteUiState == old(noteUiState) && title == old(title) && content == old(content) && aiEnabled == old(aiEnabled)
    {
      aiState := aiState.(showAiSheet := false);
    }
  }

  // ---------------------------------------------------------------------
  // Properties
  // ---------------------------------------------------------------------

  /**
   * Saving is idempotent: once a save did its work, saving again with the
   * same content writes nothing, whatever the AI and the clock answer.
   */
  lemma SaveSettles(state: UiState, title: string, content: string,
                    reply: NetworkResult<string>, now: int, addedId: int,
                    reply2: NetworkResult<string>, now2: int, addedId2: int)
    ensures var o := Save(state, title, content, reply, now, addedId);
      Save(state.(note := o.note), o.title, content, reply2, now2, addedId2).write == NoWrite
  {
  }

  /** A new note's stored id is the 32-bit truncation of the row id. */
  lemma AddedNoteId(state: UiState, title: string, content: string,
                    reply: NetworkResult<string>, now: int, addedId: int)
    requires !state.navigateUp && state.note.None? && !IsBlank(content)
    ensures var o := Save(state, title, content, reply, now, addedId);
      o.note.Some? && -TWO_31 <= o.note.value.id < TWO_31 &&
      (-TWO_31 <= addedId < TWO_31 ==> o.note.value.id == addedId)
  {
  }

  /** An unknown provider id turns the AI features on although the prompts then go to `None`. */
  lemma AiEnabledAsWrittenDisagrees()
    ensures AiEnabledAsWritten(7)
    ensures ResolveProvider(7) == NoProvider
    ensures !AiEnabled(7)
  {
  }

  /** The AI features are on exactly when the preferences send prompts to a remote provider. */
  lemma AiEnabledMatchesDispatch(prefs: AiPreferences, prompt: string)
    requires prefs.providerId.Some?
    ensures AiEnabled(prefs.providerId.value) <==> Dispatch(prefs, prompt).client == OpenaiClient
  {
  }
}
