/** Views/EmotionSelectorView.swift: choosing the emotion and the optional
    note that are recorded when a task is completed. */
module EmotionSelectorView {
  import opened Common
  import opened EmotionRecords

  /** What "保存" hands to `onComplete`: the emotion and the note, if any. */
  datatype CompletionChoice = CompletionChoice(emotion: EmotionType, note: Option<string>)

  /** `note.isEmpty ? nil : note`. */
  function NoteToSave(note: string): (r: Option<string>)
    ensures r.None? <==> note == ""
    ensures r.Some? ==> r.value == note && r.value != ""
  {
    if note == "" then None else Some(note)
  }

  /** The text field a stored note would fill. */
  function NoteText(note: Option<string>): string {
    if note.Some? then note.value else ""
  }

  /** Normalising a typed note loses nothing, and normalising is idempotent
      on notes that are never the empty string. */
  lemma NoteRoundTrip(typed: string, stored: Option<string>)
    ensures NoteText(NoteToSave(typed)) == typed
    ensures (stored.Some? ==> stored.value != "") ==> NoteToSave(NoteText(stored)) == stored
  {
  }

  /** The selector's state. */
  class EmotionSelector {
    var selectedEmotion: EmotionType
    var note: string

    /** The sheet opens with "满足" selected and no note. */
    constructor ()
      ensures selectedEmotion == Satisfied && note == ""
    {
      selectedEmotion, note := Satisfied, "";
    }

    /** `.onTapGesture`: the tapped emotion becomes the selection. */
    method Tap(e: EmotionType)
      modifies this
      ensures selectedEmotion == e && note == old(note)
    {
      selectedEmotion := e;
    }

    /** Typing in the note field. */
    method EditNote(text: string)
      modifies this
      ensures note == text && selectedEmotion == old(selectedEmotion)
    {
      note := text;
    }

    /** "保存": the one call to `onComplete`, carrying the selected emotion
        and the note, with an empty note passed on as no note. */
    method Save() returns (choice: CompletionChoice)
      ensures choice.emotion == selectedEmotion
      ensures choice.note.None? <==> note == ""
      ensures choice.note.Some? ==> choice.note.value == note
    {
      choice := CompletionChoice(selectedEmotion, NoteToSave(note));
    }
  }
}
