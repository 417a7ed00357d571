/**
 * The note shapes of src/resources/note/store.ts: a parsed `Note` (hit time
 * and, for the two ends of a long note, a type) and the `CanvasNote` the
 * game field draws, whose `y` position the field moves and whose `judged`
 * flag the judgement rules set.
 */
module Notes {
  import opened Wrappers
  import opened JsNumbers

  /** `NOTE_TYPE`: the two ends of a long (hold) note. */
  datatype NoteType = Tail | Head

  /** `Note`: `type` is absent for an ordinary note. */
  datatype Note = Note(hitTime: JsNumber, noteType: Option<NoteType>)

  class CanvasNote {
    var y: real
    var judged: bool
    const noteType: Option<NoteType>

    /** A new canvas note is at `y`, has the given type and is not judged. */
    constructor (y: real, noteType: Option<NoteType>)
      ensures this.y == y && this.noteType == noteType && !judged
    {
      this.y := y;
      this.noteType := noteType;
      judged := false;
    }
  }
}
