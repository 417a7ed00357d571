/**
 * src/resources/judgement/useJudgement.ts: the judging rules of one column.
 * The column keeps two flags (a long note is being held; it was released
 * early) and judges a note by the first hit window its `y` lies in. The game
 * field's column height and velocity, the paused state and the timer's
 * elapsed time are passed in; every published judgement is recorded in
 * `published`.
 */
module UseJudgement {
  import opened Wrappers
  import opened Notes
  import opened JudgementStore

  /** The game field values the windows are computed from (`COL_HEIGHT`, `VELOCITY`). */
  datatype Field = Field(colHeight: real, velocity: real)

  /** One entry of `windows`. */
  datatype Bounds = Bounds(top: real, bottom: real)

  /** What `judge` publishes (`judgement` and `timestamp`). */
  datatype JudgementEvent = JudgementEvent(judgement: Judgement, timestamp: real)

  /** `windows.value[j]`: a window of width `velocity * jw` centred on the column height. */
  function WindowBounds(field: Field, j: Judgement): (b: Bounds)
    ensures b.top + b.bottom == 2.0 * field.colHeight
    ensures b.bottom - b.top == field.velocity * Window(j) as real
  {
    Bounds(field.colHeight - field.velocity * Window(j) as real / 2.0,
           field.colHeight + field.velocity * Window(j) as real / 2.0)
  }

  /** lodash `inRange(y, start, end)`: bounds given in reverse order are swapped. */
  predicate InRange(y: real, start: real, end: real) {
    (if start <= end then start else end) <= y < (if start <= end then end else start)
  }

  /** The membership test of `judge` and `onKeyPress`: `inRange(y, top, bottom + 1)`. */
  predicate InWindow(y: real, field: Field, j: Judgement) {
    var b := WindowBounds(field, j);
    InRange(y, b.top, b.bottom + 1.0)
  }

  /** With a non-negative velocity a position in a window lies in every wider window. */
  lemma WindowsNest(y: real, field: Field, i: nat, k: nat)
    requires field.velocity >= 0.0
    requires i <= k < |Judgements|
    requires InWindow(y, field, Judgements[i])
    ensures InWindow(y, field, Judgements[k])
  {
    if i < k {
      WindowsWiden(i, k);
      var wi, wk := Window(Judgements[i]) as real, Window(Judgements[k]) as real;
      assert field.velocity * wi <= field.velocity * wk;
    }
  }

  /** With a non-negative velocity the position is `top <= y < bottom + 1`. */
  lemma InWindowBounds(y: real, field: Field, j: Judgement)
    requires field.velocity >= 0.0
    ensures InWindow(y, field, j) <==>
      field.colHeight - field.velocity * Window(j) as real / 2.0 <= y < field.colHeight + field.velocity * Window(j) as real / 2.0 + 1.0
  {
    var w := Window(j) as real;
    assert field.velocity * w >= 0.0;
  }

  /** The position of a judgement in `Judgements`. */
  function Rank(j: Judgement): (i: nat)
    ensures i < |Judgements| && Judgements[i] == j
  {
    match j
    case Perfect => 0
    case Great => 1
    case Good => 2
    case Ok => 3
    case Meh => 4
    case Miss => 5
  }

  /** The first judgement from position `i` on whose window holds `y`. */
  function FirstWindowFrom(y: real, field: Field, i: nat): (r: Option<Judgement>)
    requires i <= |Judgements|
    ensures r.Some? ==> i <= Rank(r.value) && InWindow(y, field, r.value)
    ensures r.Some? ==> forall k :: i <= k < Rank(r.value) ==> !InWindow(y, field, Judgements[k])
    ensures r.None? ==> forall k :: i <= k < |Judgements| ==> !InWindow(y, field, Judgements[k])
    decreases |Judgements| - i
  {
    if i == |Judgements| then None
    else if InWindow(y, field, Judgements[i]) then Some(Judgements[i])
    else FirstWindowFrom(y, field, i + 1)
  }

  /** The verdict of `judge` before any long-note rule: the first window holding `y`, or MISS. */
  function Verdict(y: real, field: Field): Judgement {
    match FirstWindowFrom(y, field, 0)
    case Some(j) => j
    case None => Miss
  }

  /** The verdict's window holds `y` and no narrower one does; with no window holding `y` it is MISS. */
  lemma VerdictIsFirst(y: real, field: Field)
    ensures (exists k :: 0 <= k < |Judgements| && InWindow(y, field, Judgements[k])) ==>
      InWindow(y, field, Verdict(y, field))
    ensures forall k :: 0 <= k < Rank(Verdict(y, field)) ==> !InWindow(y, field, Judgements[k])
    ensures (forall k :: 0 <= k < |Judgements| ==> !InWindow(y, field, Judgements[k])) ==> Verdict(y, field) == Miss
  {
    var r := FirstWindowFrom(y, field, 0);
    if r.None? {
      assert forall k :: 0 <= k < |Judgements| ==> !InWindow(y, field, Judgements[k]);
    }
  }

  /** `y` is judged PERFECT exactly when it lies in the PERFECT window. */
  lemma PerfectIffInnermost(y: real, field: Field)
    ensures Verdict(y, field) == Perfect <==> InWindow(y, field, Perfect)
  {
    VerdictIsFirst(y, field);
    if InWindow(y, field, Perfect) {
      assert InWindow(y, field, Judgements[0]);
    }
  }

  /** What `judge` publishes: the verdict, turned into MEH for a TAIL released early unless it is a MISS. */
  function Outcome(y: real, field: Field, tail: bool, earlyRelease: bool): (j: Judgement)
    ensures !(tail && earlyRelease) ==> j == Verdict(y, field)
    ensures tail && earlyRelease ==> (j == Miss <==> Verdict(y, field) == Miss)
    ensures tail && earlyRelease ==> j == Miss || j == Meh
  {
    var j := Verdict(y, field);
    if tail && earlyRelease then (if j == Miss then Miss else Meh) else j
  }

  /** `note` would be picked by `onKeyPress`: not judged and inside the MISS window. */
  predicate Candidate(note: CanvasNote, field: Field)
    reads note
  {
    !note.judged && InWindow(note.y, field, Miss)
  }

  /** `notes.find(...)`: the index of the first candidate. */
  function FirstCandidate(notes: seq<CanvasNote>, field: Field): (r: Option<nat>)
    reads notes
    ensures r.Some? ==> r.value < |notes| && Candidate(notes[r.value], field)
    ensures r.Some? ==> forall k :: 0 <= k < r.value ==> !Candidate(notes[k], field)
    ensures r.None? ==> forall k :: 0 <= k < |notes| ==> !Candidate(notes[k], field)
  {
    if notes == [] then None
    else if Candidate(notes[0], field) then Some(0)
    else match FirstCandidate(notes[1..], field)
      case Some(k) => Some(k + 1)
      case None => None
  }

  class JudgementColumn {
    /** `judgingLongNote`: a HEAD was judged and its TAIL was not yet. */
    var judgingLongNote: bool
    /** `earlyRelease`: the key was released while a long note was held. */
    var earlyRelease: bool
    /** The events published so far, oldest first. */
    var published: seq<JudgementEvent>

    constructor ()
      ensures !judgingLongNote && !earlyRelease && published == []
    {
      judgingLongNote := false;
      earlyRelease := false;
      published := [];
    }

    /** `judge(note)`, at elapsed time `timestamp`. */
    method Judge(note: CanvasNote, field: Field, timestamp: real)
      modifies this, note
      ensures published == old(published) + [JudgementEvent(Outcome(note.y, field, note.noteType == Some(Tail), old(earlyRelease)), timestamp)]
      ensures judgingLongNote == (old(judgingLongNote) && note.noteType != Some(Tail))
      ensures earlyRelease == (old(earlyRelease) && note.noteType != Some(Tail))
      ensures note.judged && note.y == old(note.y)
    {
      var judgement := Verdict(note.y, field);
      if note.noteType == Some(Tail) {
        judgingLongNote := false;
      }
      if note.noteType == Some(Tail) && earlyRelease {
        earlyRelease := false;
        judgement := if judgement == Miss then Miss else Meh;
      }
      published := published + [JudgementEvent(judgement, timestamp)];
      note.judged := true;
    }

    /** `judgeDeletedNote(note)`: a note leaving the field unjudged is judged where it is. */
    method JudgeDeletedNote(note: CanvasNote, field: Field, timestamp: real)
      modifies this, note
      ensures old(note.judged) ==> published == old(published) && judgingLongNote == old(judgingLongNote) && earlyRelease == old(earlyRelease)
      ensures !old(note.judged) ==> published == old(published) + [JudgementEvent(Outcome(note.y, field, note.noteType == Some(Tail), old(earlyRelease)), timestamp)]
      ensures !old(note.judged) ==> judgingLongNote == (if note.noteType == Some(Head) then true else if note.noteType == Some(Tail) then false else old(judgingLongNote))
      ensures !old(note.judged) ==> earlyRelease == (old(earlyRelease) && note.noteType != Some(Tail))
      ensures note.judged && note.y == old(note.y)
    {
      if note.judged {
        return;
      }
      if note.noteType == Some(Head) {
        judgingLongNote := true;
      } else if note.noteType == Some(Tail) {
        judgingLongNote := false;
      }
      Judge(note, field, timestamp);
    }

    /**
     * `onKeyPress(pressed)`. The development-build assertion that a note
     * judged on release is a TAIL is the precondition.
     */
    method OnKeyPress(pressed: bool, paused: bool, notes: seq<CanvasNote>, field: Field, timestamp: real)
      requires !paused && !pressed && judgingLongNote && FirstCandidate(notes, field).Some? ==>
        notes[FirstCandidate(notes, field).value].noteType == Some(Tail)
      modifies this, notes
      ensures paused ==> published == old(published) && judgingLongNote == old(judgingLongNote) && earlyRelease == old(earlyRelease)
      ensures paused ==> forall k :: 0 <= k < |notes| ==> notes[k].judged == old(notes[k].judged)
      ensures !pressed && !old(judgingLongNote) ==> published == old(published) && judgingLongNote == old(judgingLongNote) && earlyRelease == old(earlyRelease)
      ensures !pressed && !old(judgingLongNote) ==> forall k :: 0 <= k < |notes| ==> notes[k].judged == old(notes[k].judged)
      ensures forall n :: n in notes ==> n.y == old(n.y)
      ensures !paused && (pressed || old(judgingLongNote)) ==>
        match old(FirstCandidate(notes, field))
        case None =>
          published == old(published) && judgingLongNote == old(judgingLongNote) &&
          earlyRelease == (old(earlyRelease) || !pressed)
        case Some(i) =>
          published == old(published) + [JudgementEvent(Outcome(notes[i].y, field, notes[i].noteType == Some(Tail), old(earlyRelease)), timestamp)] &&
          notes[i].judged &&
          judgingLongNote == (if notes[i].noteType == Some(Tail) then false else if pressed && notes[i].noteType == Some(Head) then true else old(judgingLongNote)) &&
          earlyRelease == (old(earlyRelease) && notes[i].noteType != Some(Tail)) &&
          forall k :: 0 <= k < |notes| && notes[k] != notes[i] ==> notes[k].judged == old(notes[k].judged)
      ensures !paused && (pressed || old(judgingLongNote)) && old(FirstCandidate(notes, field)).None? ==>
        forall k :: 0 <= k < |notes| ==> notes[k].judged == old(notes[k].judged)
    {
      if paused {
        return;
      }
      var found := FirstCandidate(notes, field);
      if pressed {
        if found.None? {
          return;
        }
        var note := notes[found.value];
        if note.noteType == Some(Head) {
          judgingLongNote := true;
        }
        Judge(note, field, timestamp);
      } else if judgingLongNote {
        if found.Some? {
          Judge(notes[found.value], field, timestamp);
        } else {
          earlyRelease := true;
        }
      }
    }
  }
}
