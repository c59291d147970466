/** The dictation button: a three-state machine (idle, recording,
    transcribing) driven by clicks and by the recording and transcription
    workers, and the insertion of transcribed text into the target field at
    its cursor. The workers, the speech engine, its model cache and the
    message boxes are not modelled: what they answer is passed in. */
module Dictation {
  import opened Text

  // ------------------------------------------------------------ insertion

  /** A space goes before the inserted text exactly when there is text
      before the cursor and it does not already end in a space. */
  function Separator(before: string): (sep: string)
    ensures sep == " " <==> before != [] && before[|before| - 1] != ' '
    ensures sep == "" <==> before == [] || before[|before| - 1] == ' '
  {
    if before != [] && !EndsWith(before, " ") then " " else ""
  }

  /** Inserting dictated `t` at cursor `pos` of `text`: the text before the
      cursor (Python slicing caps `pos` at the length), the separator, the
      dictation, then the rest; the cursor ends just after the dictation. */
  function Insert(text: string, pos: nat, t: string): (r: (string, nat))
  {
    var p := if pos <= |text| then pos else |text|;
    var sep := Separator(text[..p]);
    (text[..p] + sep + t + text[p..], p + |sep| + |t|)
  }

  /** The insertion keeps everything that was there: cutting out the
      separator and the dictation gives the old text back, the dictation
      sits just before the new cursor, and it is set off from a preceding
      word by exactly one space. */
  lemma InsertKeepsText(text: string, pos: nat, t: string)
    requires pos <= |text|
    ensures var (n, c) := Insert(text, pos, t);
      var sep := Separator(text[..pos]);
      && c <= |n| && |n| == |text| + |sep| + |t|
      && n[c - |t|..c] == t
      && n[..pos] + n[c..] == text
      && (pos > 0 ==> n[c - |t| - 1] == ' ')
      && (pos == 0 ==> n[..c] == t)
  {
    var (n, c) := Insert(text, pos, t);
    var sep := Separator(text[..pos]);
    assert n == text[..pos] + sep + t + text[pos..];
    assert n[..pos] == text[..pos];
    assert n[c..] == text[pos..];
    assert n[c - |t|..c] == t;
    assert text[..pos] + text[pos..] == text;
    if pos > 0 {
      assert n[c - |t| - 1] == (text[..pos] + sep)[pos + |sep| - 1];
    }
  }

  // ------------------------------------------------------------ the target

  datatype TargetKind = LineEdit | TextEdit | OtherWidget

  /** The field dictation goes into: its text and cursor position. */
  class TextTarget {
    const kind: TargetKind
    var text: string
    var cursor: nat

    constructor(kind: TargetKind, text: string, cursor: nat)
      requires cursor <= |text|
      ensures this.kind == kind && this.text == text && this.cursor == cursor
    {
      this.kind := kind;
      this.text := text;
      this.cursor := cursor;
    }
  }

  // ------------------------------------------------------------ the button

  datatype MicState = Idle | Recording | Transcribing

  const IdleName := "Microphone \U{2014} speech to text"

  /** The button's accessible name in each state. */
  function NameFor(s: MicState): string
  {
    match s
    case Idle => IdleName
    case Recording => "Stop recording"
    case Transcribing => "Transcribing speech..."
  }

  class MicButton {
    const target: TextTarget
    var state: MicState
    var enabled: bool
    var accessibleName: string
    var pulsing: bool
    var hasRecorder: bool
    /** Stop requests sent to the recording worker. */
    var stopRequests: nat

    /** The name always tells the state, the button is disabled while
        transcribing, and a recording always has its recorder (which is
        never released afterwards). */
    predicate Valid()
      reads this
    {
      && accessibleName == NameFor(state)
      && (state == Transcribing ==> !enabled)
      && (state == Recording ==> hasRecorder)
    }

    constructor(target: TextTarget)
      ensures Valid() && this.target == target
      ensures state == Idle && enabled && !pulsing && !hasRecorder && stopRequests == 0
    {
      this.target := target;
      state := Idle;
      enabled := true;
      accessibleName := IdleName;
      pulsing := false;
      hasRecorder := false;
      stopRequests := 0;
    }

    /** `_start_recording`: without the speech package nothing happens;
        with the model not cached the download dialog must be accepted, and
        with it cached the model must load; then recording starts, pulsing,
        with a recorder running. */
    method StartRecording(available: bool, modelCached: bool, downloadAccepted: bool, loadsModel: bool)
      requires Valid()
      modifies this
      ensures Valid() && enabled == old(enabled) && stopRequests == old(stopRequests)
      ensures var starts := available && (if modelCached then loadsModel else downloadAccepted);
        && (starts ==> state == Recording && pulsing && hasRecorder)
        && (!starts ==> state == old(state) && pulsing == old(pulsing) && hasRecorder == old(hasRecorder))
    {
      if !available {
        return;
      }
      if !modelCached {
        if !downloadAccepted {
          return;
        }
      } else {
        if !loadsModel {
          return;
        }
      }
      state := Recording;
      pulsing := true;
      accessibleName := NameFor(Recording);
      hasRecorder := true;
    }

    /** `_stop_recording`: the pulse stops and the recorder, if any, is
        asked to stop; the state stays until it answers. */
    method StopRecording()
      requires Valid()
      modifies this
      ensures Valid() && state == old(state) && enabled == old(enabled) && !pulsing
      ensures hasRecorder == old(hasRecorder)
      ensures stopRequests == if hasRecorder then old(stopRequests) + 1 else old(stopRequests)
    {
      pulsing := false;
      if hasRecorder {
        stopRequests := stopRequests + 1;
      }
    }

    /** `_on_click`: idle tries to start recording, recording asks its
        recorder to stop, and a click while transcribing does nothing. */
    method OnClick(available: bool, modelCached: bool, downloadAccepted: bool, loadsModel: bool)
      requires Valid()
      modifies this
      ensures Valid() && enabled == old(enabled)
      ensures old(state) == Idle ==>
        && state == (if available && (if modelCached then loadsModel else downloadAccepted) then Recording else Idle)
        && stopRequests == old(stopRequests)
        && (state == Recording ==> pulsing && hasRecorder)
        && (state == Idle ==> pulsing == old(pulsing) && hasRecorder == old(hasRecorder))
      ensures old(state) == Recording ==>
        && state == Recording && !pulsing
        && hasRecorder && stopRequests == old(stopRequests) + 1
      ensures old(state) == Transcribing ==>
        && state == Transcribing && pulsing == old(pulsing)
        && hasRecorder == old(hasRecorder) && stopRequests == old(stopRequests)
    {
      if state == Idle {
        StartRecording(available, modelCached, downloadAccepted, loadsModel);
      } else if state == Recording {
        StopRecording();
      }
    }

    /** `_on_audio_ready`: the recording is handed to transcription and
        the button is disabled meanwhile. */
    method OnAudioReady()
      requires Valid()
      modifies this
      ensures Valid() && state == Transcribing && !enabled && pulsing == old(pulsing)
      ensures hasRecorder == old(hasRecorder) && stopRequests == old(stopRequests)
    {
      state := Transcribing;
      accessibleName := NameFor(Transcribing);
      enabled := false;
    }

    /** `_on_transcribe_done`: back to idle and enabled. */
    method OnTranscribeDone()
      requires Valid()
      modifies this
      ensures Valid() && state == Idle && enabled && pulsing == old(pulsing)
      ensures hasRecorder == old(hasRecorder) && stopRequests == old(stopRequests)
    {
      state := Idle;
      enabled := true;
      accessibleName := NameFor(Idle);
    }

    /** `_on_record_error`: back to idle with the pulse stopped; the
        enabled flag is left as it was. */
    method OnRecordError()
      requires Valid()
      modifies this
      ensures Valid() && state == Idle && !pulsing && enabled == old(enabled)
      ensures hasRecorder == old(hasRecorder) && stopRequests == old(stopRequests)
    {
      state := Idle;
      pulsing := false;
      accessibleName := NameFor(Idle);
    }

    /** `_append_text`: a line edit or a text edit gets the dictation at
        its cursor, which moves past it; any other widget is left alone. */
    method AppendText(t: string)
      requires target.cursor <= |target.text|
      modifies target
      ensures target.kind != OtherWidget ==>
        (target.text, target.cursor) == Insert(old(target.text), old(target.cursor), t)
      ensures target.kind == OtherWidget ==>
        target.text == old(target.text) && target.cursor == old(target.cursor)
    {
      if target.kind != OtherWidget {
        var pos := target.cursor;
        var current := target.text;
        var before := current[..pos];
        var sep := Separator(before);
        target.text := before + sep + t + current[pos..];
        target.cursor := pos + |sep| + |t|;
      }
    }

    /** `_on_text_ready`: a transcription that is empty or only whitespace
        leaves the target untouched; any other is inserted. */
    method OnTextReady(t: string)
      requires target.cursor <= |target.text|
      modifies target
      ensures Strip(t) == [] ==> target.text == old(target.text) && target.cursor == old(target.cursor)
      ensures Strip(t) != [] && target.kind != OtherWidget ==>
        (target.text, target.cursor) == Insert(old(target.text), old(target.cursor), t)
      ensures Strip(t) != [] && target.kind == OtherWidget ==>
        target.text == old(target.text) && target.cursor == old(target.cursor)
    {
      if Strip(t) == [] {
        return;
      }
      AppendText(t);
    }
  }
}
