/** The speech-capture adapter around the browser's SpeechRecognition: two transcript
    buffers (the settled text and the words still being recognised), the listening and
    permission flags and the last recognition error.

    The browser objects are not part of this model: whether a SpeechRecognition
    implementation exists is an input of `Mount`, and how `getUserMedia` settles is a
    `MediaAccess` value handed to the calls that may ask for the microphone.
 */
module SpeechRecognition {
  import opened Outcomes
  import opened Text

  /** One slot of `event.results`: missing, or the first alternative's transcript
      together with the result's `isFinal` flag. */
  datatype Entry = Absent | Heard(isFinal: bool, transcript: string)

  /** How `navigator.mediaDevices.getUserMedia({audio: true})` turns out. */
  datatype MediaAccess = NoMediaDevices | Granted | Denied(thrown: Thrown)

  const NotSupported := "Speech recognition is not supported."
  const PermissionsUnavailable := "Microphone permissions are unavailable in this browser."
  const AccessDeclined := "Microphone access was declined."

  // ---------------------------------------------------------------- one result batch

  /** What one slot contributes to the final (`final == true`) or to the interim text. */
  function Piece(e: Entry, final: bool): string {
    if e.Heard? && e.isFinal == final then e.transcript else ""
  }

  /** The final or the interim text of a run of slots: the pieces concatenated in
      index order, missing slots and slots of the other kind contributing nothing. */
  function Collected(rs: seq<Entry>, final: bool): string
    decreases |rs|
  {
    if rs == [] then "" else Collected(rs[..|rs| - 1], final) + Piece(rs[|rs| - 1], final)
  }

  /** The slots an `onresult` event asks the handler to read: `resultIndex` to the end. */
  function Batch(results: seq<Entry>, resultIndex: nat): (b: seq<Entry>)
    ensures resultIndex < |results| ==> b == results[resultIndex..]
    ensures resultIndex >= |results| ==> b == []
  {
    if resultIndex < |results| then results[resultIndex..] else []
  }

  /** Collecting two runs one after the other is collecting their concatenation: the
      order of the slots is the order of the text. */
  lemma {:induction false} CollectedAppend(a: seq<Entry>, b: seq<Entry>, final: bool)
    ensures Collected(a + b, final) == Collected(a, final) + Collected(b, final)
    decreases |b|
  {
    if b == [] {
      assert a + b == a;
    } else {
      var b' := b[..|b| - 1];
      var w := a + b;
      assert w[..|w| - 1] == a + b';
      assert w[|w| - 1] == b[|b| - 1];
      CollectedAppend(a, b', final);
      assert Collected(w, final) == Collected(a + b', final) + Piece(b[|b| - 1], final);
    }
  }

  /** A run collects to nothing exactly when none of its slots of that kind carries text. */
  lemma {:induction false} CollectedEmptyIff(rs: seq<Entry>, final: bool)
    ensures Collected(rs, final) == "" <==> forall i :: 0 <= i < |rs| ==> Piece(rs[i], final) == ""
    decreases |rs|
  {
    if rs != [] {
      var front := rs[..|rs| - 1];
      CollectedEmptyIff(front, final);
      assert forall i :: 0 <= i < |front| ==> front[i] == rs[i];
    }
  }

  /** The `onresult` loop: walk the batch once, appending every final transcript to one
      text and every interim transcript to the other. */
  method CollectBatch(results: seq<Entry>, resultIndex: nat) returns (finalText: string, interimText: string)
    ensures finalText == Collected(Batch(results, resultIndex), true)
    ensures interimText == Collected(Batch(results, resultIndex), false)
  {
    finalText, interimText := "", "";
    var i := resultIndex;
    while i < |results|
      invariant resultIndex <= i
      invariant resultIndex < |results| ==> i <= |results|
      invariant resultIndex < |results| ==> finalText == Collected(results[resultIndex..i], true)
      invariant resultIndex < |results| ==> interimText == Collected(results[resultIndex..i], false)
      invariant resultIndex >= |results| ==> finalText == "" && interimText == ""
    {
      assert results[resultIndex..i + 1][..i - resultIndex] == results[resultIndex..i];
      var result := results[i];
      if result.Absent? {
        i := i + 1;
        continue;
      }
      if result.isFinal {
        finalText := finalText + result.transcript;
      } else {
        interimText := interimText + result.transcript;
      }
      i := i + 1;
    }
    if resultIndex < |results| {
      assert results[resultIndex..i] == results[resultIndex..];
    }
  }

  // ---------------------------------------------------------------- the settled transcript

  /** The new settled transcript once a batch with final text `finalText` arrives. */
  function Appended(prev: string, finalText: string): string {
    Trim(prev + " " + finalText)
  }

  /** On an empty transcript the new final text simply becomes the transcript, trimmed. */
  lemma TranscriptStarts(finalText: string)
    ensures Appended("", finalText) == Trim(finalText)
  {
    assert "" + " " + finalText == " " + finalText + "";
    TrimIgnoresPadding(" ", finalText, "");
  }

  /** New final words go after the settled transcript, one space apart; only the
      whitespace at the outer ends goes, whitespace inside the new text stays. */
  lemma TranscriptAppends(prev: string, finalText: string)
    requires IsTrimmed(prev) && prev != [] && !IsBlank(finalText)
    ensures Appended(prev, finalText) == prev + " " + TrimEnd(finalText)
  {
    TrimEndSplits(finalText);
    NonBlankKeepsEnd(finalText);
    JoinedBeforeSpace(prev, TrimEnd(finalText), finalText[|TrimEnd(finalText)|..]);
  }

  /** A text that is not blank keeps something once its trailing whitespace goes. */
  lemma NonBlankKeepsEnd(s: string)
    requires !IsBlank(s)
    ensures TrimEnd(s) != []
  {
    if TrimEnd(s) == [] {
      TrimEndSplits(s);
      assert s[|TrimEnd(s)|..] == s;
      BlankIffAllSpace(s);
    }
  }

  /** Trimming `prev`, a space, a word and trailing whitespace keeps all but the
      trailing whitespace. */
  lemma JoinedBeforeSpace(prev: string, e: string, tail: string)
    requires IsTrimmed(prev) && prev != [] && e != [] && !IsSpace(e[|e| - 1]) && AllSpace(tail)
    ensures Trim(prev + " " + (e + tail)) == prev + " " + e
  {
    var r := prev + " " + e;
    assert IsTrimmed(r) by {
      assert r[0] == prev[0] && r[|r| - 1] == e[|e| - 1];
    }
    Regroup(prev, " ", e, tail, []);
    assert prev + " " + (e + tail) == r + tail;
    TrimDropsTrailing(r, tail);
  }

  // ---------------------------------------------------------------- starting to listen

  /** `startListening` gets as far as `recognition.start()`: the hook is supported,
      has a recogniser, and holds the permission or is granted it. */
  predicate ReachesStart(ready: bool, hadPermission: bool, access: MediaAccess) {
    ready && (hadPermission || access == Granted)
  }

  /** How `startListening` settles, given whether the hook is ready (supported, with a
      recogniser), whether it already held the permission, how `getUserMedia` turns
      out and how `recognition.start()` turns out (it throws when the recogniser is
      already started).  Every rejection before the start is an `Error`. */
  function StartOutcome(ready: bool, hadPermission: bool, access: MediaAccess, begin: Outcome): (r: Outcome)
    ensures r.Pass? <==> ReachesStart(ready, hadPermission, access) && begin.Pass?
    ensures ReachesStart(ready, hadPermission, access) ==> r == begin
    ensures !ready ==> r == Fail(Error(NotSupported))
    ensures !ReachesStart(ready, hadPermission, access) ==> r.Fail? && r.thrown.Error?
  {
    if !ready then Fail(Error(NotSupported))
    else if hadPermission then begin
    else match access
      case NoMediaDevices => Fail(Error(PermissionsUnavailable))
      case Granted => begin
      case Denied(thrown) => Fail(if thrown.Error? then thrown else Error(AccessDeclined))
  }

  // ---------------------------------------------------------------- the hook's state

  class Recognizer {
    var isSupported: bool
    /** `recognitionRef.current !== null`. */
    var hasRecognizer: bool
    var hasPermission: bool
    var isListening: bool
    var transcript: string
    var interimTranscript: string
    var error: Option<string>

    /** Both buffers are always trimmed. */
    predicate Valid()
      reads this`transcript, this`interimTranscript
    {
      IsTrimmed(transcript) && IsTrimmed(interimTranscript)
    }

    constructor()
      ensures Valid()
      ensures !isSupported && !hasRecognizer && !hasPermission && !isListening
      ensures transcript == "" && interimTranscript == "" && error == None
    {
      isSupported, hasRecognizer, hasPermission, isListening := false, false, false, false;
      transcript, interimTranscript, error := "", "", None;
    }

    /** The mount effect: with an implementation the hook is supported and owns a
        recogniser; without one it is not supported. */
    method Mount(implementationPresent: bool)
      modifies this
      ensures isSupported == implementationPresent
      ensures hasRecognizer == (implementationPresent || old(hasRecognizer))
      ensures hasPermission == old(hasPermission) && isListening == old(isListening) && error == old(error)
      ensures transcript == old(transcript) && interimTranscript == old(interimTranscript)
    {
      if !implementationPresent {
        isSupported := false;
        return;
      }
      isSupported := true;
      hasRecognizer := true;
    }

    /** The effect's cleanup: the recogniser is stopped and released. */
    method Unmount()
      modifies this`hasRecognizer
      ensures !hasRecognizer
    {
      hasRecognizer := false;
    }

    /** `onresult`: final text extends the settled transcript and clears the interim
        buffer; interim text replaces the interim buffer; a batch with neither leaves
        both buffers as they were. */
    method OnResult(results: seq<Entry>, resultIndex: nat)
      requires Valid()
      modifies this`transcript, this`interimTranscript
      ensures Valid()
      ensures var finalText := Collected(Batch(results, resultIndex), true);
              var interimText := Collected(Batch(results, resultIndex), false);
        && transcript == (if finalText != "" then Appended(old(transcript), finalText) else old(transcript))
        && interimTranscript == (if interimText != "" then Trim(interimText)
                                 else if finalText != "" then ""
                                 else old(interimTranscript))
    {
      var finalText, interimText := CollectBatch(results, resultIndex);
      if finalText != "" {
        transcript := Trim(transcript + " " + finalText);
        interimTranscript := "";
      }
      if interimText != "" {
        interimTranscript := Trim(interimText);
      }
    }

    /** `onerror`: the error code is kept and listening stops. */
    method OnError(code: string)
      modifies this`error, this`isListening
      ensures error == Some(code) && !isListening
    {
      error := Some(code);
      isListening := false;
    }

    /** `onend`: listening stops; the last error stays. */
    method OnEnd()
      modifies this`isListening
      ensures !isListening
    {
      isListening := false;
    }

    /** `requestPermission`: a grant records the permission; a refusal withdraws it and
        rejects with the refusal (or a generic one when what was thrown is not an
        `Error`); without `getUserMedia` it rejects and changes nothing. */
    method RequestPermission(access: MediaAccess) returns (r: Outcome)
      modifies this`hasPermission
      ensures access == NoMediaDevices ==> r == Fail(Error(PermissionsUnavailable)) && hasPermission == old(hasPermission)
      ensures access == Granted ==> r == Pass && hasPermission
      ensures access.Denied? ==>
        !hasPermission && r == Fail(if access.thrown.Error? then access.thrown else Error(AccessDeclined))
    {
      match access {
        case NoMediaDevices =>
          return Fail(Error(PermissionsUnavailable));
        case Granted =>
          hasPermission := true;
          return Pass;
        case Denied(thrown) =>
          hasPermission := false;
          return Fail(if thrown.Error? then thrown else Error(AccessDeclined));
      }
    }

    /** `startListening`: rejects when unsupported or without a recogniser; asks for the
        microphone only when permission is missing, and rejects when that fails; then
        clears the error and the interim buffer and calls `recognition.start()`, whose
        outcome is `begin`, and listens only if that did not throw.  `access` is only
        consulted when permission is missing, `begin` only when the start is reached. */
    method StartListening(access: MediaAccess, begin: Outcome) returns (r: Outcome)
      requires Valid()
      modifies this`hasPermission, this`error, this`interimTranscript, this`isListening
      ensures Valid()
      ensures r == StartOutcome(old(isSupported && hasRecognizer), old(hasPermission), access, begin)
      ensures hasPermission == (old(hasPermission) || (old(isSupported && hasRecognizer) && access == Granted))
      ensures ReachesStart(old(isSupported && hasRecognizer), old(hasPermission), access) ==>
        error == None && interimTranscript == ""
      ensures !ReachesStart(old(isSupported && hasRecognizer), old(hasPermission), access) ==>
        error == old(error) && interimTranscript == old(interimTranscript)
      ensures isListening == (old(isListening) || r.Pass?)
      ensures transcript == old(transcript)
    {
      if !isSupported || !hasRecognizer {
        return Fail(Error(NotSupported));
      }
      if !hasPermission {
        var asked := RequestPermission(access);
        if asked.Fail? {
          return asked;
        }
      }
      error := None;
      interimTranscript := "";
      if begin.Fail? {
        return begin;
      }
      isListening := true;
      return Pass;
    }

    /** `stopListening`: without a recogniser nothing happens; otherwise listening
        stops.  Stopping twice is stopping once. */
    method StopListening()
      modifies this`isListening
      ensures isListening == (old(isListening) && !hasRecognizer)
    {
      if !hasRecognizer {
        return;
      }
      isListening := false;
    }

    /** `resetTranscript`: both buffers emptied, nothing else touched. */
    method ResetTranscript()
      modifies this`transcript, this`interimTranscript
      ensures Valid()
      ensures transcript == "" && interimTranscript == ""
    {
      transcript := "";
      interimTranscript := "";
    }
  }
}
