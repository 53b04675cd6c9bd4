/**
 * The decisions App.tsx takes around the service calls: toggling a
 * behavioural action, classifying a failure, the guards that decide whether
 * a generation starts, and the loop that turns a decoded image string into
 * byte values. Rendering and the React hooks are not modelled; the pieces of
 * component state the handlers update are the fields of AppModel.
 */
module App {
  import opened Wrappers
  import opened Uint

  /** CharacterAction of types.ts. */
  datatype CharacterAction =
    | Speaking | Gesturing | Nodding | ShakingHead | Waving | Pointing | Smiling
    | Blinking | Laughing | Walking | LookingAround | AdjustingClothes | Drinking
    | Thinking | CrossedArms | Shrugging | CheckingWatch | Writing | Winking
    | Surprised | AngryGesture | HoldingPhone

  // ---------------------------------------------------------------------------
  // toggleAction

  /** `actions.filter(a => a !== action)` */
  function Without(actions: seq<CharacterAction>, action: CharacterAction): seq<CharacterAction>
  {
    if actions == [] then []
    else (if actions[0] == action then [] else [actions[0]]) + Without(actions[1..], action)
  }

  /** The new selection toggleAction computes from the previous one. */
  function Toggle(selected: seq<CharacterAction>, action: CharacterAction): (r: seq<CharacterAction>)
    ensures action in selected ==> action !in r
    ensures action !in selected ==> |r| == |selected| + 1 && r[..|selected|] == selected && r[|selected|] == action
  {
    if action in selected then WithoutRemovesAll(selected, action); Without(selected, action)
    else selected + [action]
  }

  /** `r` is `s` with some elements dropped, the rest in their original order. */
  predicate IsSubsequence(r: seq<CharacterAction>, s: seq<CharacterAction>)
    decreases |s|
  {
    if r == [] then true
    else if s == [] then false
    else if r[0] == s[0] then IsSubsequence(r[1..], s[1..])
    else IsSubsequence(r, s[1..])
  }

  /** Filtering removes every occurrence of the action. */
  lemma {:induction false} WithoutRemovesAll(actions: seq<CharacterAction>, action: CharacterAction)
    ensures action !in Without(actions, action)
  {
    if actions != [] {
      WithoutRemovesAll(actions[1..], action);
    }
  }

  /** Filtering keeps every other action exactly as often as it occurred. */
  lemma {:induction false} WithoutKeepsCounts(actions: seq<CharacterAction>, action: CharacterAction)
    ensures forall x :: x != action ==> multiset(Without(actions, action))[x] == multiset(actions)[x]
  {
    if actions != [] {
      var head, tail := actions[0], actions[1..];
      WithoutKeepsCounts(tail, action);
      assert actions == [head] + tail;
      var kept := if head == action then [] else [head];
      assert multiset(Without(actions, action)) == multiset(kept) + multiset(Without(tail, action));
    }
  }

  /** Filtering keeps the remaining actions in their original order. */
  lemma {:induction false} WithoutKeepsOrder(actions: seq<CharacterAction>, action: CharacterAction)
    ensures IsSubsequence(Without(actions, action), actions)
  {
    if actions != [] {
      var head, tail := actions[0], actions[1..];
      var w := Without(tail, action);
      WithoutKeepsOrder(tail, action);
      if head != action {
        assert Without(actions, action) == [head] + w;
        assert ([head] + w)[1..] == w;
      } else {
        WithoutRemovesAll(tail, action);
        assert Without(actions, action) == w;
      }
    }
  }

  /** Filtering out an action that is not there changes nothing. */
  lemma {:induction false} WithoutAbsent(actions: seq<CharacterAction>, action: CharacterAction)
    requires action !in actions
    ensures Without(actions, action) == actions
  {
    if actions != [] {
      WithoutAbsent(actions[1..], action);
      assert actions == [actions[0]] + actions[1..];
    }
  }

  /** Filtering distributes over concatenation. */
  lemma {:induction false} WithoutAppend(s: seq<CharacterAction>, t: seq<CharacterAction>, action: CharacterAction)
    ensures Without(s + t, action) == Without(s, action) + Without(t, action)
  {
    if s != [] {
      WithoutAppend(s[1..], t, action);
      assert (s + t)[1..] == s[1..] + t;
    } else {
      assert s + t == t;
    }
  }

  /** Toggling a selected action removes all of its occurrences and keeps the rest in order. */
  lemma ToggleSelected(selected: seq<CharacterAction>, action: CharacterAction)
    requires action in selected
    ensures var r := Toggle(selected, action);
      && action !in r
      && |r| == |selected| - multiset(selected)[action]
      && (forall x :: x != action ==> multiset(r)[x] == multiset(selected)[x])
      && IsSubsequence(r, selected)
  {
    var r := Toggle(selected, action);
    WithoutRemovesAll(selected, action);
    WithoutKeepsCounts(selected, action);
    WithoutKeepsOrder(selected, action);
    assert multiset(r) == multiset(selected)[action := 0];
  }

  /** Toggling an absent action twice gives back the original selection. */
  lemma ToggleTwiceRestores(selected: seq<CharacterAction>, action: CharacterAction)
    requires action !in selected
    ensures Toggle(Toggle(selected, action), action) == selected
  {
    WithoutAppend(selected, [action], action);
    WithoutAbsent(selected, action);
    assert Without([action], action) == [];
  }

  /** Toggling a selected action twice moves it, once, to the end. */
  lemma ToggleTwiceMovesToEnd(selected: seq<CharacterAction>, action: CharacterAction)
    requires action in selected
    ensures Toggle(Toggle(selected, action), action) == Without(selected, action) + [action]
  {
    WithoutRemovesAll(selected, action);
  }

  // ---------------------------------------------------------------------------
  // handleError

  /** `sub` occurs in `s` starting at index i. */
  predicate OccursAt(s: string, sub: string, i: int)
  {
    0 <= i <= |s| - |sub| && s[i..i + |sub|] == sub
  }

  /** `sub` occurs in `s` at some position. */
  ghost predicate Contains(s: string, sub: string)
  {
    exists i :: OccursAt(s, sub, i)
  }

  /** String.prototype.includes, searching from the left. */
  function Includes(s: string, sub: string): (b: bool)
    decreases |s|
  {
    if |sub| > |s| then false
    else if s[..|sub|] == sub then true
    else if s == [] then false
    else Includes(s[1..], sub)
  }

  /** The search finds `sub` exactly when it occurs somewhere in `s`. */
  lemma {:induction false} IncludesIsContains(s: string, sub: string)
    ensures Includes(s, sub) <==> Contains(s, sub)
    decreases |s|
  {
    if |sub| > |s| {
      assert forall i :: !OccursAt(s, sub, i);
    } else if s[..|sub|] == sub {
      assert OccursAt(s, sub, 0);
    } else if s != [] {
      IncludesIsContains(s[1..], sub);
      if Contains(s, sub) {
        var i :| OccursAt(s, sub, i);
        assert i != 0;
        assert s[1..][i - 1..i - 1 + |sub|] == s[i..i + |sub|];
        assert OccursAt(s[1..], sub, i - 1);
      }
      if Contains(s[1..], sub) {
        var i :| OccursAt(s[1..], sub, i);
        assert s[1..][i..i + |sub|] == s[i + 1..i + 1 + |sub|];
        assert OccursAt(s, sub, i + 1);
      }
    }
  }

  const NotFoundMessage: string :=
    "Error 404: El modelo no está disponible. Asegúrate de haber seleccionado una API Key con acceso a modelos Pro/Veo y facturación activa."

  /** `e.message || String(e)` */
  function ErrorText(message: string, asString: string): string
  {
    if message != "" then message else asString
  }

  /** The not-found test of handleError. */
  predicate IsNotFound(errorMessage: string)
  {
    Includes(errorMessage, "Requested entity was not found") || Includes(errorMessage, "404")
    || Includes(errorMessage, "NOT_FOUND")
  }

  /** What handleError shows, and whether it asks for a new API key. */
  datatype ErrorReport = ErrorReport(shown: string, reselectKey: bool)

  function ClassifyError(message: string, asString: string, defaultMsg: string): (r: ErrorReport)
    ensures r.reselectKey <==> IsNotFound(ErrorText(message, asString))
    ensures r.reselectKey ==> r.shown == NotFoundMessage
    ensures !r.reselectKey ==> r.shown == defaultMsg
  {
    if IsNotFound(ErrorText(message, asString)) then ErrorReport(NotFoundMessage, true)
    else ErrorReport(defaultMsg, false)
  }

  /**
   * handleError by occurrence: a message containing any of the three markers
   * anywhere gets the 404 message and a key reselection; any other message
   * gets the caller's default text and no reselection.
   */
  lemma ClassifyByOccurrence(message: string, asString: string, defaultMsg: string)
    ensures var e := ErrorText(message, asString);
      var marked := Contains(e, "Requested entity was not found") || Contains(e, "404") || Contains(e, "NOT_FOUND");
      && (marked ==> ClassifyError(message, asString, defaultMsg) == ErrorReport(NotFoundMessage, true))
      && (!marked ==> ClassifyError(message, asString, defaultMsg) == ErrorReport(defaultMsg, false))
  {
    var e := ErrorText(message, asString);
    IncludesIsContains(e, "Requested entity was not found");
    IncludesIsContains(e, "404");
    IncludesIsContains(e, "NOT_FOUND");
  }

  // ---------------------------------------------------------------------------
  // handleGenerateVideo / handleGenerateAudio guards

  const NeedImageMessage: string := "Sube o genera una imagen primero."
  const NeedActionMessage: string := "Selecciona al menos una acción."

  /** Whether handleGenerateVideo calls the service, and with what. */
  datatype VideoStart =
    | VideoRefused(message: string)
    | VideoStarts(image: string, actions: seq<CharacterAction>)

  /** `!state.base64Image` first, then `selectedActions.length === 0`. */
  function VideoGuard(base64Image: Option<string>, actions: seq<CharacterAction>): (r: VideoStart)
    ensures r.VideoStarts? <==> base64Image.Some? && base64Image.value != "" && |actions| > 0
    ensures r.VideoStarts? ==> r.image == base64Image.value && r.actions == actions
    ensures (base64Image.None? || base64Image.value == "") ==> r == VideoRefused(NeedImageMessage)
    ensures base64Image.Some? && base64Image.value != "" && |actions| == 0 ==> r == VideoRefused(NeedActionMessage)
  {
    if base64Image.None? || base64Image.value == "" then VideoRefused(NeedImageMessage)
    else if |actions| == 0 then VideoRefused(NeedActionMessage)
    else VideoStarts(base64Image.value, actions)
  }

  /** The two refusals are told apart by their messages. */
  lemma RefusalsDistinct()
    ensures NeedImageMessage != NeedActionMessage
  {
    assert NeedImageMessage[1] != NeedActionMessage[1];
  }

  /** `state.generated.script || state.promptText`, or nothing to speak. */
  function AudioGuard(script: string, promptText: string): (r: Option<string>)
    ensures r.None? <==> script == "" && promptText == ""
    ensures r.Some? ==> r.value != ""
    ensures script != "" ==> r == Some(script)
    ensures script == "" && promptText != "" ==> r == Some(promptText)
  {
    var textToSpeak := if script != "" then script else promptText;
    if textToSpeak == "" then None else Some(textToSpeak)
  }

  // ---------------------------------------------------------------------------
  // The byte loop of handleGenerateImage / handleEditImage

  /** `byteNumbers[i] = byteCharacters.charCodeAt(i)` into a plain array. */
  method CharCodes(byteCharacters: string) returns (byteNumbers: array<int>)
    ensures fresh(byteNumbers)
    ensures byteNumbers.Length == |byteCharacters|
    ensures forall i :: 0 <= i < |byteCharacters| ==> byteNumbers[i] == byteCharacters[i] as int
  {
    byteNumbers := new int[|byteCharacters|];
    for i := 0 to |byteCharacters|
      invariant forall j :: 0 <= j < i ==> byteNumbers[j] == byteCharacters[j] as int
    {
      byteNumbers[i] := byteCharacters[i] as int;
    }
  }

  /** `new Uint8Array(byteNumbers)`: each number reduced modulo 2^8. */
  function ToUint8Array(numbers: seq<int>): (bytes: seq<Byte>)
    ensures |bytes| == |numbers|
  {
    seq(|numbers|, i requires 0 <= i < |numbers| => ToUint8(numbers[i]))
  }

  /**
   * The image path (char codes, then a Uint8Array) yields the same bytes as
   * the speech path's direct Uint8Array fill.
   */
  lemma ImageBytesMatchSpeechBytes(byteCharacters: string, numbers: seq<int>)
    requires |numbers| == |byteCharacters|
    requires forall i :: 0 <= i < |byteCharacters| ==> numbers[i] == byteCharacters[i] as int
    ensures ToUint8Array(numbers) == Uint8Codes(byteCharacters)
  {
  }

  // ---------------------------------------------------------------------------
  // The component state the handlers update

  class AppModel {
    var selectedActions: seq<CharacterAction>
    var base64Image: Option<string>
    var promptText: string
    var script: string
    var error: Option<string>
    var isGeneratingVideo: bool
    var isGeneratingAudio: bool

    /** The initial state: one action (Speaking) selected, no image, no error. */
    constructor (samplePrompt: string)
      ensures selectedActions == [Speaking] && base64Image == None
      ensures promptText == samplePrompt && script == "" && error == None
      ensures !isGeneratingVideo && !isGeneratingAudio
    {
      selectedActions := [Speaking];
      base64Image := None;
      promptText := samplePrompt;
      script := "";
      error := None;
      isGeneratingVideo := false;
      isGeneratingAudio := false;
    }

    /** toggleAction: only the selection changes. */
    method ToggleAction(action: CharacterAction)
      modifies this
      ensures selectedActions == Toggle(old(selectedActions), action)
      ensures base64Image == old(base64Image) && promptText == old(promptText) && script == old(script)
      ensures error == old(error) && isGeneratingVideo == old(isGeneratingVideo)
      ensures isGeneratingAudio == old(isGeneratingAudio)
    {
      selectedActions := Toggle(selectedActions, action);
    }

    /** handleError: shows the classified message; returns whether to reselect the key. */
    method HandleError(message: string, asString: string, defaultMsg: string) returns (reselectKey: bool)
      modifies this`error
      ensures reselectKey == ClassifyError(message, asString, defaultMsg).reselectKey
      ensures error == Some(ClassifyError(message, asString, defaultMsg).shown)
    {
      var report := ClassifyError(message, asString, defaultMsg);
      error := Some(report.shown);
      reselectKey := report.reselectKey;
    }

    /**
     * The synchronous part of handleGenerateVideo: a refusal sets its message
     * and starts nothing; otherwise the error is cleared, the video flag set,
     * and the service request returned.
     */
    method BeginGenerateVideo() returns (request: Option<(string, seq<CharacterAction>)>)
      modifies this`error, this`isGeneratingVideo
      ensures var g := VideoGuard(old(base64Image), old(selectedActions));
        && (g.VideoRefused? ==> request == None && error == Some(g.message)
                                && isGeneratingVideo == old(isGeneratingVideo))
        && (g.VideoStarts? ==> request == Some((g.image, g.actions)) && error == None && isGeneratingVideo)
    {
      var g := VideoGuard(base64Image, selectedActions);
      if g.VideoRefused? {
        error := Some(g.message);
        return None;
      }
      error := None;
      isGeneratingVideo := true;
      return Some((g.image, g.actions));
    }

    /**
     * The synchronous part of handleGenerateAudio: nothing happens when there
     * is no text; otherwise the error is cleared, the audio flag set, and the
     * text to speak returned.
     */
    method BeginGenerateAudio() returns (text: Option<string>)
      modifies this`error, this`isGeneratingAudio
      ensures text == AudioGuard(old(script), old(promptText))
      ensures text.None? ==> error == old(error) && isGeneratingAudio == old(isGeneratingAudio)
      ensures text.Some? ==> error == None && isGeneratingAudio
    {
      text := AudioGuard(script, promptText);
      if text.Some? {
        error := None;
        isGeneratingAudio := true;
      }
    }
  }
}
