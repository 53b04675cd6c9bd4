/**
 * What the service layer (services/geminiService.ts) does with a
 * generateContent response: find the image a part carries inline, or the audio
 * of the first part, and wrap that audio in a WAV container. The SDK call
 * itself is not modelled; its response is an input.
 */
module GenAi {
  import opened Wrappers
  import opened Uint
  import Wav

  /**
   * One part of a candidate's content. A missing field and an empty string are
   * both falsy in the source, so both are the empty string here.
   */
  datatype Part = Part(inlineData: string, text: string)

  /** A candidate; `parts` is None when `content` or `content.parts` is missing. */
  datatype Candidate = Candidate(parts: Option<seq<Part>>)

  /** A generateContent response; `candidates` is None when the field is missing. */
  datatype Response = Response(candidates: Option<seq<Candidate>>)

  /**
   * What a call throws: an Error with a message, a TypeError from reading a
   * field of undefined, or the InvalidCharacterError DOMException that `atob`
   * raises on a string that is not valid base64.
   */
  datatype Error = Thrown(message: string) | TypeError | InvalidBase64

  const EditNoCandidates: string :=
    "El modelo no devolvió ninguna respuesta. Puede deberse a filtros de seguridad o un problema de conexión."
  const EditRefusedPrefix: string := "No se pudo editar la imagen. El modelo respondió: \""
  const EditNoImage: string :=
    "No se encontró una imagen en la respuesta del modelo. Intenta con un prompt de edición diferente."
  const GenerateNoCandidates: string := "No se pudo generar la imagen."
  const GenerateNoImage: string := "No se encontró la imagen en la respuesta."
  const NoAudio: string := "No audio generated"

  const SpeechSampleRate: nat := 24000
  const SpeechChannels: nat := 1

  predicate HasInline(p: Part) {
    p.inlineData != ""
  }

  /** Index of the first part that carries inline data, if any. */
  function FirstInline(parts: seq<Part>): (k: Option<nat>)
    ensures k.Some? ==> k.value < |parts| && HasInline(parts[k.value])
    ensures k.Some? ==> forall j :: 0 <= j < k.value ==> !HasInline(parts[j])
    ensures k.None? <==> forall j :: 0 <= j < |parts| ==> !HasInline(parts[j])
  {
    if parts == [] then None
    else if HasInline(parts[0]) then Some(0)
    else match FirstInline(parts[1..])
      case None => None
      case Some(k) => Some(k + 1)
  }

  /** All text parts, concatenated in order. */
  function Texts(parts: seq<Part>): string
  {
    if parts == [] then "" else Texts(parts[..|parts| - 1]) + parts[|parts| - 1].text
  }

  /** The parts of the first candidate, or none when the first candidate has no parts. */
  function FirstParts(candidates: seq<Candidate>): seq<Part>
    requires |candidates| > 0
  {
    if candidates[0].parts.Some? then candidates[0].parts.value else []
  }

  /** The failure message of editCharacterImage, with or without the model's text. */
  function EditFailure(textReason: string): string
  {
    if textReason != "" then EditRefusedPrefix + textReason + "\"" else EditNoImage
  }

  /**
   * What editCharacterImage returns or throws for a response: the inline data
   * of the first part that has some; otherwise an error that quotes all the
   * text parts (or a fixed message when there are none); no candidates at all
   * is an error of its own.
   */
  function EditOutcome(response: Response): (r: Result<string, Error>)
    ensures r.Success? ==> r.value != ""
  {
    if response.candidates.None? || |response.candidates.value| == 0 then
      Failure(Thrown(EditNoCandidates))
    else
      var parts := FirstParts(response.candidates.value);
      match FirstInline(parts)
      case Some(k) => Success(parts[k].inlineData)
      case None => Failure(Thrown(EditFailure(Texts(parts))))
  }

  /**
   * What generateCharacterImage returns or throws: the first inline data, a
   * fixed message when there is none, and a TypeError when the first candidate
   * has no content parts (the source reads them without optional chaining).
   */
  function GenerateOutcome(response: Response): (r: Result<string, Error>)
    ensures r.Success? ==> r.value != ""
  {
    if response.candidates.None? || |response.candidates.value| == 0 then
      Failure(Thrown(GenerateNoCandidates))
    else if response.candidates.value[0].parts.None? then
      Failure(TypeError)
    else
      var parts := response.candidates.value[0].parts.value;
      match FirstInline(parts)
      case Some(k) => Success(parts[k].inlineData)
      case None => Failure(Thrown(GenerateNoImage))
  }

  /** The part scan of editCharacterImage, accumulating text parts as it goes. */
  method EditCharacterImage(response: Response) returns (r: Result<string, Error>)
    ensures r == EditOutcome(response)
  {
    if response.candidates.None? || |response.candidates.value| == 0 {
      return Failure(Thrown(EditNoCandidates));
    }
    var textReason := "";
    var parts := FirstParts(response.candidates.value);
    for i := 0 to |parts|
      invariant textReason == Texts(parts[..i])
      invariant forall j :: 0 <= j < i ==> !HasInline(parts[j])
    {
      if parts[i].inlineData != "" {
        return Success(parts[i].inlineData);
      }
      if parts[i].text != "" {
        textReason := textReason + parts[i].text;
      }
      assert parts[..i + 1][..i] == parts[..i];
    }
    assert parts[..|parts|] == parts;
    return Failure(Thrown(EditFailure(textReason)));
  }

  /** The part scan of generateCharacterImage. */
  method GenerateCharacterImage(response: Response) returns (r: Result<string, Error>)
    ensures r == GenerateOutcome(response)
  {
    if response.candidates.None? || |response.candidates.value| == 0 {
      return Failure(Thrown(GenerateNoCandidates));
    }
    if response.candidates.value[0].parts.None? {
      return Failure(TypeError);
    }
    var parts := response.candidates.value[0].parts.value;
    for i := 0 to |parts|
      invariant forall j :: 0 <= j < i ==> !HasInline(parts[j])
    {
      if parts[i].inlineData != "" {
        return Success(parts[i].inlineData);
      }
    }
    return Failure(Thrown(GenerateNoImage));
  }

  /**
   * The two image scans agree whenever the first candidate has parts: both
   * return the same first inline data, and both fail otherwise.
   */
  lemma ScansAgree(response: Response)
    requires response.candidates.Some? && |response.candidates.value| > 0
    requires response.candidates.value[0].parts.Some?
    ensures EditOutcome(response).Success? == GenerateOutcome(response).Success?
    ensures EditOutcome(response).Success? ==> EditOutcome(response) == GenerateOutcome(response)
  {
  }

  /**
   * The edit scan's success is the first inline part's data, and its failure
   * message quotes exactly the concatenated text parts when there is any text.
   */
  lemma {:induction false} EditOutcomeCharacterised(response: Response)
    requires response.candidates.Some? && |response.candidates.value| > 0
    ensures var parts := FirstParts(response.candidates.value);
      var r := EditOutcome(response);
      && (r.Success? <==> exists k :: 0 <= k < |parts| && HasInline(parts[k]))
      && (forall k :: 0 <= k < |parts| && HasInline(parts[k]) && (forall j :: 0 <= j < k ==> !HasInline(parts[j]))
            ==> r == Success(parts[k].inlineData))
      && (r.Failure? && Texts(parts) != "" ==> r.error == Thrown(EditRefusedPrefix + Texts(parts) + "\""))
      && (r.Failure? && Texts(parts) == "" ==> r.error == Thrown(EditNoImage))
  {
  }

  /** A text reason that is empty exactly when every text part is empty. */
  lemma {:induction false} TextsEmpty(parts: seq<Part>)
    ensures Texts(parts) == "" <==> forall j :: 0 <= j < |parts| ==> parts[j].text == ""
  {
    if parts != [] {
      TextsEmpty(parts[..|parts| - 1]);
      assert forall j :: 0 <= j < |parts| - 1 ==> parts[..|parts| - 1][j] == parts[j];
    }
  }

  /** response.candidates?.[0]?.content?.parts?.[0]?.inlineData?.data, or "" when any link is missing. */
  function SpeechAudioData(response: Response): string
  {
    if response.candidates.None? || |response.candidates.value| == 0 then ""
    else
      var parts := FirstParts(response.candidates.value);
      if |parts| == 0 then "" else parts[0].inlineData
  }

  /** The loop of generateSpeech: bytes[i] = binaryString.charCodeAt(i) into a Uint8Array. */
  method BinaryStringToBytes(binary: string) returns (bytes: array<Byte>)
    ensures fresh(bytes)
    ensures bytes[..] == Uint8Codes(binary)
  {
    bytes := new Byte[|binary|];
    for i := 0 to |binary|
      invariant bytes[..i] == Uint8Codes(binary)[..i]
    {
      bytes[i] := ToUint8(binary[i] as int);
      assert bytes[..i + 1] == bytes[..i] + [bytes[i]];
    }
    assert bytes[..] == bytes[..|binary|];
  }

  /**
   * generateSpeech after the SDK call: no audio in the first part is an error
   * raised before any encoding; otherwise the decoded audio becomes a 24 kHz
   * mono WAV buffer. Base64 decoding is the `atob` parameter, which gives
   * None where `window.atob` throws on malformed input; that exception
   * escapes generateSpeech.
   */
  method GenerateSpeech(response: Response, atob: string -> Option<string>) returns (r: Result<array<Byte>, Error>)
    ensures r.Failure? <==> SpeechAudioData(response) == "" || atob(SpeechAudioData(response)).None?
    ensures SpeechAudioData(response) == "" ==> r == Failure(Thrown(NoAudio))
    ensures SpeechAudioData(response) != "" && atob(SpeechAudioData(response)).None? ==> r == Failure(InvalidBase64)
    ensures r.Success? ==> fresh(r.value)
    ensures r.Success? ==>
      r.value[..] == Wav.WavBytes(Uint8Codes(atob(SpeechAudioData(response)).value), SpeechSampleRate, SpeechChannels)
  {
    var base64Audio := SpeechAudioData(response);
    if base64Audio == "" {
      return Failure(Thrown(NoAudio));
    }
    var decoded := atob(base64Audio);
    if decoded.None? {
      return Failure(InvalidBase64);
    }
    var binaryString := decoded.value;
    var bytes := BinaryStringToBytes(binaryString);
    var wav := Wav.AddWavHeader(bytes, SpeechSampleRate, SpeechChannels);
    return Success(wav);
  }

  /**
   * generateDialectScript's `response.text || originalText`: the model's text
   * when it has any, and otherwise the original text unchanged.
   */
  function ScriptOrOriginal(responseText: string, originalText: string): (r: string)
    ensures responseText != "" ==> r == responseText
    ensures responseText == "" ==> r == originalText
    ensures r == "" <==> responseText == "" && originalText == ""
  {
    if responseText != "" then responseText else originalText
  }
}
