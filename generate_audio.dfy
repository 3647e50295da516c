/**
 * The session-generation endpoint (`POST /api/generate-audio`): it validates the
 * request, composes the narration script from the plant table and the
 * characteristic table, and maps each outcome to an HTTP response. The
 * text-to-speech service is a parameter of the handler: a function from the
 * request the handler would send to the outcome it gets back.
 */
module GenerateAudio {
  import opened Wrappers
  import opened Text
  import opened ScriptTemplate

  // ---------------------------------------------------------------------------
  // The two tables
  // ---------------------------------------------------------------------------

  /** An entry of the plant table. `voice` is a description only; no request uses it. */
  datatype PlantPrompt = PlantPrompt(voice: string, script: string)

  const BambooPrompt := PlantPrompt(
    "Voz suave y flexible como el viento entre bambúes",
    "Bienvenido a tu sesión de mindfulness con el Bambú Resiliente. \n        Imagina que estás en un bosque de bambú asiático, donde las cañas se mecen suavemente con el viento.\n        Como el bambú, tú también puedes doblarte sin romperte. Respira profundamente y siente cómo tu flexibilidad interior te da fuerza.\n        Con cada respiración, permites que los desafíos te moldeen sin quebrarte. Eres resiliente, eres adaptable, eres como el bambú que crece hacia el cielo.")

  const LotusPrompt := PlantPrompt(
    "Voz cristalina y pura como agua tranquila",
    "Te doy la bienvenida a tu sesión con el Loto Purificador.\n        Visualiza un estanque sereno donde florece un hermoso loto. Como esta flor sagrada, tú emerges de las dificultades con pureza renovada.\n        Respira lentamente y siente cómo cada exhalación libera lo que ya no necesitas. Con cada inhalación, renuevas tu claridad mental.\n        Eres puro potencial, floreciendo desde tu interior hacia la luz. Permítete renacer en este momento de calma profunda.")

  const PinePrompt := PlantPrompt(
    "Voz profunda y estable como montañas antiguas",
    "Bienvenido a tu práctica con el Pino Enraizado.\n        Siéntete como un pino majestuoso en la montaña, con raíces profundas que te conectan con la tierra y ramas que tocan el cielo.\n        Respira el aire fresco de la montaña y siente tu estabilidad interior. Eres fuerte, eres constante, eres protector de tu propia paz.\n        Con cada respiración, tus raíces se profundizan más en la sabiduría ancestral. Eres el guardián de tu propio bienestar.")

  const CactusPrompt := PlantPrompt(
    "Voz cálida y contenida como el desierto al amanecer",
    "Te saludo en tu sesión con el Cactus Resistente.\n        Imagínate en un desierto sereno al amanecer, donde la belleza se encuentra en la simplicidad y la resistencia silenciosa.\n        Como el cactus que florece en condiciones adversas, tú también tienes una fuerza interior extraordinaria.\n        Respira el aire seco y puro, y siente cómo tu energía contenida es tu mayor fortaleza. Eres sobrio, eres resistente, eres hermoso en tu simplicidad.")

  /** `plantPrompts[plant]`: `None` for an id the table does not have (`undefined` in JavaScript). */
  function PlantPrompts(plant: string): Option<PlantPrompt>
  {
    if plant == "bamboo" then Some(BambooPrompt)
    else if plant == "lotus" then Some(LotusPrompt)
    else if plant == "pine" then Some(PinePrompt)
    else if plant == "cactus" then Some(CactusPrompt)
    else None
  }

  /** `characteristicPrompts[id]`: `None` for an id the table does not have. */
  function CharacteristicPrompts(id: string): Option<string>
  {
    if id == "child" then Some("Usa un lenguaje simple y juguetón, como si hablaras con un niño curioso")
    else if id == "stressed" then Some("Enfócate en técnicas de relajación y liberación de tensión")
    else if id == "sad" then Some("Ofrece palabras de consuelo y esperanza, con tonos cálidos y comprensivos")
    else if id == "pregnant" then Some("Incluye respiraciones suaves y visualizaciones de protección y nutrición")
    else if id == "anxious" then Some("Proporciona técnicas de grounding y respiración calmante")
    else if id == "tired" then Some("Usa un ritmo más lento y relajante, enfocado en el descanso")
    else if id == "angry" then Some("Incluye técnicas de liberación emocional y transformación de la energía")
    else if id == "confused" then Some("Ofrece claridad y simplicidad, con pasos claros y directos")
    else None
  }

  // ---------------------------------------------------------------------------
  // Composing the script
  // ---------------------------------------------------------------------------

  /**
   * The segment one characteristic contributes to the join. An id missing from
   * the table maps to `undefined`, which `join` renders as the empty string.
   */
  function Instruction(id: string): (r: string)
    ensures CharacteristicPrompts(id).None? ==> r == ""
    ensures CharacteristicPrompts(id).Some? ==> r == CharacteristicPrompts(id).value
  {
    match CharacteristicPrompts(id)
    case Some(text) => text
    case None => ""
  }

  /** `characteristics.map(...)`: one segment per requested id, in request order. */
  function Instructions(chars: seq<string>): (r: seq<string>)
    ensures |r| == |chars|
    ensures forall i :: 0 <= i < |chars| ==> r[i] == Instruction(chars[i])
  {
    seq(|chars|, i requires 0 <= i < |chars| => Instruction(chars[i]))
  }

  /** What the template places between the plant's script and the instructions. */
  const InstructionsLead := " \n    \n    Instrucciones adicionales: "

  /** What the template places after the instructions: a full stop and the closing sentence. */
  const ScriptClosing := ".\n    \n    Termina la sesión con una transición suave de regreso al presente, invitando a abrir los ojos lentamente."

  /** `characteristicInstructions`: the segments joined with ". ". */
  function CharacteristicInstructions(chars: seq<string>): string
  {
    Join(Instructions(chars), InstructionSeparator)
  }

  /** `fullScript`: the text sent for synthesis. */
  function FullScript(script: string, chars: seq<string>): string
  {
    Template(script, InstructionsLead, CharacteristicInstructions(chars), ScriptClosing)
  }

  /**
   * The composed script is the plant's script, the lead, the joined
   * instructions and the closing, each in its own slice and nothing else.
   */
  lemma FullScriptFrame(script: string, chars: seq<string>)
    ensures var full := FullScript(script, chars);
            var start := |script| + |InstructionsLead|;
            var body := CharacteristicInstructions(chars);
            && |full| == start + |body| + |ScriptClosing|
            && full[..|script|] == script
            && full[|script|..start] == InstructionsLead
            && full[start..start + |body|] == body
            && full[start + |body|..] == ScriptClosing
  {
    TemplateFrame(script, InstructionsLead, CharacteristicInstructions(chars), ScriptClosing);
  }

  /**
   * The `i`-th segment (the instruction of the `i`-th requested
   * characteristic) sits at its place in the joined instructions.
   */
  lemma InstructionAt(chars: seq<string>, i: nat)
    requires i < |chars|
    ensures var parts := Instructions(chars);
            var o := Offset(parts, InstructionSeparator, i);
            && o + |parts[i]| <= |CharacteristicInstructions(chars)|
            && CharacteristicInstructions(chars)[o..o + |parts[i]|] == parts[i]
  {
    JoinPart(Instructions(chars), InstructionSeparator, i);
  }

  /** Between the segments of neighbouring characteristics stands exactly ". ". */
  lemma SeparatorBetween(chars: seq<string>, i: nat)
    requires i + 1 < |chars|
    ensures var parts := Instructions(chars);
            var o := Offset(parts, InstructionSeparator, i) + |parts[i]|;
            && o + |InstructionSeparator| <= |CharacteristicInstructions(chars)|
            && CharacteristicInstructions(chars)[o..o + |InstructionSeparator|] == InstructionSeparator
  {
    JoinSeparator(Instructions(chars), InstructionSeparator, i);
  }

  /** With n requested characteristics the instructions hold n - 1 separators and nothing else. */
  lemma InstructionsLength(chars: seq<string>)
    requires |chars| > 0
    ensures |CharacteristicInstructions(chars)|
         == TotalLength(Instructions(chars)) + (|chars| - 1) * |InstructionSeparator|
  {
    JoinLength(Instructions(chars), InstructionSeparator);
  }

  /**
   * An unknown characteristic does not vanish from the join: it leaves an
   * empty segment and its separator, so ["sad", "joy"] does not compose like
   * ["sad"] ("joy" is an id the avatar page offers that the table lacks).
   */
  lemma UnknownCharacteristicLeavesEmptySegment()
    ensures CharacteristicInstructions(["sad", "joy"])
         == CharacteristicPrompts("sad").value + InstructionSeparator
    ensures CharacteristicInstructions(["sad", "joy"]) != CharacteristicInstructions(["sad"])
  {
    var parts := Instructions(["sad", "joy"]);
    assert parts == [CharacteristicPrompts("sad").value, ""];
    assert parts[1..] == [""];
    assert Instructions(["sad"]) == [CharacteristicPrompts("sad").value];
    var a := CharacteristicInstructions(["sad", "joy"]);
    var b := CharacteristicInstructions(["sad"]);
    assert |a| == |b| + 2;
  }

  // ---------------------------------------------------------------------------
  // The handler
  // ---------------------------------------------------------------------------

  /** The JSON body: `Unparseable` when `request.json()` throws. */
  datatype RequestBody =
    | Unparseable
    | Body(plant: Option<string>, characteristics: Option<seq<string>>)

  /** The two environment variables the handler reads. */
  datatype Env = Env(apiKey: Option<string>, voiceId: Option<string>)

  datatype VoiceSettings =
    VoiceSettings(stability: real, similarityBoost: real, style: real, useSpeakerBoost: bool)

  /** The one text-to-speech request the handler sends. */
  datatype TtsRequest = TtsRequest(
    voiceId: string,
    apiKey: string,
    accept: string,
    text: string,
    modelId: string,
    settings: VoiceSettings)

  /** `TtsFailed` stands for a non-ok response and for a fetch or body read that throws. */
  datatype TtsOutcome = TtsOk(audio: seq<bv8>) | TtsFailed

  datatype Response =
    | ErrorJson(status: nat, error: string)
    | Audio(status: nat, body: seq<bv8>, contentType: string, contentLength: string)

  /** Where the handler stands before the network: answered already, or about to call the service. */
  datatype Step = Respond(response: Response) | SendTts(request: TtsRequest)

  const RequiredMessage := "Plant and characteristics are required"
  const KeyMissingMessage := "ElevenLabs API key not configured"
  const FailedMessage := "Failed to generate audio"
  const DefaultVoiceId := "21m00Tcm4TlvDq8ikWAM"
  const ModelId := "eleven_multilingual_v2"
  const AudioMpeg := "audio/mpeg"
  const Settings := VoiceSettings(0.5, 0.8, 0.2, true)

  /** The guard `!plant || !characteristics || characteristics.length === 0`, negated. */
  predicate ValidRequest(plant: Option<string>, characteristics: Option<seq<string>>)
  {
    Truthy(plant) && characteristics.Some? && |characteristics.value| != 0
  }

  /** `process.env.ELEVENLABS_VOICE_ID || "21m00Tcm4TlvDq8ikWAM"`. */
  function VoiceId(env: Env): (id: string)
    ensures id != ""
    ensures Truthy(env.voiceId) ==> id == env.voiceId.value
    ensures !Truthy(env.voiceId) ==> id == DefaultVoiceId
  {
    if Truthy(env.voiceId) then env.voiceId.value else DefaultVoiceId
  }

  /** The request a valid body with a known plant produces, once an API key is present. */
  function TtsRequestFor(prompt: PlantPrompt, chars: seq<string>, env: Env): TtsRequest
    requires Truthy(env.apiKey)
  {
    TtsRequest(VoiceId(env), env.apiKey.value, AudioMpeg, FullScript(prompt.script, chars), ModelId, Settings)
  }

  /**
   * Everything the handler does before the network call, in the handler's order:
   * parse, validate, look up and compose (where an unknown plant throws), then
   * check the API key.
   */
  function Prepare(body: RequestBody, env: Env): (step: Step)
    ensures body.Unparseable? ==> step == Respond(ErrorJson(500, FailedMessage))
    ensures step == Respond(ErrorJson(400, RequiredMessage))
        <==> body.Body? && !ValidRequest(body.plant, body.characteristics)
    ensures body.Body? && ValidRequest(body.plant, body.characteristics)
            && PlantPrompts(body.plant.value).None?
        ==> step == Respond(ErrorJson(500, FailedMessage))
    ensures body.Body? && ValidRequest(body.plant, body.characteristics)
            && PlantPrompts(body.plant.value).Some? && !Truthy(env.apiKey)
        ==> step == Respond(ErrorJson(500, KeyMissingMessage))
    ensures step.SendTts?
        <==> body.Body? && ValidRequest(body.plant, body.characteristics)
             && PlantPrompts(body.plant.value).Some? && Truthy(env.apiKey)
    ensures step.SendTts? ==>
      step.request.text == FullScript(PlantPrompts(body.plant.value).value.script, body.characteristics.value)
      && step.request.voiceId == VoiceId(env)
      && step.request.apiKey == env.apiKey.value
  {
    match body
    case Unparseable => Respond(ErrorJson(500, FailedMessage))
    case Body(plant, characteristics) =>
      if !ValidRequest(plant, characteristics) then Respond(ErrorJson(400, RequiredMessage))
      else
        match PlantPrompts(plant.value)
        case None => Respond(ErrorJson(500, FailedMessage))
        case Some(prompt) =>
          if !Truthy(env.apiKey) then Respond(ErrorJson(500, KeyMissingMessage))
          else SendTts(TtsRequestFor(prompt, characteristics.value, env))
  }

  /**
   * The response for the service's outcome: the audio bytes unchanged with
   * their length as `Content-Length`, or the generic failure, which does not
   * reveal the upstream status.
   */
  function Finish(outcome: TtsOutcome): (r: Response)
    ensures outcome.TtsFailed? ==> r == ErrorJson(500, FailedMessage)
    ensures outcome.TtsOk? ==>
      && r.Audio? && r.status == 200 && r.body == outcome.audio && r.contentType == AudioMpeg
      && AllDigits(r.contentLength) && DecimalValue(r.contentLength) == |outcome.audio|
  {
    match outcome
    case TtsFailed => ErrorJson(500, FailedMessage)
    case TtsOk(audio) =>
      DecimalRoundTrip(|audio|);
      Audio(200, audio, AudioMpeg, DecimalString(|audio|))
  }

  /** `POST`: the handler as a whole, given the text-to-speech service. */
  function Post(body: RequestBody, env: Env, tts: TtsRequest -> TtsOutcome): Response
  {
    match Prepare(body, env)
    case Respond(r) => r
    case SendTts(request) => Finish(tts(request))
  }

  /**
   * A response decided before the network call does not depend on the
   * service: the handler made no call. This covers the 400, the unknown plant
   * and the missing key.
   */
  lemma NoCallWhenAnsweredEarly(body: RequestBody, env: Env, f: TtsRequest -> TtsOutcome, g: TtsRequest -> TtsOutcome)
    requires Prepare(body, env).Respond?
    ensures Post(body, env, f) == Post(body, env, g) == Prepare(body, env).response
  {
  }

  /**
   * The status codes of the handler: 400 exactly for a body that fails
   * validation; 200 exactly when the body is valid, the plant known, the key
   * present and the service answered with audio; 500 in every other case.
   */
  lemma StatusCodes(body: RequestBody, env: Env, tts: TtsRequest -> TtsOutcome)
    ensures var r := Post(body, env, tts);
            && (r.status == 400 <==> body.Body? && !ValidRequest(body.plant, body.characteristics))
            && (r.status == 200 <==>
                  body.Body? && ValidRequest(body.plant, body.characteristics)
                  && PlantPrompts(body.plant.value).Some? && Truthy(env.apiKey)
                  && tts(Prepare(body, env).request).TtsOk?)
            && (r.status == 400 || r.status == 200 || r.status == 500)
  {
  }

  /**
   * A successful response carries exactly the bytes the service returned for
   * the composed script, as `audio/mpeg`, and its `Content-Length` reads back as
   * their number.
   */
  lemma SuccessCarriesServiceAudio(body: RequestBody, env: Env, tts: TtsRequest -> TtsOutcome)
    requires Post(body, env, tts).Audio?
    ensures body.Body? && ValidRequest(body.plant, body.characteristics)
    ensures PlantPrompts(body.plant.value).Some? && Truthy(env.apiKey)
    ensures var request := TtsRequestFor(PlantPrompts(body.plant.value).value, body.characteristics.value, env);
            var r := Post(body, env, tts);
            && tts(request) == TtsOk(r.body)
            && r.contentType == AudioMpeg
            && AllDigits(r.contentLength) && DecimalValue(r.contentLength) == |r.body|
  {
  }

  /**
   * "ceibo", which the avatar page offers, is not in the plant table: every
   * valid request for it ends in the generic 500, whatever the environment and
   * the service do.
   */
  lemma CeiboAlwaysFails(chars: seq<string>, env: Env, tts: TtsRequest -> TtsOutcome)
    requires |chars| > 0
    ensures Post(Body(Some("ceibo"), Some(chars)), env, tts) == ErrorJson(500, FailedMessage)
  {
  }
}
