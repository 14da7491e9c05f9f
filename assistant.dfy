/** The voice assistant panel: the keyword responder `generateResponse`, and the
    panel state (`message`, `isListening`, `messages`, `isProcessing`) that
    `sendMessage`, `toggleVoiceRecording` and their delayed closures update. */
module Assistant {
  import opened Text

  const MedicationReply: string :=
    "Tienes un recordatorio para tomar Enalapril a las 8:00 AM y Aspirina a las 8:00 PM todos los días."
  const AppointmentReply: string :=
    "Tu próxima cita médica es con el Dr. Martínez el 15 de abril a las 10:00 AM en la Clínica San Rafael."
  const ExerciseReply: string :=
    "Según tu plan de bienestar, hoy deberías realizar 30 minutos de caminata y ejercicios de estiramiento. ¿Te gustaría que te muestre los ejercicios recomendados?"
  const SympathyReply: string :=
    "Lamento que no te sientas bien. ¿Puedes decirme qué síntomas tienes? Puedo ayudarte a contactar a tu médico o a un servicio de emergencia si es necesario."
  const HelpReply: string :=
    "Estoy aquí para ayudarte con información sobre tus medicamentos, citas médicas, ejercicios recomendados y más. ¿Puedes ser más específico con tu pregunta?"

  /** The text the simulated speech recogniser puts in the input field. */
  const VoicePrompt: string := "¿Cuándo es mi próxima cita médica?"

  /** The five replies the responder can give; the help text is the last. */
  function CannedReplies(): (r: seq<string>)
    ensures |r| == 5 && r[4] == HelpReply
  {
    [MedicationReply, AppointmentReply, ExerciseReply, SympathyReply, HelpReply]
  }

  // The four keyword rules, each over the lower-cased query.
  predicate MentionsMedication(lower: string)
    ensures MentionsMedication(lower) ==> |lower| >= 8
  {
    Contains(lower, "medicamento") || Contains(lower, "medicina")
  }

  predicate MentionsAppointment(lower: string)
    ensures MentionsAppointment(lower) ==> |lower| >= 4
  {
    Contains(lower, "cita")
  }

  predicate MentionsExercise(lower: string)
    ensures MentionsExercise(lower) ==> |lower| >= 9
  {
    Contains(lower, "ejercicio") || Contains(lower, "actividad")
  }

  predicate MentionsFeelingUnwell(lower: string)
    ensures MentionsFeelingUnwell(lower) ==> |lower| >= 6
  {
    Contains(lower, "sentir") && Contains(lower, "mal")
  }

  /** `generateResponse(to:)`: the first rule that fires on the lower-cased query
      chooses the reply; the help text when none fires. */
  function GenerateResponse(query: string): (r: string)
    ensures r in CannedReplies()
  {
    var lower := Lowercased(query);
    if MentionsMedication(lower) then MedicationReply
    else if MentionsAppointment(lower) then AppointmentReply
    else if MentionsExercise(lower) then ExerciseReply
    else if MentionsFeelingUnwell(lower) then SympathyReply
    else HelpReply
  }

  /** The send button is enabled, and `sendMessage` proceeds, exactly when the
      input holds a character that is not whitespace. */
  function SendEnabled(message: string): (r: bool)
    ensures r <==> exists i :: 0 <= i < |message| && !IsWhitespace(message[i])
  {
    !IsBlank(message)
  }

  // ---------------------------------------------------------------------------
  // Properties of the responder

  lemma CannedRepliesDistinct()
    ensures forall i, j :: 0 <= i < j < |CannedReplies()| ==> CannedReplies()[i] != CannedReplies()[j]
  {
    var r := CannedReplies();
    assert |r[0]| != |r[1]| && |r[0]| != |r[2]| && |r[0]| != |r[3]| && |r[0]| != |r[4]|;
    assert |r[1]| != |r[2]| && |r[1]| != |r[3]| && |r[1]| != |r[4]|;
    assert |r[2]| != |r[3]| && |r[2]| != |r[4]|;
    assert SympathyReply[|SympathyReply| - 1] == '.' && HelpReply[|HelpReply| - 1] == '?';
  }

  /** Which reply a query gets, as a strict precedence of the four rules, in
      both directions: a reply is given exactly when its rule fires and no
      earlier rule does. */
  lemma ResponsePrecedence(query: string)
    ensures var lower := Lowercased(query);
      && (GenerateResponse(query) == MedicationReply <==> MentionsMedication(lower))
      && (GenerateResponse(query) == AppointmentReply <==>
            !MentionsMedication(lower) && MentionsAppointment(lower))
      && (GenerateResponse(query) == ExerciseReply <==>
            !MentionsMedication(lower) && !MentionsAppointment(lower) && MentionsExercise(lower))
      && (GenerateResponse(query) == SympathyReply <==>
            !MentionsMedication(lower) && !MentionsAppointment(lower) && !MentionsExercise(lower)
            && MentionsFeelingUnwell(lower))
      && (GenerateResponse(query) == HelpReply <==>
            !MentionsMedication(lower) && !MentionsAppointment(lower) && !MentionsExercise(lower)
            && !MentionsFeelingUnwell(lower))
  {
    CannedRepliesDistinct();
    assert CannedReplies()[0] == MedicationReply && CannedReplies()[4] == HelpReply;
  }

  /** Matching ignores case: the reply depends only on the lower-cased query. */
  lemma ResponseIgnoresCase(query: string)
    ensures GenerateResponse(Lowercased(query)) == GenerateResponse(query)
  {
    LowercasedIdempotent(query);
  }

  /** A medication keyword wins over every other keyword, in any capitalisation:
      if the query contains a word that lower-cases to "medicamento" or
      "medicina", the medication reply is given. */
  lemma MedicationKeywordWins(query: string, word: string)
    requires Contains(query, word)
    requires Lowercased(word) == "medicamento" || Lowercased(word) == "medicina"
    ensures GenerateResponse(query) == MedicationReply
  {
    ContainsLowercased(query, word);
  }

  /** A query containing "cita" in any capitalisation and no medication keyword
      gets the appointment reply, whatever later rules would also match. */
  lemma AppointmentKeywordWins(query: string, word: string)
    requires Contains(query, word) && Lowercased(word) == "cita"
    requires !MentionsMedication(Lowercased(query))
    ensures GenerateResponse(query) == AppointmentReply
  {
    ContainsLowercased(query, word);
  }
}

/** Concrete queries and the replies they get. */
module AssistantExamples {
  import opened Text
  import opened Assistant

  /** "hola" matches no rule and gets the help text. */
  lemma GreetingGetsHelp()
    ensures GenerateResponse("hola") == HelpReply
  {
    var q := "hola";
    LowercasedUnchanged(q);
    NoRuleFires(q);
  }

  /** "Me siento mal" (the label of the emergency button) does not contain
      "sentir", so typed into the assistant in any capitalisation it gets the
      help text, not the sympathy reply. */
  lemma SientoMalGetsHelp(query: string)
    requires Lowercased(query) == "me siento mal"
    ensures GenerateResponse(query) == HelpReply
  {
    SientoMalMatchesNoRule();
  }

  lemma SientoMalMatchesNoRule()
    ensures !MentionsMedication("me siento mal") && !MentionsAppointment("me siento mal")
    ensures !MentionsExercise("me siento mal") && !MentionsFeelingUnwell("me siento mal")
  {
    NoRuleFires("me siento mal");
  }

  /** Keyword-free text (checked character by character) matches no rule, so
      every query that lower-cases to it gets the help text. */
  lemma NoRuleFires(lower: string)
    requires 'd' !in lower && 'c' !in lower && 'j' !in lower && 'v' !in lower && 'r' !in lower
    ensures !MentionsMedication(lower) && !MentionsAppointment(lower)
    ensures !MentionsExercise(lower) && !MentionsFeelingUnwell(lower)
    ensures forall q :: Lowercased(q) == lower ==> GenerateResponse(q) == HelpReply
  {
    MissingCharNotContained(lower, "medicamento", 2);
    MissingCharNotContained(lower, "medicina", 2);
    MissingCharNotContained(lower, "cita", 0);
    MissingCharNotContained(lower, "ejercicio", 1);
    MissingCharNotContained(lower, "actividad", 4);
    MissingCharNotContained(lower, "sentir", 5);
  }

  /** The question the simulated speech recogniser fills in, in any
      capitalisation, gets the appointment reply. */
  lemma VoicePromptGetsAppointmentReply(query: string)
    requires Lowercased(query) == "¿cuándo es mi próxima cita médica?"
    ensures GenerateResponse(query) == AppointmentReply
  {
    PromptLacksMedication();
    PromptMentionsAppointment();
  }

  lemma PromptLacksMedication()
    ensures !MentionsMedication("¿cuándo es mi próxima cita médica?")
  {
    MissingPairNotContained("¿cuándo es mi próxima cita médica?", "medicamento");
    MissingPairNotContained("¿cuándo es mi próxima cita médica?", "medicina");
  }

  lemma PromptMentionsAppointment()
    ensures MentionsAppointment("¿cuándo es mi próxima cita médica?")
  {
    PromptAroundCita();
    ContainsPiece("¿cuándo es mi próxima ", "cita", " médica?");
  }

  lemma PromptAroundCita()
    ensures "¿cuándo es mi próxima cita médica?" == "¿cuándo es mi próxima " + "cita" + " médica?"
  {
  }
}
