/** The emergency alert overlay (`EmergencyAlertView`): the symptom type, the
    three phases selection -> confirmation -> calling that `showConfirmation`
    and `isCallingSOS` select, and the buttons that move between them or hide
    the overlay through `AppState.showEmergencyAlert`. One object lives as long
    as one presentation of the overlay. */
module Emergency {
  import Session

  /** `EmergencyType`, a `String`-backed enum whose raw value is its id. */
  datatype EmergencyType = Discomfort | ChestPain | BreathingDifficulty | Dizziness | Confusion | Other

  /** The Spanish name the picker shows; "Otro" names only `Other`. */
  function RawValue(t: EmergencyType): (raw: string)
    ensures raw == "Otro" <==> t == Other
  {
    match t
    case Discomfort => "Malestar general"
    case ChestPain => "Dolor en el pecho"
    case BreathingDifficulty => "Dificultad para respirar"
    case Dizziness => "Mareo o desmayo"
    case Confusion => "Confusión"
    case Other => "Otro"
  }

  /** `EmergencyType.allCases`, in declaration order: every type once. */
  function AllEmergencyTypes(): (r: seq<EmergencyType>)
    ensures |r| == 6 && r[0] == Discomfort && r[1] == ChestPain && r[2] == BreathingDifficulty
    ensures r[3] == Dizziness && r[4] == Confusion && r[5] == Other
    ensures Discomfort in r && ChestPain in r && BreathingDifficulty in r
    ensures Dizziness in r && Confusion in r && Other in r
    ensures forall i, j :: 0 <= i < j < |r| ==> r[i] != r[j]
  {
    [Discomfort, ChestPain, BreathingDifficulty, Dizziness, Confusion, Other]
  }

  /** Raw values, and so the `Identifiable` ids of the picker rows, are unique. */
  lemma RawValuesDistinct(s: EmergencyType, t: EmergencyType)
    requires s != t
    ensures RawValue(s) != RawValue(t)
  {
    assert |RawValue(Discomfort)| == 16 && |RawValue(ChestPain)| == 17;
    assert |RawValue(BreathingDifficulty)| == 24 && |RawValue(Dizziness)| == 15;
    assert |RawValue(Confusion)| == 9 && |RawValue(Other)| == 4;
  }

  datatype Phase = Selection | Confirmation | Calling

  /** Which view the overlay shows: calling beats confirmation, which beats
      selection. */
  function PhaseOf(isCallingSOS: bool, showConfirmation: bool): (p: Phase)
    ensures p == Calling <==> isCallingSOS
    ensures p == Confirmation <==> !isCallingSOS && showConfirmation
    ensures p == Selection <==> !isCallingSOS && !showConfirmation
  {
    if isCallingSOS then Calling
    else if showConfirmation then Confirmation
    else Selection
  }

  /** The condition under which a tap on the dimmed backdrop hides the overlay. */
  predicate BackdropCloses(isCallingSOS: bool, showConfirmation: bool)
  {
    !isCallingSOS && !showConfirmation
  }

  /** The backdrop closes the overlay exactly in the selection phase. */
  lemma BackdropClosesOnlyInSelection(isCallingSOS: bool, showConfirmation: bool)
    ensures BackdropCloses(isCallingSOS, showConfirmation) <==> PhaseOf(isCallingSOS, showConfirmation) == Selection
  {
  }

  const LocationLine: string := "Ubicación: Se compartirá automáticamente"

  /** The summary lines of the confirmation view: the symptom, a details line
      only when extra information was typed, and the location notice. */
  function ConfirmationSummary(t: EmergencyType, additionalInfo: string): (lines: seq<string>)
    ensures |lines| == (if additionalInfo == [] then 2 else 3)
    ensures lines[0] == "Síntomas: " + RawValue(t)
    ensures additionalInfo != [] ==> lines[1] == "Detalles: " + additionalInfo
    ensures lines[|lines| - 1] == LocationLine
  {
    ["Síntomas: " + RawValue(t)]
      + (if additionalInfo != [] then ["Detalles: " + additionalInfo] else [])
      + [LocationLine]
  }

  class EmergencyAlert {
    /** The shared state whose `showEmergencyAlert` the overlay clears. */
    const app: Session.AppState
    var selectedEmergency: EmergencyType
    var additionalInfo: string
    var isCallingSOS: bool
    var showConfirmation: bool
    /** Five-second closures scheduled by "Llamar" and not run yet. */
    var pendingHangups: nat

    function Phase(): Phase
      reads this
    {
      PhaseOf(isCallingSOS, showConfirmation)
    }

    /** The overlay as it opens: general discomfort, no details, selection. */
    constructor (app: Session.AppState)
      ensures this.app == app
      ensures selectedEmergency == Discomfort && additionalInfo == []
      ensures !isCallingSOS && !showConfirmation && pendingHangups == 0
      ensures Phase() == Selection
    {
      this.app := app;
      selectedEmergency := Discomfort;
      additionalInfo := "";
      isCallingSOS := false;
      showConfirmation := false;
      pendingHangups := 0;
    }

    /** A tap on the backdrop hides the overlay in the selection phase and
        does nothing in the other two. */
    method TapBackdrop()
      modifies app`showEmergencyAlert
      ensures app.showEmergencyAlert == if old(Phase()) == Selection then false else old(app.showEmergencyAlert)
    {
      if !isCallingSOS && !showConfirmation {
        app.showEmergencyAlert := false;
      }
    }

    /** The close button and "Cancelar" of the selection view hide the overlay. */
    method Cancel()
      requires Phase() == Selection
      modifies app`showEmergencyAlert
      ensures !app.showEmergencyAlert
    {
      app.showEmergencyAlert := false;
    }

    /** The symptom picker of the selection view. */
    method Choose(t: EmergencyType)
      requires Phase() == Selection
      modifies this`selectedEmergency
      ensures selectedEmergency == t && Phase() == Selection
    {
      selectedEmergency := t;
    }

    /** The details field of the selection view. */
    method EditAdditionalInfo(text: string)
      requires Phase() == Selection
      modifies this`additionalInfo
      ensures additionalInfo == text && Phase() == Selection
    {
      additionalInfo := text;
    }

    /** "Siguiente": moves to the confirmation view, keeping type and details. */
    method Next()
      requires Phase() == Selection
      modifies this`showConfirmation
      ensures Phase() == Confirmation
    {
      showConfirmation := true;
    }

    /** "Atrás": back to the selection view, keeping type and details. */
    method Back()
      requires Phase() == Confirmation
      modifies this`showConfirmation
      ensures Phase() == Selection
    {
      showConfirmation := false;
    }

    /** "Llamar": enters the calling view, which offers no action, and
        schedules the closure that hides the overlay. */
    method Call()
      requires Phase() == Confirmation
      modifies this`isCallingSOS, this`pendingHangups
      ensures Phase() == Calling && pendingHangups == old(pendingHangups) + 1
    {
      isCallingSOS := true;
      pendingHangups := pendingHangups + 1;
    }

    /** The scheduled closure of "Llamar" runs and hides the overlay. */
    method HangUp()
      requires pendingHangups > 0
      modifies this`pendingHangups, app`showEmergencyAlert
      ensures pendingHangups == old(pendingHangups) - 1 && !app.showEmergencyAlert
      ensures Phase() == old(Phase())
    {
      pendingHangups := pendingHangups - 1;
      app.showEmergencyAlert := false;
    }
  }

  /** Going to the confirmation view and back leaves the overlay as it was. */
  method NextThenBack(alert: EmergencyAlert)
    requires alert.Phase() == Selection
    modifies alert
    ensures alert.Phase() == Selection
    ensures alert.selectedEmergency == old(alert.selectedEmergency)
    ensures alert.additionalInfo == old(alert.additionalInfo)
    ensures alert.isCallingSOS == old(alert.isCallingSOS) && alert.showConfirmation == old(alert.showConfirmation)
  {
    alert.Next();
    alert.Back();
  }
}
