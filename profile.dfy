/** The profile screen: how the profile is displayed, the edit form that copies
    the profile and writes it back through `AppState.updateProfile`, the
    blood-type choices, and the settings sheet. */
module Profile {
  import opened Models
  import Session

  /** The allergies line: "Ninguna" when none were entered, the text otherwise. */
  function AllergiesDisplay(allergies: string): (shown: string)
    ensures allergies == [] ==> shown == "Ninguna"
    ensures allergies != [] ==> shown == allergies
    ensures shown != []
  {
    if allergies == [] then "Ninguna" else allergies
  }

  /** The choices of the blood-type picker, in the order it lists them. */
  const BloodTypes: seq<string> := ["A+", "A-", "B+", "B-", "AB+", "AB-", "O+", "O-", "Desconocido"]

  /** Nine different choices, among them the default profile's "Desconocido",
      so a profile that was never edited shows a choice the picker has. */
  lemma BloodTypesDistinct(now: Timestamp)
    ensures |BloodTypes| == 9
    ensures forall i, j :: 0 <= i < j < |BloodTypes| ==> BloodTypes[i] != BloodTypes[j]
    ensures Session.DefaultProfile(now).bloodType in BloodTypes
  {
    assert BloodTypes[8] == Session.DefaultProfile(now).bloodType;
  }

  /** One edit made in the form: a text field, the date picker or the
      blood-type picker. */
  datatype Edit =
    | SetName(name: string)
    | SetEmail(email: string)
    | SetBirthDate(date: Timestamp)
    | SetBloodType(bloodType: string)
    | SetAllergies(allergies: string)
    | SetEmergencyContact(contact: string)

  /** `EditProfileView`: six fields copied from the shared state when the form
      opens, edited locally, and written back only by "Guardar". */
  class EditProfileForm {
    const app: Session.AppState
    var name: string
    var email: string
    var birthDate: Timestamp
    var bloodType: string
    var allergies: string
    var emergencyContact: string

    /** The form's fields as a profile. */
    function Draft(): Session.UserProfile
      reads this
    {
      Session.UserProfile(name, email, birthDate, bloodType, allergies, emergencyContact)
    }

    /** The form opens with the six fields of the current profile. */
    constructor (app: Session.AppState)
      ensures this.app == app && Draft() == app.userProfile
    {
      this.app := app;
      var profile := app.userProfile;
      name := profile.name;
      email := profile.email;
      birthDate := profile.birthDate;
      bloodType := profile.bloodType;
      allergies := profile.allergies;
      emergencyContact := profile.emergencyContact;
    }

    /** An edit changes the one field it names, and only in the form; the
        blood-type picker offers only the listed choices. */
    method Apply(e: Edit)
      requires e.SetBloodType? ==> e.bloodType in BloodTypes
      modifies this
      ensures Draft() == match e
        case SetName(v) => old(Draft()).(name := v)
        case SetEmail(v) => old(Draft()).(email := v)
        case SetBirthDate(v) => old(Draft()).(birthDate := v)
        case SetBloodType(v) => old(Draft()).(bloodType := v)
        case SetAllergies(v) => old(Draft()).(allergies := v)
        case SetEmergencyContact(v) => old(Draft()).(emergencyContact := v)
    {
      match e
      case SetName(v) => name := v;
      case SetEmail(v) => email := v;
      case SetBirthDate(v) => birthDate := v;
      case SetBloodType(v) => bloodType := v;
      case SetAllergies(v) => allergies := v;
      case SetEmergencyContact(v) => emergencyContact := v;
    }

    /** "Guardar": passes the six fields to `updateProfile`, so the profile
        becomes the form, and the current user, if any, takes the form's name. */
    method Save()
      requires app.Valid()
      modifies app`userProfile, app`currentUser
      ensures app.Valid() && app.userProfile == Draft()
      ensures app.currentUser.Some? <==> old(app.currentUser).Some?
      ensures app.currentUser.Some? ==> app.currentUser.value == old(app.currentUser).value.(name := name)
      ensures app.Snapshot() == old(app.Snapshot()).(currentUser := app.currentUser, userProfile := Draft())
    {
      app.UpdateProfile(name, email, birthDate, bloodType, allergies, emergencyContact);
    }
  }

  /** Opening the form and saving it without an edit leaves every published
      field of the state as it was. */
  method OpenAndSave(app: Session.AppState)
    requires app.Valid()
    modifies app`userProfile, app`currentUser
    ensures app.Valid() && app.Snapshot() == old(app.Snapshot())
  {
    var form := new EditProfileForm(app);
    form.Save();
  }

  /** Opening the form, editing it and cancelling leaves the state as it was:
      "Cancelar" only dismisses the sheet. */
  method EditThenCancel(app: Session.AppState, edits: seq<Edit>)
    requires forall k :: 0 <= k < |edits| && edits[k].SetBloodType? ==> edits[k].bloodType in BloodTypes
    ensures app.Snapshot() == old(app.Snapshot())
  {
    var form := new EditProfileForm(app);
    for k := 0 to |edits|
    {
      form.Apply(edits[k]);
    }
  }

  // ---------------------------------------------------------------------------
  // Settings

  /** The three settings of the settings sheet. */
  class Settings {
    var notificationsEnabled: bool
    var darkModeEnabled: bool
    /** 0 small, 1 medium, 2 large. */
    var fontSize: int

    ghost predicate Valid()
      reads this
    {
      0 <= fontSize <= 2
    }

    /** The stored defaults: notifications on, dark mode off, medium text. */
    constructor ()
      ensures Valid() && notificationsEnabled && !darkModeEnabled && fontSize == 1
    {
      notificationsEnabled := true;
      darkModeEnabled := false;
      fontSize := 1;
    }

    method ToggleNotifications()
      modifies this`notificationsEnabled
      ensures notificationsEnabled == !old(notificationsEnabled)
    {
      notificationsEnabled := !notificationsEnabled;
    }

    method ToggleDarkMode()
      modifies this`darkModeEnabled
      ensures darkModeEnabled == !old(darkModeEnabled)
    {
      darkModeEnabled := !darkModeEnabled;
    }

    /** The segmented picker offers exactly the sizes 0, 1 and 2. */
    method SelectFontSize(size: int)
      requires 0 <= size <= 2
      modifies this`fontSize
      ensures Valid() && fontSize == size
    {
      fontSize := size;
    }
  }

  /** The caption of each font-size segment. */
  function FontSizeLabel(size: int): (caption: string)
    requires 0 <= size <= 2
    ensures size == 1 ==> caption == "Mediano"
  {
    match size
    case 0 => "Pequeño"
    case 1 => "Mediano"
    case 2 => "Grande"
  }

  /** The three segments have different captions. */
  lemma FontSizeLabelsDistinct(i: int, j: int)
    requires 0 <= i <= 2 && 0 <= j <= 2 && i != j
    ensures FontSizeLabel(i) != FontSizeLabel(j)
  {
    assert |FontSizeLabel(0)| == 7 && |FontSizeLabel(1)| == 7 && |FontSizeLabel(2)| == 6;
    assert FontSizeLabel(0)[0] == 'P' && FontSizeLabel(1)[0] == 'M';
  }
}
