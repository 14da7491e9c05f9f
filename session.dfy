/** The shared application state (`AppState`): session, profile and health
    lists, and the mutators the screens call. `Date()` is the parameter `now`;
    the one-second delay of `loadUserData` is a pending count consumed by
    `CompleteLoadUserData`; `LocationManager.shared.startUpdatingLocation()` is
    counted, not modelled. */
module Session {
  import opened Models

  /** The editable profile shown on the profile screen. */
  datatype UserProfile = UserProfile(
    name: string, email: string, birthDate: Timestamp,
    bloodType: string, allergies: string, emergencyContact: string)

  /** The published fields of the state, as one value, so that a mutator can
      say which of them it changes and that the rest stay as they were. */
  datatype Published = Published(
    currentUser: Option<User>, isLoggedIn: bool, selectedTab: int, showEmergencyAlert: bool,
    medicalHistory: seq<MedicalRecord>, medicationReminders: seq<Reminder>,
    appointments: seq<Appointment>, wellnessLog: seq<WellnessEntry>,
    isVoiceAssistantActive: bool, userProfile: UserProfile)

  /** The profile every launch starts with. */
  function DefaultProfile(now: Timestamp): (p: UserProfile)
    ensures p.name == "Usuario" && p.email == "usuario@ejemplo.com" && p.bloodType == "Desconocido"
    ensures p.allergies == [] && p.emergencyContact == [] && p.birthDate == now
  {
    UserProfile("Usuario", "usuario@ejemplo.com", now, "Desconocido", "", "")
  }

  /** The user the simulated login installs. */
  function MockUser(): (u: User)
    ensures u.role == Senior && |u.emergencyContacts| == 2
  {
    User("1", "Carlos Ramírez", 72, Senior, [
      Contact("1", "María Ramírez", "+34600123456", "Hija"),
      Contact("2", "Dr. Hernández", "+34600789012", "Médico")])
  }

  /** The two medical records of the simulated login: one from today, one
      from ninety days (7 776 000 seconds) earlier. */
  function MockRecords(now: Timestamp): (rs: seq<MedicalRecord>)
    ensures |rs| == 2 && rs[0].date == now && rs[1].date < now
  {
    [MedicalRecord("1", now, "Revisión anual", "Resultados normales",
       "Buen estado, con dolor de garganta", "Ibuprofeno", "Salir a caminar", true),
     MedicalRecord("2", now - 7776000, "Análisis de sangre", "Resultados normales",
       "Dolor de estomago y cansancio", "Berocca y Paracetamol",
       "Hacer ejercio areobico y de fuerza diario", true)]
  }

  /** The two daily reminders of the simulated login, due in one hour and in
      eighteen hours. */
  function MockReminders(now: Timestamp): (rs: seq<Reminder>)
    ensures |rs| == 2 && rs[0].time < rs[1].time
  {
    [NewReminder("1", "Enalapril", "1 pastilla", now + 3600, true),
     NewReminder("2", "Simvastatina", "1 pastilla", now + 64800, true)]
  }

  /** The profile's emergency-contact line, "<name> - <phone>". */
  function ContactLine(c: Contact): (line: string)
    ensures |line| == |c.name| + 3 + |c.phone|
    ensures line[..|c.name|] == c.name && line[|c.name|..|c.name| + 3] == " - "
    ensures line[|c.name| + 3..] == c.phone
  {
    c.name + " - " + c.phone
  }

  /** `currentUser?.emergencyContacts.first`. */
  function PrimaryContact(user: Option<User>): (r: Option<Contact>)
    ensures r.Some? <==> user.Some? && user.value.emergencyContacts != []
    ensures r.Some? ==> r.value == user.value.emergencyContacts[0]
  {
    if user.Some? && user.value.emergencyContacts != [] then Some(user.value.emergencyContacts[0]) else None
  }

  // ---------------------------------------------------------------------------
  // Facts about the simulated login data

  /** The simulated user is a senior with two contacts of distinct ids, the
      first of which is the daughter. */
  lemma MockUserContacts()
    ensures var u := MockUser();
      u.role == Senior && |u.emergencyContacts| == 2 &&
      u.emergencyContacts[0].id != u.emergencyContacts[1].id &&
      u.emergencyContacts[0].relation == "Hija"
  {
  }

  /** Both simulated reminders are daily, not yet completed, due after `now`,
      listed in the order they fall due, and have distinct ids. */
  lemma MockRemindersPending(now: Timestamp)
    ensures var rs := MockReminders(now);
      |rs| == 2 &&
      (forall i :: 0 <= i < |rs| ==> rs[i].isDaily && !rs[i].isCompleted && rs[i].time > now) &&
      rs[0].time < rs[1].time && rs[0].id != rs[1].id
  {
  }

  /** Both simulated records carry an attachment, are listed newest first, and
      have distinct ids. */
  lemma MockRecordsNewestFirst(now: Timestamp)
    ensures var rs := MockRecords(now);
      |rs| == 2 && rs[0].hasAttachment && rs[1].hasAttachment &&
      rs[1].date < rs[0].date && rs[0].date == now && rs[0].id != rs[1].id
  {
  }

  /** After the simulated login the profile's contact line names the daughter. */
  lemma MockContactLine()
    ensures ContactLine(MockUser().emergencyContacts[0]) == "María Ramírez - +34600123456"
  {
  }

  class AppState {
    var currentUser: Option<User>
    var isLoggedIn: bool
    var selectedTab: int
    var showEmergencyAlert: bool
    var medicalHistory: seq<MedicalRecord>
    var medicationReminders: seq<Reminder>
    var appointments: seq<Appointment>
    var wellnessLog: seq<WellnessEntry>
    var isVoiceAssistantActive: bool
    var userProfile: UserProfile
    /** Completions of `loadUserData` scheduled and not run yet. */
    var pendingLoads: nat
    /** How many times location updates were requested. */
    var locationRequests: nat

    function Snapshot(): Published
      reads this
    {
      Published(currentUser, isLoggedIn, selectedTab, showEmergencyAlert, medicalHistory,
        medicationReminders, appointments, wellnessLog, isVoiceAssistantActive, userProfile)
    }

    /** The session is logged in exactly when there is a current user, and the
        profile carries that user's name. */
    ghost predicate Valid()
      reads this
    {
      (isLoggedIn <==> currentUser.Some?) &&
      (currentUser.Some? ==> currentUser.value.name == userProfile.name)
    }

    /** A fresh state: logged out, no user, empty lists, alert hidden, the
        default profile. */
    constructor (now: Timestamp)
      ensures Valid()
      ensures Snapshot() == Published(None, false, 0, false, [], [], [], [], false, DefaultProfile(now))
      ensures pendingLoads == 0 && locationRequests == 0
    {
      currentUser := None;
      isLoggedIn := false;
      selectedTab := 0;
      showEmergencyAlert := false;
      medicalHistory := [];
      medicationReminders := [];
      appointments := [];
      wellnessLog := [];
      isVoiceAssistantActive := false;
      userProfile := DefaultProfile(now);
      pendingLoads := 0;
      locationRequests := 0;
    }

    /** `loadUserData()`: schedules the simulated login and changes nothing else. */
    method LoadUserData()
      requires Valid()
      modifies this`pendingLoads
      ensures Valid() && pendingLoads == old(pendingLoads) + 1
    {
      pendingLoads := pendingLoads + 1;
    }

    /** The scheduled body of `loadUserData()`: installs the simulated user,
        records and reminders, copies the user's name and first contact into
        the profile and logs in. Appointments, the wellness log and the other
        profile fields are left as they were. */
    method CompleteLoadUserData(now: Timestamp)
      requires Valid() && pendingLoads > 0
      modifies this`currentUser, this`medicalHistory, this`medicationReminders,
        this`userProfile, this`isLoggedIn, this`pendingLoads
      ensures Valid()
      ensures pendingLoads == old(pendingLoads) - 1
      ensures currentUser == Some(MockUser()) && isLoggedIn
      ensures medicalHistory == MockRecords(now) && medicationReminders == MockReminders(now)
      ensures userProfile == old(userProfile).(
        name := MockUser().name, emergencyContact := ContactLine(MockUser().emergencyContacts[0]))
      ensures selectedTab == old(selectedTab) && showEmergencyAlert == old(showEmergencyAlert)
      ensures appointments == old(appointments) && wellnessLog == old(wellnessLog)
      ensures isVoiceAssistantActive == old(isVoiceAssistantActive)
    {
      pendingLoads := pendingLoads - 1;
      currentUser := Some(MockUser());
      medicalHistory := MockRecords(now);
      medicationReminders := MockReminders(now);
      if currentUser.Some? {
        var user := currentUser.value;
        userProfile := userProfile.(name := user.name);
        if user.emergencyContacts != [] {
          userProfile := userProfile.(emergencyContact := ContactLine(user.emergencyContacts[0]));
        }
      }
      isLoggedIn := true;
    }

    /** `updateProfile(...)`: overwrites the six profile fields and renames the
        current user, if there is one, keeping the user's other fields. */
    method UpdateProfile(name: string, email: string, birthDate: Timestamp,
                         bloodType: string, allergies: string, emergencyContact: string)
      requires Valid()
      modifies this`userProfile, this`currentUser
      ensures Valid()
      ensures userProfile == UserProfile(name, email, birthDate, bloodType, allergies, emergencyContact)
      ensures currentUser.Some? <==> old(currentUser).Some?
      ensures currentUser.Some? ==> currentUser.value == old(currentUser).value.(name := name)
      ensures Snapshot() == old(Snapshot()).(currentUser := currentUser, userProfile := userProfile)
    {
      userProfile := userProfile.(name := name);
      userProfile := userProfile.(email := email);
      userProfile := userProfile.(birthDate := birthDate);
      userProfile := userProfile.(bloodType := bloodType);
      userProfile := userProfile.(allergies := allergies);
      userProfile := userProfile.(emergencyContact := emergencyContact);
      if currentUser.Some? {
        var user := currentUser.value;
        user := user.(name := name);
        currentUser := Some(user);
      }
    }

    /** `logout()`: logs out and forgets the user; the profile and every list
        are kept. */
    method Logout()
      requires Valid()
      modifies this`isLoggedIn, this`currentUser
      ensures Valid()
      ensures Snapshot() == old(Snapshot()).(isLoggedIn := false, currentUser := None)
    {
      isLoggedIn := false;
      currentUser := None;
    }

    /** `activateEmergency()`: shows the emergency alert and starts location
        updates; `called` is the primary contact the source announces it is
        calling, if the user has one. */
    method ActivateEmergency() returns (called: Option<Contact>)
      requires Valid()
      modifies this`showEmergencyAlert, this`locationRequests
      ensures Valid()
      ensures Snapshot() == old(Snapshot()).(showEmergencyAlert := true)
      ensures locationRequests == old(locationRequests) + 1
      ensures called == PrimaryContact(currentUser)
    {
      showEmergencyAlert := true;
      called := PrimaryContact(currentUser);
      locationRequests := locationRequests + 1;
    }
  }
}
