/** The health screen: medication reminder cards and their completion flag, the
    save rules of the two entry forms, and which rows the appointment and
    medical-record cards show. */
module Health {
  import opened Models

  // ---------------------------------------------------------------------------
  // Medication reminder card

  /** What a `MedicationReminderCard` draws for a reminder and its local flag. */
  datatype ReminderCardView = ReminderCardView(
    title: string, struckThrough: bool, description: string, showsDaily: bool, checkIcon: string)

  function ReminderCard(reminder: Reminder, isCompleted: bool): (v: ReminderCardView)
    ensures v.title == reminder.title && v.description == reminder.description
    ensures v.struckThrough <==> isCompleted
    ensures v.showsDaily <==> reminder.isDaily
    ensures v.checkIcon == (if isCompleted then "checkmark.circle.fill" else "circle")
  {
    ReminderCardView(reminder.title, isCompleted, reminder.description, reminder.isDaily,
      if isCompleted then "checkmark.circle.fill" else "circle")
  }

  /** `MedicationReminderCard`: a reminder and a completion flag local to the
      card. */
  class MedicationReminderCard {
    const reminder: Reminder
    var isCompleted: bool

    /** The flag starts as the reminder's own `isCompleted`. */
    constructor (reminder: Reminder)
      ensures this.reminder == reminder && isCompleted == reminder.isCompleted
    {
      this.reminder := reminder;
      isCompleted := reminder.isCompleted;
    }

    /** The check button flips the card's flag; the reminder is untouched. */
    method Toggle()
      modifies this`isCompleted
      ensures isCompleted == !old(isCompleted)
    {
      isCompleted := !isCompleted;
    }
  }

  /** Two taps on the check button restore the card. */
  method ToggleTwice(card: MedicationReminderCard)
    modifies card
    ensures card.isCompleted == old(card.isCompleted)
  {
    card.Toggle();
    card.Toggle();
  }

  // ---------------------------------------------------------------------------
  // Entry forms

  /** "Guardar" of `AddReminderView` is enabled exactly when the title is non-empty. */
  function ReminderSaveEnabled(title: string): (enabled: bool)
    ensures enabled <==> |title| > 0
  {
    !(title == [])
  }

  /** "Guardar" of `AddAppointmentView` is enabled exactly when both the title
      and the doctor are non-empty; location and notes may be empty. */
  function AppointmentSaveEnabled(title: string, doctor: string): (enabled: bool)
    ensures enabled <==> |title| > 0 && |doctor| > 0
  {
    !(title == [] || doctor == [])
  }

  // ---------------------------------------------------------------------------
  // Lists and cards

  /** The appointments section: a placeholder, or one card per appointment. */
  datatype AppointmentsSection = NoAppointments | AppointmentCards(cards: seq<Appointment>)

  function AppointmentsSectionOf(appointments: seq<Appointment>): (s: AppointmentsSection)
    ensures s.NoAppointments? <==> appointments == []
    ensures s.AppointmentCards? ==> s.cards == appointments
  {
    if appointments == [] then NoAppointments else AppointmentCards(appointments)
  }

  /** The optional rows a card can show, in the order it shows them. */
  datatype CardRow = Diagnosis(text: string) | Medications(text: string) | Notes(text: string) | Attachment

  /** The rows of a `MedicalRecordCard` below its title and date. */
  function RecordRows(record: MedicalRecord): (rows: seq<CardRow>)
    ensures |rows| <= 4
  {
    (if record.diagnosis != [] then [Diagnosis(record.diagnosis)] else [])
      + (if record.medications != [] then [Medications(record.medications)] else [])
      + (if record.notes != [] then [Notes(record.notes)] else [])
      + (if record.hasAttachment then [Attachment] else [])
  }

  /** Each optional row appears exactly when its field is non-empty (or, for
      the attachment, when the record has one), and every row carries the
      record's own text. */
  lemma RecordRowsShowNonEmptyFields(record: MedicalRecord)
    ensures Diagnosis(record.diagnosis) in RecordRows(record) <==> record.diagnosis != []
    ensures Medications(record.medications) in RecordRows(record) <==> record.medications != []
    ensures Notes(record.notes) in RecordRows(record) <==> record.notes != []
    ensures Attachment in RecordRows(record) <==> record.hasAttachment
    ensures forall r :: r in RecordRows(record) ==> r in RowsFor(record)
  {
    var d := if record.diagnosis != [] then [Diagnosis(record.diagnosis)] else [];
    var m := if record.medications != [] then [Medications(record.medications)] else [];
    var n := if record.notes != [] then [Notes(record.notes)] else [];
    var a := if record.hasAttachment then [Attachment] else [];
    assert RecordRows(record) == d + m + n + a;
  }

  /** The only rows a record can produce. */
  function RowsFor(record: MedicalRecord): set<CardRow>
  {
    {Diagnosis(record.diagnosis), Medications(record.medications), Notes(record.notes), Attachment}
  }

  /** The rows of an `AppointmentCard` below title, doctor, location and time:
      the notes, only when there are some. */
  function AppointmentRows(appointment: Appointment): (rows: seq<CardRow>)
    ensures |rows| <= 1
    ensures rows != [] <==> appointment.notes != []
    ensures rows != [] ==> rows[0] == Notes(appointment.notes)
  {
    if appointment.notes != [] then [Notes(appointment.notes)] else []
  }
}
