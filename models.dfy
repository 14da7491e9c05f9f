/** The record and enum types of the application. A `Date` is an opaque
    timestamp (seconds); a record's `id` is its `Identifiable` identity. */
module Models {

  type Timestamp = int

  /** Swift's `Optional`. */
  datatype Option<T> = None | Some(value: T)

  datatype UserRole = Senior | Caregiver

  datatype Contact = Contact(id: string, name: string, phone: string, relation: string)

  datatype User = User(id: string, name: string, age: int, role: UserRole, emergencyContacts: seq<Contact>)

  datatype MedicalRecord = MedicalRecord(
    id: string, date: Timestamp, title: string, details: string,
    diagnosis: string, medications: string, notes: string, hasAttachment: bool)

  datatype Reminder = Reminder(
    id: string, title: string, description: string, time: Timestamp,
    isDaily: bool, isCompleted: bool)

  datatype Appointment = Appointment(
    id: string, title: string, doctor: string, location: string, date: Timestamp, notes: string)

  /** `mood` is documented as a score in 1..5, `exercise` as minutes. */
  datatype WellnessEntry = WellnessEntry(
    id: string, date: Timestamp, mood: int, exercise: int, meals: seq<Meal>, notes: string)

  datatype Meal = Meal(id: string, name: string, time: Timestamp, foodItems: seq<string>)

  datatype GameType = Memory | Logic | Language

  /** `difficulty` is documented as 1..5; the Swift field `type` is `gameType` here. */
  datatype CognitiveGame = CognitiveGame(
    id: string, name: string, description: string, difficulty: int, gameType: GameType)

  /** The memberwise initialiser of `Reminder`, with `isCompleted` left at its default. */
  function NewReminder(id: string, title: string, description: string, time: Timestamp, isDaily: bool): (r: Reminder)
    ensures !r.isCompleted
    ensures r.id == id && r.title == title && r.description == description
    ensures r.time == time && r.isDaily == isDaily
  {
    Reminder(id, title, description, time, isDaily, false)
  }

  /** The documented range of `WellnessEntry.mood` and `CognitiveGame.difficulty`. */
  predicate InOneToFive(n: int)
  {
    1 <= n <= 5
  }

  // ---------------------------------------------------------------------------
  // Rows of icons

  /** The positions of a row of icons (drops, stars) that are drawn filled. */
  ghost function FilledPositions(row: seq<bool>): set<int>
  {
    set i | 0 <= i < |row| && row[i]
  }

  /** How many icons of a row are drawn filled. */
  function CountSet(row: seq<bool>): (n: nat)
    ensures n == |FilledPositions(row)|
    ensures n <= |row|
  {
    if row == [] then 0
    else
      FilledPositionsSnoc(row);
      CountSet(row[..|row| - 1]) + (if row[|row| - 1] then 1 else 0)
  }

  /** The filled positions of a row are those of the row without its last
      icon, plus the last position when that icon is filled. */
  lemma FilledPositionsSnoc(row: seq<bool>)
    requires row != []
    ensures |row| - 1 !in FilledPositions(row[..|row| - 1])
    ensures FilledPositions(row) == FilledPositions(row[..|row| - 1])
      + (if row[|row| - 1] then {|row| - 1} else {})
  {
    var init := row[..|row| - 1];
    forall i | i in FilledPositions(row)
      ensures i in FilledPositions(init) + (if row[|row| - 1] then {|row| - 1} else {})
    {
      if i < |row| - 1 {
        assert init[i] == row[i];
      }
    }
  }

  /** In a row whose first k icons are filled and the rest clear, exactly k
      are filled. */
  lemma {:induction false} CountSetOfPrefix(row: seq<bool>, k: nat)
    requires k <= |row|
    requires forall i :: 0 <= i < |row| ==> row[i] == (i < k)
    ensures CountSet(row) == k
  {
    if row != [] {
      var init := row[..|row| - 1];
      if k == |row| {
        CountSetOfPrefix(init, k - 1);
      } else {
        CountSetOfPrefix(init, k);
      }
    }
  }

  /** Every game type, once each. */
  function AllGameTypes(): (r: seq<GameType>)
    ensures |r| == 3
    ensures Memory in r && Logic in r && Language in r
    ensures forall i, j :: 0 <= i < j < |r| ==> r[i] != r[j]
  {
    [Memory, Logic, Language]
  }

  /** Every user role, once each. */
  function AllUserRoles(): (r: seq<UserRole>)
    ensures |r| == 2
    ensures Senior in r && Caregiver in r
    ensures r[0] != r[1]
  {
    [Senior, Caregiver]
  }
}

/** The SwiftUI colours the screens choose between. */
module Palette {
  datatype Color = Red | Blue | Green | Yellow | Purple | Orange | Gray
}
