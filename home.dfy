/** The home screen (`HomeView`): the greeting chosen by the hour of the day,
    the user's name under it, and the reminder cards with their own
    completion flag. The hour is a parameter in place of the clock. */
module Home {
  import opened Models
  import Health

  const Morning: string := "Buenos días"
  const Afternoon: string := "Buenas tardes"
  const Evening: string := "Buenas noches"

  /** The greeting for an hour of the day: morning before 12, afternoon
      before 19, evening from 19 on. */
  function Greeting(hour: int): (g: string)
    ensures g == Morning <==> hour < 12
    ensures g == Afternoon <==> 12 <= hour < 19
    ensures g == Evening <==> 19 <= hour
  {
    GreetingsDistinct();
    if hour < 12 then Morning else if hour < 19 then Afternoon else Evening
  }

  /** The three greetings differ. */
  lemma GreetingsDistinct()
    ensures Morning != Afternoon && Morning != Evening && Afternoon != Evening
  {
    assert |Morning| == 11 && |Afternoon| == 13;
    assert Afternoon[7] == 't' && Evening[7] == 'n';
  }

  /** Over one day the greeting never goes back: once the afternoon greeting
      has been shown the morning one does not return, and likewise for the
      evening one. */
  lemma GreetingMonotone(h1: int, h2: int)
    requires h1 <= h2
    ensures Greeting(h1) == Afternoon ==> Greeting(h2) != Morning
    ensures Greeting(h1) == Evening ==> Greeting(h2) == Evening
  {
  }

  /** The header lines: the greeting, then the user's name when there is a
      current user. */
  function Header(hour: int, user: Option<User>): (lines: seq<string>)
    ensures |lines| == (if user.Some? then 2 else 1)
    ensures lines[0] == Greeting(hour)
    ensures user.Some? ==> lines[1] == user.value.name
  {
    [Greeting(hour)] + (if user.Some? then [user.value.name] else [])
  }

  /** The home screen's `ReminderCard`: unlike the health screen's card, its
      flag starts cleared whatever the reminder says. */
  class ReminderCard {
    const reminder: Reminder
    var isCompleted: bool

    constructor (reminder: Reminder)
      ensures this.reminder == reminder && !isCompleted
    {
      this.reminder := reminder;
      isCompleted := false;
    }

    /** The check button flips the card's flag; the reminder is untouched. */
    method Toggle()
      modifies this`isCompleted
      ensures isCompleted == !old(isCompleted)
    {
      isCompleted := !isCompleted;
    }
  }

  /** For a reminder already marked completed, the home card and the health
      card of the same reminder open showing different states. */
  method CardsDisagreeOnCompleted(reminder: Reminder) returns (home: ReminderCard, health: Health.MedicationReminderCard)
    requires reminder.isCompleted
    ensures fresh(home) && fresh(health)
    ensures !home.isCompleted && health.isCompleted
  {
    home := new ReminderCard(reminder);
    health := new Health.MedicationReminderCard(reminder);
  }
}
