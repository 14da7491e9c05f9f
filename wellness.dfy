/** The wellness screens: the water-glass counter, the mood picker with its
    label tables, the mood history bars and the meal form's save rule. */
module Wellness {
  import opened Models
  import opened Palette

  // ---------------------------------------------------------------------------
  // Water intake

  const MaxGlasses: int := 8

  /** The row of drop icons for a count: drop `i` is filled exactly when
      `i < glasses`. */
  function DropRow(glasses: int): (row: seq<bool>)
    ensures |row| == MaxGlasses
    ensures forall i :: 0 <= i < MaxGlasses ==> row[i] == (i < glasses)
  {
    seq(MaxGlasses, i => i < glasses)
  }

  /** The number of filled drops equals the counter. */
  lemma FilledDropsMatchCount(glasses: int)
    requires 0 <= glasses <= MaxGlasses
    ensures CountSet(DropRow(glasses)) == glasses
  {
    CountSetOfPrefix(DropRow(glasses), glasses);
  }

  /** `WaterIntakeView`: the glasses drunk today. */
  class WaterIntake {
    var waterGlasses: int

    ghost predicate Valid()
      reads this
    {
      0 <= waterGlasses <= MaxGlasses
    }

    constructor ()
      ensures Valid() && waterGlasses == 4
    {
      waterGlasses := 4;
    }

    /** Tapping drop `index` of the row of eight sets the count to `index + 1`. */
    method TapDrop(index: int)
      requires Valid() && 0 <= index < MaxGlasses
      modifies this
      ensures Valid() && waterGlasses == index + 1
      ensures DropRow(waterGlasses)[index]
    {
      waterGlasses := index + 1;
    }

    /** The minus button: one fewer, but never below zero. */
    method Decrement()
      requires Valid()
      modifies this
      ensures Valid()
      ensures waterGlasses == if old(waterGlasses) > 0 then old(waterGlasses) - 1 else old(waterGlasses)
    {
      if waterGlasses > 0 {
        waterGlasses := waterGlasses - 1;
      }
    }

    /** The plus button: one more, but never above eight. */
    method Increment()
      requires Valid()
      modifies this
      ensures Valid()
      ensures waterGlasses == if old(waterGlasses) < MaxGlasses then old(waterGlasses) + 1 else old(waterGlasses)
    {
      if waterGlasses < MaxGlasses {
        waterGlasses := waterGlasses + 1;
      }
    }
  }

  // ---------------------------------------------------------------------------
  // Mood

  /** The SF Symbol of a mood score; any score outside 1..5 falls back to the
      neutral face. */
  function MoodIcon(index: int): (icon: string)
    ensures icon == "face.dashed" <==> index !in {1, 2, 4, 5}
  {
    match index
    case 1 => "face.smiling.inverse"
    case 2 => "face.smiling"
    case 3 => "face.dashed"
    case 4 => "face.concerned"
    case 5 => "face.scowling"
    case _ => "face.dashed"
  }

  /** The caption of a mood score; any score outside 1..5 reads "Normal". */
  function MoodText(index: int): (caption: string)
    ensures caption == "Normal" <==> index !in {1, 2, 4, 5}
  {
    match index
    case 1 => "Muy bien"
    case 2 => "Bien"
    case 3 => "Normal"
    case 4 => "Mal"
    case 5 => "Muy mal"
    case _ => "Normal"
  }

  /** The bar colour of a mood score in the history chart. */
  function MoodColor(value: int): (c: Color)
    ensures c == Gray <==> !(1 <= value <= 5)
  {
    match value
    case 1 => Green
    case 2 => Blue
    case 3 => Yellow
    case 4 => Orange
    case 5 => Red
    case _ => Gray
  }

  /** The five scores have five different icons, captions and colours. */
  lemma MoodTablesDistinct(i: int, j: int)
    requires 1 <= i <= 5 && 1 <= j <= 5 && i != j
    ensures MoodIcon(i) != MoodIcon(j)
    ensures MoodText(i) != MoodText(j)
    ensures MoodColor(i) != MoodColor(j)
  {
    assert |MoodIcon(1)| == 20 && |MoodIcon(2)| == 12 && |MoodIcon(3)| == 11;
    assert |MoodIcon(4)| == 14 && |MoodIcon(5)| == 13;
    assert |MoodText(1)| == 8 && |MoodText(2)| == 4 && |MoodText(3)| == 6;
    assert |MoodText(4)| == 3 && |MoodText(5)| == 7;
  }

  /** Outside 1..5 the icon and caption are those of score 3, while the
      colour is gray, which no score in 1..5 has. */
  lemma MoodFallbacks(i: int)
    requires !(1 <= i <= 5)
    ensures MoodIcon(i) == MoodIcon(3) && MoodText(i) == MoodText(3)
    ensures MoodColor(i) == Gray
    ensures forall k :: 1 <= k <= 5 ==> MoodColor(k) != Gray
  {
  }

  /** The scores drawn by the mood history chart for the last seven days. */
  const MoodHistory: seq<int> := [3, 4, 3, 2, 2, 1, 3]

  /** Every bar of the history chart has a score in 1..5, so none is gray. */
  lemma MoodHistoryInRange()
    ensures |MoodHistory| == 7
    ensures forall k :: 0 <= k < |MoodHistory| ==> 1 <= MoodHistory[k] <= 5 && MoodColor(MoodHistory[k]) != Gray
  {
  }

  /** `MoodView`: the selected score and the free-text notes. */
  class MoodPicker {
    var selectedMood: int
    var notes: string

    ghost predicate Valid()
      reads this
    {
      1 <= selectedMood <= 5
    }

    constructor ()
      ensures Valid() && selectedMood == 3 && notes == []
    {
      selectedMood := 3;
      notes := "";
    }

    /** One of the five face buttons. */
    method Select(index: int)
      requires Valid() && 1 <= index <= 5
      modifies this`selectedMood
      ensures Valid() && selectedMood == index
    {
      selectedMood := index;
    }

    /** The notes editor. */
    method EditNotes(text: string)
      requires Valid()
      modifies this`notes
      ensures Valid() && notes == text
    {
      notes := text;
    }

    /** `saveMoodEntry()`: reports the score and notes (the source prints them
        in place of storing them) and clears the notes; the score is kept. */
    method SaveMoodEntry() returns (mood: int, savedNotes: string)
      requires Valid()
      modifies this`notes
      ensures Valid() && selectedMood == old(selectedMood) && notes == []
      ensures mood == old(selectedMood) && savedNotes == old(notes)
    {
      mood, savedNotes := selectedMood, notes;
      notes := "";
    }
  }

  // ---------------------------------------------------------------------------
  // Meals

  /** "Guardar" of `AddMealView` is enabled exactly when both the name and the
      food list (one comma-separated text) are non-empty. */
  function MealSaveEnabled(mealName: string, foodItems: string): (enabled: bool)
    ensures enabled <==> |mealName| > 0 && |foodItems| > 0
  {
    !(mealName == [] || foodItems == [])
  }
}
