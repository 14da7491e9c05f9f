/** The cognitive-games screen (`CognitiveView`): the built-in games, the
    colours of the featured game's circles, the star row of a game's
    difficulty, and the colour and symbol of each game type. */
module Cognitive {
  import opened Models
  import opened Palette

  /** The three games the screen lists. */
  const Games: seq<CognitiveGame> := [
    CognitiveGame("1", "Memoria Visual", "Ejercita tu memoria con imágenes", 1, Memory),
    CognitiveGame("2", "Puzzle Diario", "Resuelve problemas lógicos", 2, Logic),
    CognitiveGame("3", "Palabras", "Encuentra palabras ocultas", 2, Language)]

  /** The games have distinct ids, difficulties in the documented range 1..5,
      and one game of each type. */
  lemma GamesWellFormed()
    ensures |Games| == 3
    ensures forall i, j :: 0 <= i < j < |Games| ==> Games[i].id != Games[j].id
    ensures forall i :: 0 <= i < |Games| ==> InOneToFive(Games[i].difficulty)
    ensures forall i :: 0 <= i < |Games| ==> Games[i].gameType == AllGameTypes()[i]
  {
    assert Games[0].id[0] == '1' && Games[1].id[0] == '2' && Games[2].id[0] == '3';
  }

  /** The colour of the featured game's circle `index`, cycling through red,
      blue, green and yellow. The source indexes an array with `index % 4`,
      which traps for a negative index. */
  function ColorForIndex(index: int): (c: Color)
    requires 0 <= index
    ensures c in {Red, Blue, Green, Yellow}
  {
    [Red, Blue, Green, Yellow][index % 4]
  }

  /** The colours repeat every four circles ... */
  lemma ColorForIndexPeriodic(index: int)
    requires 0 <= index
    ensures ColorForIndex(index + 4) == ColorForIndex(index)
  {
  }

  /** ... and the four circles drawn are four different colours. */
  lemma FeaturedCirclesDistinct(i: int, j: int)
    requires 0 <= i < 4 && 0 <= j < 4 && i != j
    ensures ColorForIndex(i) != ColorForIndex(j)
  {
  }

  /** The five stars of a game card: star `i` is filled exactly when
      `i < difficulty`. */
  function StarRow(difficulty: int): (row: seq<bool>)
    ensures |row| == 5
    ensures forall i :: 0 <= i < 5 ==> row[i] == (i < difficulty)
  {
    seq(5, i => i < difficulty)
  }

  /** The number of filled stars is the difficulty clamped to 0..5. */
  lemma FilledStars(difficulty: int)
    ensures CountSet(StarRow(difficulty)) ==
      if difficulty < 0 then 0 else if difficulty > 5 then 5 else difficulty
  {
    var k := if difficulty < 0 then 0 else if difficulty > 5 then 5 else difficulty;
    CountSetOfPrefix(StarRow(difficulty), k);
  }

  /** The tint of a game card and of its symbol. */
  function ColorForType(t: GameType): (c: Color)
    ensures c in {Purple, Blue, Green}
  {
    match t
    case Memory => Purple
    case Logic => Blue
    case Language => Green
  }

  /** The SF Symbol of a game card; the brain is reserved for memory games. */
  function IconForType(t: GameType): (icon: string)
    ensures icon == "brain.head.profile" <==> t == Memory
  {
    match t
    case Memory => "brain.head.profile"
    case Logic => "puzzlepiece.fill"
    case Language => "textformat.abc"
  }

  /** Each game type has its own colour and its own symbol. */
  lemma TypeStylesDistinct(s: GameType, t: GameType)
    requires s != t
    ensures ColorForType(s) != ColorForType(t)
    ensures IconForType(s) != IconForType(t)
  {
    assert |IconForType(Memory)| == 18 && |IconForType(Logic)| == 16 && |IconForType(Language)| == 14;
  }
}
