/** Level numbering (src/common/circles.ts with src/common/constants.ts): a
 *  game holds five circles of sixteen levels each, and the save file holds
 *  two games. */
module Circles {
  import opened Bytes

  const CirclesPerGame: nat := 5
  const LevelsPerCircle: nat := 16
  const LevelsPerGame: nat := CirclesPerGame * LevelsPerCircle
  const LevelCount: nat := 2 * LevelsPerGame

  /** `getNthLevelOfCircle`: every position of the two games numbers a
   *  level of the save file. */
  function NthLevel(game: int, circle: int, level: int): (r: int)
    ensures 0 <= game < 2 && 0 <= circle < CirclesPerGame && 0 <= level < LevelsPerCircle ==> 0 <= r < LevelCount
  {
    game * LevelsPerGame + circle * LevelsPerCircle + level
  }

  /** `get1stLevelOfCircle`: level 0 of the circle. */
  function FirstLevel(game: int, circle: int): (r: int)
    ensures r == NthLevel(game, circle, 0)
    ensures r % LevelsPerCircle == 0
  {
    NthLevel(game, circle, 0)
  }

  /** `getLastLevelOfCircle`: level 15 of the circle. */
  function LastLevel(game: int, circle: int): (r: int)
    ensures r == NthLevel(game, circle, LevelsPerCircle - 1)
    ensures r - FirstLevel(game, circle) == 15
  {
    NthLevel(game, circle, LevelsPerCircle - 1)
  }

  /** A level's game, circle and place in its circle. */
  datatype Position = Position(game: nat, circle: nat, level: nat)

  predicate InRange(p: Position)
  {
    p.game < 2 && p.circle < CirclesPerGame && p.level < LevelsPerCircle
  }

  /** The inverse of `NthLevel` on the numbering's range. */
  function PositionOf(index: nat): (p: Position)
    requires index < LevelCount
    ensures InRange(p) && NthLevel(p.game, p.circle, p.level) == index
  {
    Position(index / LevelsPerGame, index % LevelsPerGame / LevelsPerCircle, index % LevelsPerCircle)
  }

  /** Distinct in-range positions number distinct levels, so `PositionOf`
   *  recovers the position that was numbered. */
  lemma {:induction false} NthLevelInjective(p: Position)
    requires InRange(p)
    ensures PositionOf(NthLevel(p.game, p.circle, p.level)) == p
  {
    var i := NthLevel(p.game, p.circle, p.level);
    var inGame := p.circle * LevelsPerCircle + p.level;
    assert 0 <= inGame < LevelsPerGame;
    assert i == LevelsPerGame * p.game + inGame;
    assert i / LevelsPerGame == p.game && i % LevelsPerGame == inGame by {
      DivUnique(i, LevelsPerGame, p.game, inGame);
    }
    assert inGame / LevelsPerCircle == p.circle && inGame % LevelsPerCircle == p.level by {
      DivUnique(inGame, LevelsPerCircle, p.circle, p.level);
    }
    assert i % LevelsPerCircle == p.level by {
      DivUnique(i, LevelsPerCircle, p.game * CirclesPerGame + p.circle, p.level);
    }
  }

  /** The circles of a game follow one another without a gap. */
  lemma {:induction false} CirclesContiguous(game: int, circle: int)
    ensures FirstLevel(game, circle + 1) == LastLevel(game, circle) + 1
  {
  }

  /** The numbers the circle tests expect. */
  lemma {:induction false} KnownLevels()
    ensures FirstLevel(1, 0) == 80 && LastLevel(1, 4) == 159 && NthLevel(1, 1, 5) == 101
    ensures FirstLevel(0, 3) == 48 && LastLevel(0, 0) == 15 && NthLevel(0, 0, 0) == 0
  {
  }
}
