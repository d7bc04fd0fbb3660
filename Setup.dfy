/**
 * The game's level configuration: the five levels, in play order, with the
 * target and power-up scores the application gives them.
 */
module Setup {
  import opened Core
  import opened Aquarium

  /** Target score of each level, by level number. */
  const TargetScores: seq<int32> := [10, 15, 20, 35, 50]

  /** Power-up score threshold of each level, by level number. */
  const PowerUpScores: seq<int32> := [5, 7, 10, 17, 25]

  /** The five levels, numbered 0 to 4, each with its own table and a zero level score. */
  method GameLevels() returns (levels: seq<AquariumLevel>)
    ensures |levels| == 5
    ensures forall i :: 0 <= i < 5 ==> levels[i].Valid()
    ensures forall i :: 0 <= i < 5 ==>
              levels[i].State() ==
              LevelState(i as int32, LevelTables[i], 0, TargetScores[i], PowerUpScores[i])
  {
    var l0 := new AquariumLevel.Level0(0, 10, 5);
    var l1 := new AquariumLevel.Level1(1, 15, 7);
    var l2 := new AquariumLevel.Level2(2, 20, 10);
    var l3 := new AquariumLevel.Level3(3, 35, 17);
    var l4 := new AquariumLevel.Level4(4, 50, 25);
    levels := [l0, l1, l2, l3, l4];
  }
}
