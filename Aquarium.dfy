/**
 * The aquarium layer of the game: the creature kinds, the per-level population
 * script and score thresholds, the player's stats, the arena's configuration
 * and the game scene that keeps the most recent event.
 */
module Aquarium {
  import opened Core

  datatype AquariumCreatureType =
    | NPCreature
    | BiggerFish
    | FastNPCreature
    | NewNemoCreature
    | SharkCreature

  // ---------------------------------------------------------------------
  // Population nodes: how many creatures of one kind a level sustains
  // ---------------------------------------------------------------------

  datatype PopulationNode = PopulationNode(
    creatureType: AquariumCreatureType,
    population: int32,          // the target the level keeps up
    currentPopulation: int32)   // how many are alive now

  /** The level invariant for one node: the live count stays within 0..target. */
  predicate WellFormed(n: PopulationNode) {
    0 <= n.currentPopulation <= n.population
  }

  predicate AllWellFormed(nodes: seq<PopulationNode>) {
    forall i :: 0 <= i < |nodes| ==> WellFormed(nodes[i])
  }

  /** A node for `population` creatures of kind `t`, none of them alive yet. */
  function NewPopulationNode(t: AquariumCreatureType, population: int32): (n: PopulationNode)
    ensures n.creatureType == t && n.population == population
    ensures n.currentPopulation == 0
    ensures WellFormed(n) <==> population >= 0
  {
    PopulationNode(t, population, 0)
  }

  /** The population table with every live count back at zero. */
  function ResetCounts(nodes: seq<PopulationNode>): (r: seq<PopulationNode>)
    ensures |r| == |nodes|
    ensures forall i :: 0 <= i < |r| ==>
              r[i].creatureType == nodes[i].creatureType &&
              r[i].population == nodes[i].population &&
              r[i].currentPopulation == 0
    ensures AllWellFormed(nodes) ==> AllWellFormed(r)
  {
    if nodes == [] then []
    else [nodes[0].(currentPopulation := 0)] + ResetCounts(nodes[1..])
  }

  /** Resetting an already reset table changes nothing. */
  lemma ResetCountsIdempotent(nodes: seq<PopulationNode>)
    ensures ResetCounts(ResetCounts(nodes)) == ResetCounts(nodes)
  {
  }

  /** Every level table of the game, in insertion order. */
  const Level0Population: seq<PopulationNode> :=
    [NewPopulationNode(NPCreature, 8), NewPopulationNode(NewNemoCreature, 4)]
  const Level1Population: seq<PopulationNode> :=
    [NewPopulationNode(NPCreature, 12), NewPopulationNode(NewNemoCreature, 6),
     NewPopulationNode(FastNPCreature, 6)]
  const Level2Population: seq<PopulationNode> :=
    [NewPopulationNode(NPCreature, 30), NewPopulationNode(BiggerFish, 2),
     NewPopulationNode(FastNPCreature, 8)]
  const Level3Population: seq<PopulationNode> :=
    [NewPopulationNode(BiggerFish, 20), NewPopulationNode(FastNPCreature, 20),
     NewPopulationNode(SharkCreature, 6)]
  const Level4Population: seq<PopulationNode> :=
    [NewPopulationNode(BiggerFish, 5), NewPopulationNode(FastNPCreature, 5),
     NewPopulationNode(SharkCreature, 15)]

  const LevelTables: seq<seq<PopulationNode>> :=
    [Level0Population, Level1Population, Level2Population, Level3Population, Level4Population]

  /** Every level table starts with no live creatures and within the node invariant. */
  lemma LevelTablesStartEmpty(k: nat)
    requires k < |LevelTables|
    ensures AllWellFormed(LevelTables[k])
    ensures ResetCounts(LevelTables[k]) == LevelTables[k]
  {
  }

  // ---------------------------------------------------------------------
  // AquariumLevel: population table and score thresholds of one level
  // ---------------------------------------------------------------------

  datatype LevelState = LevelState(
    levelNumber: int32, levelPopulation: seq<PopulationNode>,
    levelScore: int32, targetScore: int32, powerUpScore: int32)

  class AquariumLevel {
    var levelNumber: int32
    var levelPopulation: seq<PopulationNode>
    var levelScore: int32
    var targetScore: int32
    var powerUpScore: int32

    ghost predicate Valid()
      reads this
    {
      AllWellFormed(levelPopulation)
    }

    ghost function State(): LevelState
      reads this
    {
      LevelState(levelNumber, levelPopulation, levelScore, targetScore, powerUpScore)
    }

    /** A level with no population table yet and a zero level score. */
    constructor (levelNumber: int32, targetScore: int32, powerUpScore: int32)
      ensures Valid()
      ensures State() == LevelState(levelNumber, [], 0, targetScore, powerUpScore)
    {
      this.levelNumber := levelNumber;
      levelPopulation := [];
      levelScore := 0;
      this.targetScore := targetScore;
      this.powerUpScore := powerUpScore;
    }

    constructor Level0(levelNumber: int32, targetScore: int32, powerUpScore: int32)
      ensures Valid()
      ensures State() == LevelState(levelNumber, Level0Population, 0, targetScore, powerUpScore)
    {
      this.levelNumber := levelNumber;
      levelPopulation := [];
      levelScore := 0;
      this.targetScore := targetScore;
      this.powerUpScore := powerUpScore;
      new;
      AddNode(NewPopulationNode(NPCreature, 8));
      AddNode(NewPopulationNode(NewNemoCreature, 4));
    }

    constructor Level1(levelNumber: int32, targetScore: int32, powerUpScore: int32)
      ensures Valid()
      ensures State() == LevelState(levelNumber, Level1Population, 0, targetScore, powerUpScore)
    {
      this.levelNumber := levelNumber;
      levelPopulation := [];
      levelScore := 0;
      this.targetScore := targetScore;
      this.powerUpScore := powerUpScore;
      new;
      AddNode(NewPopulationNode(NPCreature, 12));
      AddNode(NewPopulationNode(NewNemoCreature, 6));
      AddNode(NewPopulationNode(FastNPCreature, 6));
    }

    constructor Level2(levelNumber: int32, targetScore: int32, powerUpScore: int32)
      ensures Valid()
      ensures State() == LevelState(levelNumber, Level2Population, 0, targetScore, powerUpScore)
    {
      this.levelNumber := levelNumber;
      levelPopulation := [];
      levelScore := 0;
      this.targetScore := targetScore;
      this.powerUpScore := powerUpScore;
      new;
      AddNode(NewPopulationNode(NPCreature, 30));
      AddNode(NewPopulationNode(BiggerFish, 2));
      AddNode(NewPopulationNode(FastNPCreature, 8));
    }

    constructor Level3(levelNumber: int32, targetScore: int32, powerUpScore: int32)
      ensures Valid()
      ensures State() == LevelState(levelNumber, Level3Population, 0, targetScore, powerUpScore)
    {
      this.levelNumber := levelNumber;
      levelPopulation := [];
      levelScore := 0;
      this.targetScore := targetScore;
      this.powerUpScore := powerUpScore;
      new;
      AddNode(NewPopulationNode(BiggerFish, 20));
      AddNode(NewPopulationNode(FastNPCreature, 20));
      AddNode(NewPopulationNode(SharkCreature, 6));
    }

    constructor Level4(levelNumber: int32, targetScore: int32, powerUpScore: int32)
      ensures Valid()
      ensures State() == LevelState(levelNumber, Level4Population, 0, targetScore, powerUpScore)
    {
      this.levelNumber := levelNumber;
      levelPopulation := [];
      levelScore := 0;
      this.targetScore := targetScore;
      this.powerUpScore := powerUpScore;
      new;
      AddNode(NewPopulationNode(BiggerFish, 5));
      AddNode(NewPopulationNode(FastNPCreature, 5));
      AddNode(NewPopulationNode(SharkCreature, 15));
    }

    /** Appends one node to the population table (the tables' `push_back`). */
    method AddNode(node: PopulationNode)
      requires Valid() && WellFormed(node)
      modifies this
      ensures Valid()
      ensures State() == old(State()).(levelPopulation := old(levelPopulation) + [node])
    {
      levelPopulation := levelPopulation + [node];
    }

    function GetLevelNumber(): (r: int32)
      reads this
      ensures r == State().levelNumber
    {
      levelNumber
    }

    /** Puts every live count back at zero; kinds and targets stay. */
    method PopulationReset()
      modifies this
      ensures old(Valid()) ==> Valid()
      ensures State() == old(State()).(levelPopulation := ResetCounts(old(levelPopulation)))
    {
      levelPopulation := ResetCounts(levelPopulation);
    }

    /** Zeroes the level score and the live counts; thresholds and table stay. */
    method LevelReset()
      modifies this
      ensures old(Valid()) ==> Valid()
      ensures levelScore == 0
      ensures targetScore == old(targetScore) && powerUpScore == old(powerUpScore)
      ensures State() == old(State()).(levelScore := 0, levelPopulation := ResetCounts(old(levelPopulation)))
    {
      levelScore := 0;
      PopulationReset();
    }

    method SetPowerUpScore(score: int32)
      modifies this
      ensures Valid() <==> old(Valid())
      ensures State() == old(State()).(powerUpScore := score)
    {
      powerUpScore := score;
    }
  }

  // ---------------------------------------------------------------------
  // PlayerCreature: the player's creature and its stats
  // ---------------------------------------------------------------------

  /** The player's own fields (the creature part is `creature`). */
  datatype PlayerStats = PlayerStats(
    deltaTime: real, score: int32, lives: int32, power: int32, damageDebounce: int32)

  class PlayerCreature {
    const creature: Creature
    var deltaTime: real
    var score: int32
    var lives: int32
    var power: int32
    var damageDebounce: int32   // frames to wait before damage applies again

    ghost function Stats(): PlayerStats
      reads this
    {
      PlayerStats(deltaTime, score, lives, power, damageDebounce)
    }

    /** A player at (x, y) with the default stats: score 0, 3 lives, power 1, no debounce. */
    constructor (x: real, y: real, speed: int32, collisionRadius: real, value: int32)
      ensures fresh(creature)
      ensures creature.State() == CreatureState(x, y, 0.0, 0.0, speed, 0.0, 0.0, collisionRadius, value)
      ensures Stats() == PlayerStats(0.0, 0, 3, 1, 0)
    {
      creature := new Creature(x, y, speed, collisionRadius, value);
      deltaTime := 0.0;
      score, lives, power, damageDebounce := 0, 3, 1, 0;
    }

    method SetLives(lives: int32)
      modifies this
      ensures GetLives() == lives
      ensures Stats() == old(Stats()).(lives := lives)
    {
      this.lives := lives;
    }

    /** 1.0 when the player is moving horizontally, 0.0 otherwise (a `bool` returned as `float`). */
    function IsXDirectionActive(): (r: real)
      reads creature
      ensures r == 0.0 || r == 1.0
      ensures r != 0.0 <==> creature.dx != 0.0
    {
      if creature.dx != 0.0 then 1.0 else 0.0
    }

    /** 1.0 when the player is moving vertically, 0.0 otherwise. */
    function IsYDirectionActive(): (r: real)
      reads creature
      ensures r == 0.0 || r == 1.0
      ensures r != 0.0 <==> creature.dy != 0.0
    {
      if creature.dy != 0.0 then 1.0 else 0.0
    }

    function GetDx(): (r: real)
      reads creature
      ensures r == creature.State().dx
    {
      creature.dx
    }

    function GetDy(): (r: real)
      reads creature
      ensures r == creature.State().dy
    {
      creature.dy
    }

    function GetScore(): (r: int32)
      reads this
      ensures r == Stats().score
    {
      score
    }

    function GetLives(): (r: int32)
      reads this
      ensures r == Stats().lives
    {
      lives
    }

    function GetPower(): (r: int32)
      reads this
      ensures r == Stats().power
    {
      power
    }

    /** Adds `amount` weighted by `weight` (1 unless given) to the score. */
    method AddToScore(amount: int32, weight: int32 := 1)
      requires InInt32(amount as int * weight as int)
      requires InInt32(score as int + amount as int * weight as int)
      modifies this
      ensures GetScore() as int == old(GetScore()) as int + amount as int * weight as int
      ensures Stats() == old(Stats()).(score := score)
    {
      score := score + amount * weight;
    }

    method IncreasePower(value: int32)
      requires InInt32(power as int + value as int)
      modifies this
      ensures GetPower() as int == old(GetPower()) as int + value as int
      ensures Stats() == old(Stats()).(power := power)
    {
      power := power + value;
    }
  }

  // ---------------------------------------------------------------------
  // Aquarium: the arena's bounds, population cap and collections
  // ---------------------------------------------------------------------

  datatype ArenaState = ArenaState(
    maxPopulation: int32, width: int32, height: int32, currentLevel: int32,
    creatures: seq<Creature>, nextCreatures: seq<Creature>,
    levels: seq<AquariumLevel>, canCollidePowerUp: bool, powerUps: seq<PowerUp>)

  class Aquarium {
    var maxPopulation: int32
    var width: int32
    var height: int32
    var currentLevel: int32
    var creatures: seq<Creature>
    var nextCreatures: seq<Creature>   // additions staged for the next frame
    var levels: seq<AquariumLevel>
    var canCollidePowerUp: bool
    var powerUps: seq<PowerUp>

    ghost function State(): ArenaState
      reads this
    {
      ArenaState(maxPopulation, width, height, currentLevel, creatures, nextCreatures,
                 levels, canCollidePowerUp, powerUps)
    }

    /** An empty arena of the given size, on level 0 with a population cap of 0. */
    constructor (width: int32, height: int32)
      ensures this.width == width && this.height == height
      ensures maxPopulation == 0 && currentLevel == 0
      ensures creatures == [] && nextCreatures == [] && levels == [] && powerUps == []
    {
      maxPopulation := 0;
      this.width, this.height := width, height;
      currentLevel := 0;
      creatures, nextCreatures, levels, powerUps := [], [], [], [];
      canCollidePowerUp := false;
    }

    method SetBounds(w: int32, h: int32)
      modifies this
      ensures GetWidth() == w && GetHeight() == h
      ensures GetCreatureCount() == old(GetCreatureCount())
      ensures State() == old(State()).(width := w, height := h)
    {
      width, height := w, h;
    }

    method SetMaxPopulation(n: int32)
      modifies this
      ensures maxPopulation == n
      ensures GetCreatureCount() == old(GetCreatureCount())
      ensures State() == old(State()).(maxPopulation := n)
    {
      maxPopulation := n;
    }

    function GetPowerUpCount(): (r: nat)
      reads this
      ensures r == |State().powerUps|
    {
      |powerUps|
    }

    function GetCanCollidePowerUp(): (r: bool)
      reads this
      ensures r == State().canCollidePowerUp
    {
      canCollidePowerUp
    }

    method SetCanCollidePowerUp(canCollide: bool)
      modifies this
      ensures GetCanCollidePowerUp() == canCollide
      ensures State() == old(State()).(canCollidePowerUp := canCollide)
    {
      canCollidePowerUp := canCollide;
    }

    function GetCreatureCount(): (r: nat)
      reads this
      ensures r == |State().creatures|
    {
      |creatures|
    }

    function GetWidth(): (r: int32)
      reads this
      ensures r == State().width
    {
      width
    }

    function GetHeight(): (r: int32)
      reads this
      ensures r == State().height
    {
      height
    }
  }

  // ---------------------------------------------------------------------
  // AquariumGameScene: the scene that owns player and arena
  // ---------------------------------------------------------------------

  /** The frame count of the scene's update throttle. */
  const SceneUpdateFrames: int32 := 5

  class AquariumGameScene {
    const player: PlayerCreature
    const aquarium: Aquarium
    const name: string
    const updateControl: AwaitFrames
    var lastEvent: Option<GameEvent>

    /** No event yet; the update throttle is a fresh five-frame gate. */
    constructor (player: PlayerCreature, aquarium: Aquarium, name: string)
      ensures this.player == player && this.aquarium == aquarium && this.name == name
      ensures lastEvent == None
      ensures fresh(updateControl) && updateControl.Valid()
      ensures updateControl.frames == SceneUpdateFrames && updateControl.counter == 0
    {
      this.player := player;
      this.aquarium := aquarium;
      this.name := name;
      updateControl := new AwaitFrames(SceneUpdateFrames);
      lastEvent := None;
    }

    function GetLastEvent(): (r: Option<GameEvent>)
      reads this
      ensures r == lastEvent
    {
      lastEvent
    }

    /** Replaces the remembered event; only the most recent one is kept. */
    method SetLastEvent(event: Option<GameEvent>)
      modifies this
      ensures GetLastEvent() == event
    {
      lastEvent := event;
    }

    function GetPlayer(): (r: PlayerCreature)
      ensures r == player
    {
      player
    }

    function GetAquarium(): (r: Aquarium)
      ensures r == aquarium
    {
      aquarium
    }

    function GetName(): (r: string)
      ensures r == name
    {
      name
    }
  }

  /** The scene's throttle lets an update through on every sixth frame, starting with the sixth. */
  lemma SceneThrottlePeriod(n: nat, k: nat)
    requires k < n
    ensures Ticks(SceneUpdateFrames as int, 0, n)[k] <==> (k + 1) % 6 == 0
  {
    TicksPeriodic(SceneUpdateFrames as int, n, k);
  }
}
