/**
 * The engine-level building blocks of the aquarium game: the frame gate that
 * throttles scene updates, the creature and power-up records, and the
 * discriminated game event the collision pipeline hands to the scene.
 */
module Core {

  /** Whether a mathematical integer fits a 32-bit two's-complement `int`. */
  predicate InInt32(x: int) {
    -0x8000_0000 <= x < 0x8000_0000
  }

  /** The C++ `int` of the game. */
  newtype int32 = x: int | InInt32(x)

  /** A `std::shared_ptr` that may be null. */
  datatype Option<T> = None | Some(value: T)

  // ---------------------------------------------------------------------
  // AwaitFrames: a gate that lets one call through after `frames` refusals
  // ---------------------------------------------------------------------

  /** What one `tick()` answers and the counter it leaves behind. */
  datatype TickOutcome = TickOutcome(fired: bool, counter: int)

  /** One `tick()` on a gate configured with `frames` whose counter is `counter`. */
  function TickStep(frames: int, counter: int): (r: TickOutcome)
    ensures r.fired ==> r.counter == 0
    ensures !r.fired ==> counter < r.counter <= frames
    ensures 0 <= counter <= frames || (frames < 0 && counter == 0) ==>
              0 <= r.counter && (r.counter <= frames || (frames < 0 && r.counter == 0))
  {
    if counter < frames then TickOutcome(false, counter + 1)
    else TickOutcome(true, 0)
  }

  /** The answers of `n` successive ticks, starting from counter `counter`. */
  function Ticks(frames: int, counter: int, n: nat): (r: seq<bool>)
    ensures |r| == n
    decreases n
  {
    if n == 0 then []
    else
      var step := TickStep(frames, counter);
      [step.fired] + Ticks(frames, step.counter, n - 1)
  }

  /**
   * Reference definition of the gate's period: the k-th call (counting from 1)
   * on a fresh gate lets the caller through exactly when k is a multiple of
   * frames + 1; a gate with no positive frame count fires on every call.
   */
  predicate FiresOnCall(frames: int, k: nat) {
    frames <= 0 || k % (frames + 1) == 0
  }

  lemma ModOfSmall(x: int, m: int)
    requires 0 <= x < m
    ensures x % m == x
  {
  }

  lemma {:induction false} MultipleAtLeast(m: int, d: int)
    requires 0 < m && 1 <= d
    ensures m * d >= m
    decreases d
  {
    if d > 1 {
      MultipleAtLeast(m, d - 1);
      assert m * d == m * (d - 1) + m;
    }
  }

  lemma MultipleBelow(m: int, d: int)
    requires 0 < m && -m < m * d < m
    ensures d == 0
  {
    if d > 0 {
      MultipleAtLeast(m, d);
    } else if d < 0 {
      MultipleAtLeast(m, -d);
    }
  }

  lemma ModShift(x: int, m: int)
    requires 0 <= x && 0 < m
    ensures (x + m) % m == x % m
  {
    var q, r := x / m, x % m;
    var q', r' := (x + m) / m, (x + m) % m;
    assert x == m * q + r && 0 <= r < m;
    assert x + m == m * q' + r' && 0 <= r' < m;
    assert m * (q + 1 - q') == r' - r;
    MultipleBelow(m, q + 1 - q');
  }

  /** From any in-range counter, call k + 1 fires iff counter + k + 1 is a multiple of frames + 1. */
  lemma {:induction false} TicksFromCounter(frames: int, counter: int, n: nat, k: nat)
    requires 0 <= counter <= frames
    requires k < n
    ensures Ticks(frames, counter, n)[k] == ((counter + k + 1) % (frames + 1) == 0)
    decreases k
  {
    if counter < frames {
      ModOfSmall(counter + 1, frames + 1);
      if k > 0 {
        TicksFromCounter(frames, counter + 1, n - 1, k - 1);
      }
    } else {
      assert (frames + 1) % (frames + 1) == 0 by { ModShift(0, frames + 1); }
      if k > 0 {
        TicksFromCounter(frames, 0, n - 1, k - 1);
        ModShift(k, frames + 1);
      }
    }
  }

  /** A gate with no positive frame count lets every call through. */
  lemma {:induction false} TicksAlwaysFire(frames: int, n: nat, k: nat)
    requires frames <= 0
    requires k < n
    ensures Ticks(frames, 0, n)[k]
  {
    if k > 0 {
      TicksAlwaysFire(frames, n - 1, k - 1);
    }
  }

  /** A fresh gate answers every call as the periodic reference definition says. */
  lemma TicksPeriodic(frames: int, n: nat, k: nat)
    requires k < n
    ensures Ticks(frames, 0, n)[k] == FiresOnCall(frames, k + 1)
  {
    if frames <= 0 {
      TicksAlwaysFire(frames, n, k);
    } else {
      TicksFromCounter(frames, 0, n, k);
    }
  }

  /** A fresh gate with frames >= 0 refuses its first `frames` calls and lets call frames + 1 through. */
  lemma GateWaitsThenFires(frames: int, k: nat)
    requires 0 <= frames
    requires k <= frames
    ensures Ticks(frames, 0, frames + 1)[k] <==> k == frames
  {
    TicksFromCounter(frames, 0, frames + 1, k);
    if k < frames {
      ModOfSmall(k + 1, frames + 1);
    } else {
      ModShift(0, frames + 1);
    }
  }

  class AwaitFrames {
    var frames: int32
    var counter: int32

    /** The counter never leaves 0..frames (it stays 0 when frames is negative). */
    ghost predicate Valid()
      reads this
    {
      0 <= counter && (counter <= frames || (frames < 0 && counter == 0))
    }

    constructor (frames: int32)
      ensures Valid()
      ensures this.frames == frames && counter == 0
    {
      this.frames := frames;
      counter := 0;
    }

    method Tick() returns (fired: bool)
      requires Valid()
      modifies this
      ensures Valid()
      ensures frames == old(frames)
      ensures TickOutcome(fired, counter as int) == TickStep(frames as int, old(counter) as int)
      ensures fired ==> counter == 0
    {
      if counter < frames {
        counter := counter + 1;
        return false;
      }
      counter := 0;
      return true;
    }
  }

  // ---------------------------------------------------------------------
  // Creature: position, heading, speed, collision radius and score value
  // ---------------------------------------------------------------------

  /** Every field of a creature, for stating what a mutator leaves alone. */
  datatype CreatureState = CreatureState(
    x: real, y: real, dx: real, dy: real, speed: int32,
    width: real, height: real, collisionRadius: real, value: int32)

  class Creature {
    var x: real
    var y: real
    var dx: real
    var dy: real
    var speed: int32
    var width: real
    var height: real
    var collisionRadius: real
    var value: int32

    ghost function State(): CreatureState
      reads this
    {
      CreatureState(x, y, dx, dy, speed, width, height, collisionRadius, value)
    }

    constructor (x: real, y: real, speed: int32, collisionRadius: real, value: int32)
      ensures State() == CreatureState(x, y, 0.0, 0.0, speed, 0.0, 0.0, collisionRadius, value)
    {
      this.x, this.y := x, y;
      dx, dy := 0.0, 0.0;
      this.speed := speed;
      width, height := 0.0, 0.0;
      this.collisionRadius := collisionRadius;
      this.value := value;
    }

    function GetCollisionRadius(): (r: real)
      reads this
      ensures r == State().collisionRadius
    {
      collisionRadius
    }

    method SetCollisionRadius(radius: real)
      modifies this
      ensures GetCollisionRadius() == radius
      ensures State() == old(State()).(collisionRadius := radius)
    {
      collisionRadius := radius;
    }

    function GetX(): (r: real)
      reads this
      ensures r == State().x
    {
      x
    }

    function GetY(): (r: real)
      reads this
      ensures r == State().y
    {
      y
    }

    function GetSpeed(): (r: int32)
      reads this
      ensures r == State().speed
    {
      speed
    }

    method SetSpeed(speed: int32)
      modifies this
      ensures GetSpeed() == speed
      ensures State() == old(State()).(speed := speed)
    {
      this.speed := speed;
    }

    function GetValue(): (r: int32)
      reads this
      ensures r == State().value
    {
      value
    }
  }

  // ---------------------------------------------------------------------
  // PowerUp: a pickup with a position, a collision radius and a type tag
  // ---------------------------------------------------------------------

  datatype PowerUpType = Health

  datatype PowerUpState = PowerUpState(
    x: real, y: real, width: real, height: real,
    collisionRadius: real, powerUpType: PowerUpType)

  class PowerUp {
    var x: real
    var y: real
    var width: real
    var height: real
    var collisionRadius: real
    var powerUpType: PowerUpType

    ghost function State(): PowerUpState
      reads this
    {
      PowerUpState(x, y, width, height, collisionRadius, powerUpType)
    }

    /** The type tag is left uninitialised by the source; only its placement is promised. */
    constructor (x: real, y: real)
      ensures this.x == x && this.y == y
      ensures width == 0.0 && height == 0.0 && collisionRadius == 0.0
    {
      this.x, this.y := x, y;
      width, height := 0.0, 0.0;
      collisionRadius := 0.0;
      powerUpType := Health;
    }

    function GetX(): (r: real)
      reads this
      ensures r == State().x
    {
      x
    }

    function GetY(): (r: real)
      reads this
      ensures r == State().y
    {
      y
    }

    function GetCollisionRadius(): (r: real)
      reads this
      ensures r == State().collisionRadius
    {
      collisionRadius
    }

    method SetCollisionRadius(radius: real)
      modifies this
      ensures GetCollisionRadius() == radius
      ensures State() == old(State()).(collisionRadius := radius)
    {
      collisionRadius := radius;
    }

    function GetPowerUpType(): (r: PowerUpType)
      reads this
      ensures r == State().powerUpType
    {
      powerUpType
    }

    method SetPowerUpType(t: PowerUpType)
      modifies this
      ensures GetPowerUpType() == t
      ensures State() == old(State()).(powerUpType := t)
    {
      powerUpType := t;
    }
  }

  // ---------------------------------------------------------------------
  // GameEvent: a tag plus the participants it concerns
  // ---------------------------------------------------------------------

  datatype GameEventType =
    | NoEvent
    | Collision
    | PowerUpPickup
    | CreatureAdded
    | CreatureRemoved
    | GameOver
    | GameExit
    | NewLevel

  datatype GameEvent = GameEvent(
    kind: GameEventType,
    creatureA: Option<Creature>,   // the player
    creatureB: Option<Creature>,   // the other creature of a collision
    powerUp: Option<PowerUp>)      // the pickup of a power-up event
  {
    // Each type test holds exactly when the event's type is the one that test answers for.

    function IsCollisionEvent(): (b: bool)
      ensures b <==> TestFor(kind) == Some(TestCollision)
    {
      kind == Collision
    }

    function IsPowerUpEvent(): (b: bool)
      ensures b <==> TestFor(kind) == Some(TestPowerUp)
    {
      kind == PowerUpPickup
    }

    function IsCreatureAddedEvent(): (b: bool)
      ensures b <==> TestFor(kind) == Some(TestCreatureAdded)
    {
      kind == CreatureAdded
    }

    function IsCreatureRemovedEvent(): (b: bool)
      ensures b <==> TestFor(kind) == Some(TestCreatureRemoved)
    {
      kind == CreatureRemoved
    }

    function IsGameOver(): (b: bool)
      ensures b <==> TestFor(kind) == Some(TestGameOver)
    {
      kind == GameOver
    }

    function IsGameExit(): (b: bool)
      ensures b <==> TestFor(kind) == Some(TestGameExit)
    {
      kind == GameExit
    }

    function IsNoneEvent(): (b: bool)
      ensures b <==> TestFor(kind) == Some(TestNone)
    {
      kind == NoEvent
    }
  }

  /** The default event: no type and no participants. */
  function DefaultEvent(): (e: GameEvent)
    ensures e.IsNoneEvent()
    ensures !e.IsCollisionEvent() && !e.IsPowerUpEvent() && !e.IsCreatureAddedEvent()
    ensures !e.IsCreatureRemovedEvent() && !e.IsGameOver() && !e.IsGameExit()
    ensures e.creatureA == None && e.creatureB == None && e.powerUp == None
  {
    GameEvent(NoEvent, None, None, None)
  }

  /** An event between two creatures; the power-up slot stays null. */
  function CreatureEvent(t: GameEventType, a: Option<Creature>, b: Option<Creature>): (e: GameEvent)
    ensures e.kind == t && e.creatureA == a && e.creatureB == b
    ensures e.powerUp == None
  {
    GameEvent(t, a, b, None)
  }

  /** A power-up event: the acting creature goes in slot A, slot B stays null. */
  function PowerUpEvent(t: GameEventType, p: Option<PowerUp>, a: Option<Creature>): (e: GameEvent)
    ensures e.kind == t && e.powerUp == p && e.creatureA == a
    ensures e.creatureB == None
  {
    GameEvent(t, a, None, p)
  }

  /** The seven type tests a game event offers. */
  datatype EventTest =
    | TestCollision
    | TestPowerUp
    | TestCreatureAdded
    | TestCreatureRemoved
    | TestGameOver
    | TestGameExit
    | TestNone

  const AllTests: seq<EventTest> :=
    [TestCollision, TestPowerUp, TestCreatureAdded, TestCreatureRemoved,
     TestGameOver, TestGameExit, TestNone]

  function Answer(t: EventTest, e: GameEvent): bool {
    match t
    case TestCollision => e.IsCollisionEvent()
    case TestPowerUp => e.IsPowerUpEvent()
    case TestCreatureAdded => e.IsCreatureAddedEvent()
    case TestCreatureRemoved => e.IsCreatureRemovedEvent()
    case TestGameOver => e.IsGameOver()
    case TestGameExit => e.IsGameExit()
    case TestNone => e.IsNoneEvent()
  }

  /** The enumerator each test compares the event's type against. */
  function TestedKind(t: EventTest): (k: GameEventType)
    ensures k != NewLevel
    ensures TestFor(k) == Some(t)
  {
    match t
    case TestCollision => Collision
    case TestPowerUp => PowerUpPickup
    case TestCreatureAdded => CreatureAdded
    case TestCreatureRemoved => CreatureRemoved
    case TestGameOver => GameOver
    case TestGameExit => GameExit
    case TestNone => NoEvent
  }

  /** The test answering for a type, if any (NEW_LEVEL has none). */
  function TestFor(k: GameEventType): (r: Option<EventTest>)
    ensures r == None <==> k == NewLevel
  {
    match k
    case NoEvent => Some(TestNone)
    case Collision => Some(TestCollision)
    case PowerUpPickup => Some(TestPowerUp)
    case CreatureAdded => Some(TestCreatureAdded)
    case CreatureRemoved => Some(TestCreatureRemoved)
    case GameOver => Some(TestGameOver)
    case GameExit => Some(TestGameExit)
    case NewLevel => None
  }

  /** Each test holds exactly of the events whose type is the enumerator it names. */
  lemma AnswerMeansKind(t: EventTest, e: GameEvent)
    ensures Answer(t, e) <==> e.kind == TestedKind(t)
  {
  }

  /** The tests among `tests` that hold of `e`, in order. */
  function Holding(e: GameEvent, tests: seq<EventTest>): (r: seq<EventTest>)
    ensures forall t :: t in r <==> t in tests && Answer(t, e)
  {
    if tests == [] then []
    else if Answer(tests[0], e) then [tests[0]] + Holding(e, tests[1..])
    else Holding(e, tests[1..])
  }

  /** Two different tests never both hold. */
  lemma TestsExclusive(e: GameEvent, s: EventTest, t: EventTest)
    requires Answer(s, e) && Answer(t, e)
    ensures s == t
  {
  }

  /** A sequence of tests in which no test appears twice. */
  predicate Distinct(tests: seq<EventTest>) {
    forall i, j :: 0 <= i < j < |tests| ==> tests[i] != tests[j]
  }

  lemma {:induction false} HoldingNone(e: GameEvent, tests: seq<EventTest>)
    requires forall s :: s in tests ==> !Answer(s, e)
    ensures Holding(e, tests) == []
    decreases |tests|
  {
    if tests != [] {
      HoldingNone(e, tests[1..]);
    }
  }

  lemma {:induction false} HoldingSingle(e: GameEvent, tests: seq<EventTest>, t: EventTest)
    requires Distinct(tests) && t in tests && Answer(t, e)
    requires forall s :: s in tests && Answer(s, e) ==> s == t
    ensures Holding(e, tests) == [t]
    decreases |tests|
  {
    if tests[0] == t {
      assert t !in tests[1..] by {
        forall j | 0 <= j < |tests[1..]| ensures tests[1..][j] != t {
          assert tests[1..][j] == tests[j + 1];
        }
      }
      HoldingNone(e, tests[1..]);
    } else {
      assert Distinct(tests[1..]) by {
        forall i, j | 0 <= i < j < |tests[1..]| ensures tests[1..][i] != tests[1..][j] {
          assert tests[1..][i] == tests[i + 1] && tests[1..][j] == tests[j + 1];
        }
      }
      HoldingSingle(e, tests[1..], t);
    }
  }

  /** Exactly the one test for the event's type holds; for NEW_LEVEL none does. */
  lemma ExactlyOneTestHolds(e: GameEvent)
    ensures Holding(e, AllTests) == match TestFor(e.kind) case None => [] case Some(t) => [t]
  {
    forall s | s in AllTests ensures Answer(s, e) <==> TestFor(e.kind) == Some(s) {
      AnswerMeansKind(s, e);
    }
    match TestFor(e.kind)
    case None =>
      HoldingNone(e, AllTests);
    case Some(t) =>
      assert t in AllTests;
      HoldingSingle(e, AllTests, t);
  }
}
