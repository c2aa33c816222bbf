/** The game rules of the 3D full-court game in game.js: player and opponent movement
    on the court, who holds the ball, the ball's flight with floor and rim bounces, the
    drag-and-release shot, scoring at the two nets, the Space key, reset, and the frame
    step. Vectors are values; distances, normalisation and reflection are supplied by
    the caller as functions, because their square roots are floating-point numerics. */
module Game3D {
  import opened Common

  datatype Vec3 = Vec3(x: real, y: real, z: real)

  const Zero: Vec3 := Vec3(0.0, 0.0, 0.0)

  /** The length of `a - b` (Vector3.distanceTo, or Math.sqrt(dx*dx + dz*dz) on points
      whose y is 0). */
  type Distance = (Vec3, Vec3) -> real

  /** `horiz.reflect(normal.normalize())` for a horizontal velocity and an unnormalised
      horizontal normal. */
  type Reflection = (Vec3, Vec3) -> Vec3

  /** Vector3.normalize. */
  type Normalization = Vec3 -> Vec3

  datatype Side = Player | Opponent

  /** `ballState.heldBy`: 'player', 'opponent', or null (Loose). */
  datatype Possession = Held(holder: Side) | Loose

  const CourtW: real := 200.0
  const CourtH: real := 120.0
  const LimitX: real := CourtW / 2.0 - 12.0
  const LimitZ: real := CourtH / 2.0 - 12.0
  const PlayerSpeed: real := 1.8
  const ChaseSpeed: real := 0.9
  const GuardSpeed: real := 0.4
  const ChaseRange: real := 6.0
  const PickupRange: real := 8.0
  const BallRadius: real := 3.8
  const Gravity: real := -0.45
  const GroundY: real := 0.0
  const Bounce: real := 0.6
  const Friction: real := 0.92
  const RimRadius: real := 6.0
  const NetRadius: real := 5.6
  const HoopY: real := 26.0
  const HoopZ: real := -CourtH / 2.0 + 4.0
  const NetTop: real := HoopY + 0.7
  const MaxDt: real := 60.0 / 16.666

  /** A hoop, by the x of its rim; the rim and the net sensor share one centre. */
  datatype Hoop = Hoop(x: real, isLeft: bool)

  const Hoops: seq<Hoop> := [Hoop(-CourtW / 2.0 + 20.0, true), Hoop(CourtW / 2.0 - 20.0, false)]

  function RimCentre(h: Hoop): Vec3
  {
    Vec3(h.x, HoopY, HoopZ)
  }

  function Flat(p: Vec3): Vec3
  {
    Vec3(p.x, 0.0, p.z)
  }

  /** Where a held ball sits relative to its holder. */
  function HoldPoint(p: Vec3): Vec3
  {
    Vec3(p.x, p.y + 12.0, p.z - 8.0)
  }

  predicate InCourt(p: Vec3)
  {
    -LimitX <= p.x <= LimitX && -LimitZ <= p.z <= LimitZ
  }

  /** A held ball is at its holder's hold point and at rest. */
  predicate Pinned(heldBy: Possession, pos: Vec3, vel: Vec3, player: Vec3, opponent: Vec3)
  {
    (heldBy == Held(Player) ==> pos == HoldPoint(player) && vel == Zero) &&
    (heldBy == Held(Opponent) ==> pos == HoldPoint(opponent) && vel == Zero)
  }

  function ClampToCourt(p: Vec3): (r: Vec3)
    ensures InCourt(r) && r.y == p.y
    ensures InCourt(p) ==> r == p
    ensures Abs(r.x) <= Abs(p.x) && Abs(r.z) <= Abs(p.z)
  {
    Vec3(Clamp(p.x, -LimitX, LimitX), p.y, Clamp(p.z, -LimitZ, LimitZ))
  }

  /** One step of `speed` toward `target` on each horizontal axis (Math.sign per axis). */
  function Steer(p: Vec3, target: Vec3, speed: real): (r: Vec3)
    ensures r.y == p.y
    ensures p.x < target.x ==> r.x == p.x + speed
    ensures target.x < p.x ==> r.x == p.x - speed
    ensures target.x == p.x ==> r.x == p.x
    ensures p.z < target.z ==> r.z == p.z + speed
    ensures target.z < p.z ==> r.z == p.z - speed
    ensures target.z == p.z ==> r.z == p.z
  {
    Vec3(p.x + Sign(target.x - p.x) * speed, p.y, p.z + Sign(target.z - p.z) * speed)
  }

  /** The frame time of `animate`: elapsed milliseconds, capped at 60, in units of a
      60 Hz frame. A clock that goes backwards gives a negative step. */
  function FrameDt(t: real, lastTime: real): (dt: real)
    ensures dt <= MaxDt
    ensures t - lastTime <= 60.0 ==> dt * 16.666 == t - lastTime
  {
    Min(60.0, t - lastTime) / 16.666
  }

  /** The decision of the delayed award of a stopped ball: the nearer side gets it,
      and a tie goes to the opponent. */
  function NearestSide(distPlayer: real, distOpponent: real): (side: Side)
    ensures side == Player ==> distPlayer < distOpponent
    ensures side == Opponent ==> distOpponent <= distPlayer
  {
    if distPlayer < distOpponent then Player else Opponent
  }

  // ---------------------------------------------------------------------------
  // Ball flight

  datatype Motion = Motion(pos: Vec3, vel: Vec3)

  /** Vector3.addScaledVector: `p + v * s`. */
  function AddScaled(p: Vec3, v: Vec3, s: real): Vec3
  {
    Vec3(p.x + v.x * s, p.y + v.y * s, p.z + v.z * s)
  }

  /** Gravity on the vertical velocity, then one explicit Euler step of the position. */
  function Integrate(m: Motion, dt: real): Motion
  {
    var v := m.vel.(y := m.vel.y + Gravity * dt);
    Motion(AddScaled(m.pos, v, dt), v)
  }

  predicate TouchesFloor(p: Vec3)
  {
    p.y - BallRadius < GroundY + 0.1
  }

  /** The free flight of `physicsUpdate` up to the rims: integration, then the floor
      bounce with friction and the stop rule. */
  function Fly(m: Motion, dt: real): (r: Motion)
    ensures r.pos.y >= GroundY + BallRadius + 0.1
  {
    var n := Integrate(m, dt);
    if TouchesFloor(n.pos) then
      var p := n.pos.(y := GroundY + BallRadius + 0.1);
      var v := Vec3(n.vel.x * Friction, -n.vel.y * Bounce, n.vel.z * Friction);
      if Abs(v.y) < 1.0 && p.y <= GroundY + BallRadius + 0.15 then Motion(p, Zero) else Motion(p, v)
    else
      n
  }

  /** Away from the floor, flight is the integration step alone. */
  lemma FlyWithoutContact(m: Motion, dt: real)
    requires !TouchesFloor(Integrate(m, dt).pos)
    ensures Fly(m, dt) == Integrate(m, dt)
  {
  }

  /** On floor contact the centre is put at one radius plus 0.1 above the floor, the
      vertical velocity is reflected and damped by 0.6 and the horizontal one by 0.92;
      the ball stops exactly when the damped vertical speed is below 1 (the height half
      of the stop test always holds after the reset). A falling ball leaves the floor
      rising or at rest. */
  lemma FloorContact(m: Motion, dt: real)
    requires TouchesFloor(Integrate(m, dt).pos)
    ensures var v := Integrate(m, dt).vel;
            var r := Fly(m, dt);
            && r.pos == Integrate(m, dt).pos.(y := GroundY + BallRadius + 0.1)
            && (Abs(v.y) * Bounce < 1.0 ==> r.vel == Zero)
            && (Abs(v.y) * Bounce >= 1.0 ==>
                  r.vel == Vec3(v.x * Friction, -v.y * Bounce, v.z * Friction))
            && (v.y <= 0.0 ==> r.vel.y >= 0.0)
  {
  }

  // ---------------------------------------------------------------------------
  // Rims

  /** Near the rim's height, and horizontally within the band around the rim ring. */
  predicate RimContact(pos: Vec3, h: Hoop, dist: Distance)
  {
    var c := RimCentre(h);
    var d := dist(Flat(pos), Flat(c));
    Abs(pos.y - c.y) < 6.0 && d < RimRadius + BallRadius && d > RimRadius - 2.0
  }

  /** One rim's bounce: the horizontal velocity reflected off the rim and damped by 0.8,
      and an upward push of at least 2.5. */
  function RimBounce(pos: Vec3, vel: Vec3, h: Hoop, dist: Distance, reflect: Reflection): (v: Vec3)
    ensures RimContact(pos, h, dist) ==> v.y >= 2.5 && v.y >= vel.y
    ensures !RimContact(pos, h, dist) ==> v == vel
  {
    if RimContact(pos, h, dist) then
      var c := RimCentre(h);
      var r := reflect(Vec3(vel.x, 0.0, vel.z), Vec3(pos.x - c.x, 0.0, pos.z - c.z));
      Vec3(r.x * 0.8, Max(vel.y, 2.5), r.z * 0.8)
    else
      vel
  }

  /** The rims in turn, as the `forEach` over the hoops does. The vertical velocity
      never decreases; touching any rim leaves it at least 2.5; touching none leaves
      the velocity as it was. */
  function RimBounceAll(pos: Vec3, vel: Vec3, hoops: seq<Hoop>, dist: Distance, reflect: Reflection): (v: Vec3)
    ensures v.y >= vel.y
    ensures (exists i :: 0 <= i < |hoops| && RimContact(pos, hoops[i], dist)) ==> v.y >= 2.5
    ensures (forall i :: 0 <= i < |hoops| ==> !RimContact(pos, hoops[i], dist)) ==> v == vel
    decreases |hoops|
  {
    if hoops == [] then vel
    else
      var v1 := RimBounce(pos, vel, hoops[0], dist, reflect);
      assert forall i :: 1 <= i < |hoops| ==> hoops[i] == hoops[1..][i - 1];
      RimBounceAll(pos, v1, hoops[1..], dist, reflect)
  }

  // ---------------------------------------------------------------------------
  // Shooting

  /** The drag length, capped at 40, divided by 1.2. */
  function ShotStrength(dragLength: real): (s: real)
    ensures s <= 40.0 / 1.2
    ensures 0.0 <= dragLength ==> 0.0 <= s
    ensures dragLength <= 40.0 ==> s * 1.2 == dragLength
  {
    Min(40.0, dragLength) / 1.2
  }

  /** The release velocity: horizontally along the aim direction, scaled by the shot's
      speed, and vertically at least 6 and at most half the largest strength. */
  function ShotVelocity(dir: Vec3, dragLength: real): (v: Vec3)
    ensures 6.0 <= v.y <= 20.0 / 1.2
    ensures v.x * dir.z == v.z * dir.x
  {
    var speed := ShotStrength(dragLength) * 0.8;
    Vec3(dir.x * speed, Max(6.0, ShotStrength(dragLength) * 0.5), dir.z * speed)
  }

  // ---------------------------------------------------------------------------
  // Scoring

  /** The part of the game state that `checkScoring` reads and writes. `lastY` stands
      for `ballState.lastY`, which is read but never assigned (None is undefined). */
  datatype ScoreState = ScoreState(
    pos: Vec3, vel: Vec3, heldBy: Possession, lastY: Option<real>,
    scorePlayer: nat, scoreOpponent: nat)

  /** The ball is inside the net horizontally, below the net's top, and was above the
      top on the previous height. `undefined > netTop` is false, hence `lastY.Some?`. */
  predicate CrossesNet(s: ScoreState, h: Hoop, dist: Distance)
  {
    dist(Flat(s.pos), Flat(RimCentre(h))) < NetRadius && s.pos.y < NetTop &&
    s.lastY.Some? && s.lastY.value > NetTop
  }

  /** Who is credited with a basket: three branches that reduce to the sign of x. */
  function Scorer(x: real, isLeftHoop: bool): (side: Side)
    ensures side == (if x < 0.0 then Player else Opponent)
  {
    if x < 0.0 && !isLeftHoop then Player
    else if x > 0.0 && isLeftHoop then Opponent
    else if x < 0.0 then Player
    else Opponent
  }

  function Sum(s: ScoreState): nat
  {
    s.scorePlayer + s.scoreOpponent
  }

  /** One hoop of `checkScoring`: on a crossing, exactly one score goes up, by the sign
      of x, the ball stops, and the side that is behind (the player on a tie) gets it. */
  function ScoreAt(s: ScoreState, h: Hoop, player: Vec3, opponent: Vec3, dist: Distance): (r: ScoreState)
    ensures r.lastY == s.lastY
    ensures !CrossesNet(s, h, dist) ==> r == s
    ensures CrossesNet(s, h, dist) ==>
              && Sum(r) == Sum(s) + 1
              && (s.pos.x < 0.0 ==> r.scorePlayer == s.scorePlayer + 1)
              && (0.0 <= s.pos.x ==> r.scoreOpponent == s.scoreOpponent + 1)
              && r.heldBy == Held(if r.scorePlayer > r.scoreOpponent then Opponent else Player)
              && Pinned(r.heldBy, r.pos, r.vel, player, opponent)
  {
    if CrossesNet(s, h, dist) then
      var scorer := Scorer(s.pos.x, h.isLeft);
      var sp := if scorer == Player then s.scorePlayer + 1 else s.scorePlayer;
      var so := if scorer == Opponent then s.scoreOpponent + 1 else s.scoreOpponent;
      var holder := if sp > so then Opponent else Player;
      s.(scorePlayer := sp, scoreOpponent := so, vel := Zero, heldBy := Held(holder),
         pos := HoldPoint(if holder == Player then player else opponent))
    else
      s
  }

  /** The hoops in turn. Scores never go down, each hoop adds at most one point, and a
      pinned ball stays pinned. */
  function ScoreAll(s: ScoreState, hoops: seq<Hoop>, player: Vec3, opponent: Vec3, dist: Distance): (r: ScoreState)
    ensures r.lastY == s.lastY
    ensures s.scorePlayer <= r.scorePlayer && s.scoreOpponent <= r.scoreOpponent
    ensures Sum(r) <= Sum(s) + |hoops|
    ensures Pinned(s.heldBy, s.pos, s.vel, player, opponent) ==>
              Pinned(r.heldBy, r.pos, r.vel, player, opponent)
    decreases |hoops|
  {
    if hoops == [] then s
    else ScoreAll(ScoreAt(s, hoops[0], player, opponent, dist), hoops[1..], player, opponent, dist)
  }

  /** As written: with no previous height recorded, no hoop ever scores. */
  lemma {:induction false} NoScoreWithoutLastY(s: ScoreState, hoops: seq<Hoop>, player: Vec3, opponent: Vec3, dist: Distance)
    requires s.lastY == None
    ensures ScoreAll(s, hoops, player, opponent, dist) == s
    decreases |hoops|
  {
    if hoops != [] {
      assert ScoreAt(s, hoops[0], player, opponent, dist) == s;
      NoScoreWithoutLastY(s, hoops[1..], player, opponent, dist);
    }
  }

  /** With a previous height recorded: a ball that crosses any hoop's net raises the
      total score. */
  lemma {:induction false} CrossingScores(s: ScoreState, hoops: seq<Hoop>, i: nat, player: Vec3, opponent: Vec3, dist: Distance)
    requires i < |hoops| && CrossesNet(s, hoops[i], dist)
    ensures Sum(ScoreAll(s, hoops, player, opponent, dist)) > Sum(s)
    decreases |hoops|
  {
    var s1 := ScoreAt(s, hoops[0], player, opponent, dist);
    if CrossesNet(s, hoops[0], dist) {
      assert Sum(s1) == Sum(s) + 1;
    } else {
      assert s1 == s;
      assert hoops[1..][i - 1] == hoops[i];
      CrossingScores(s, hoops[1..], i - 1, player, opponent, dist);
    }
  }

  /** The same ball, falling through the centre of the right net, on the two readings
      of `lastY`: undefined as written, and the previous frame's height 27. */
  lemma DropThroughRightNet(player: Vec3, opponent: Vec3, dist: Distance)
    requires dist(Vec3(80.0, 0.0, HoopZ), Vec3(80.0, 0.0, HoopZ)) == 0.0
    ensures var s := ScoreState(Vec3(80.0, 26.0, HoopZ), Vec3(0.0, -1.0, 0.0), Loose, None, 0, 0);
            ScoreAll(s, Hoops, player, opponent, dist) == s
    ensures var s := ScoreState(Vec3(80.0, 26.0, HoopZ), Vec3(0.0, -1.0, 0.0), Loose, Some(27.0), 0, 0);
            Sum(ScoreAll(s, Hoops, player, opponent, dist)) > 0
  {
    var asWritten := ScoreState(Vec3(80.0, 26.0, HoopZ), Vec3(0.0, -1.0, 0.0), Loose, None, 0, 0);
    NoScoreWithoutLastY(asWritten, Hoops, player, opponent, dist);
    var recorded := asWritten.(lastY := Some(27.0));
    assert CrossesNet(recorded, Hoops[1], dist);
    CrossingScores(recorded, Hoops, 1, player, opponent, dist);
  }

  // ---------------------------------------------------------------------------
  // The frame's steps, as functions of the state before each one

  /** The player's position after `updatePlayer`: one step per pressed key pair, then
      the court clamp. */
  function PlayerStep(player: Vec3, pressed: set<string>): Vec3
  {
    ClampToCourt(Vec3(
      player.x + AxisDelta("a" in pressed || "ArrowLeft" in pressed,
                           "d" in pressed || "ArrowRight" in pressed, PlayerSpeed),
      player.y,
      player.z + AxisDelta("w" in pressed || "ArrowUp" in pressed,
                           "s" in pressed || "ArrowDown" in pressed, PlayerSpeed)))
  }

  /** The opponent's position after `updateOpponent`: a chase step toward a loose ball
      more than ChaseRange away, a guard step toward the player otherwise, then the
      court clamp. */
  function OpponentStep(opponent: Vec3, player: Vec3, ball: Vec3, heldBy: Possession, dist: Distance): Vec3
  {
    ClampToCourt(
      if heldBy == Loose && dist(Flat(ball), Flat(opponent)) > ChaseRange
      then Steer(opponent, ball, ChaseSpeed)
      else Steer(opponent, player, GuardSpeed))
  }

  /** Possession after `updateOpponent`: a loose ball within PickupRange of the moved
      opponent is picked up. */
  function PickUp(heldBy: Possession, opponent: Vec3, ball: Vec3, dist: Distance): Possession
  {
    if heldBy == Loose && dist(opponent, ball) < PickupRange then Held(Opponent) else heldBy
  }

  /** A loose ball's motion after `physicsUpdate`: flight, then the rims. */
  function Flight(m: Motion, dt: real, dist: Distance, reflect: Reflection): Motion
  {
    var f := Fly(m, dt);
    Motion(f.pos, RimBounceAll(f.pos, f.vel, Hoops, dist, reflect))
  }

  // ---------------------------------------------------------------------------
  // The game

  class Game {
    var player: Vec3
    var opponent: Vec3
    var pos: Vec3
    var vel: Vec3
    var heldBy: Possession
    var lastY: Option<real>
    var scorePlayer: nat
    var scoreOpponent: nat
    var dragging: bool
    var dragStart: Option<Vec3>
    var lastTime: real

    /** Both figures stand on the court, and a held ball is pinned to its holder. */
    ghost predicate Valid()
      reads this
    {
      InCourt(player) && InCourt(opponent) && Pinned(heldBy, pos, vel, player, opponent)
    }

    ghost function Scoring(): ScoreState
      reads this
    {
      ScoreState(pos, vel, heldBy, lastY, scorePlayer, scoreOpponent)
    }

    /** The script's start-up: the figures and the ball state as created, the clock
        read once, then `resetGame()`. */
    constructor (now: real)
      ensures Valid()
      ensures player == Vec3(-40.0, 0.0, 0.0) && opponent == Vec3(40.0, 0.0, 0.0)
      ensures heldBy == Held(Player) && lastY == None
      ensures scorePlayer == 0 && scoreOpponent == 0
      ensures !dragging && dragStart == None && lastTime == now
    {
      var start := Vec3(-40.0, 0.0, 0.0);
      player := start;
      opponent := Vec3(40.0, 0.0, 0.0);
      pos := Vec3(start.x, 9.0 + BallRadius, start.z - 6.0);
      vel := Zero;
      heldBy := Held(Player);
      lastY := None;
      scorePlayer, scoreOpponent := 0, 0;
      dragging, dragStart := false, None;
      lastTime := now;
      new;
      ResetGame();
    }

    /** WASD or the arrow keys move the player by 1.8 per frame, clamped to the court;
        a ball the player holds moves with the player. */
    method UpdatePlayer(pressed: set<string>)
      requires Valid()
      modifies this`player, this`pos, this`vel
      ensures Valid()
      ensures player == PlayerStep(old(player), pressed)
      ensures heldBy == Held(Player) ==> pos == HoldPoint(player) && vel == Zero
      ensures heldBy != Held(Player) ==> pos == old(pos) && vel == old(vel)
    {
      if "w" in pressed || "ArrowUp" in pressed { player := player.(z := player.z - PlayerSpeed); }
      if "s" in pressed || "ArrowDown" in pressed { player := player.(z := player.z + PlayerSpeed); }
      if "a" in pressed || "ArrowLeft" in pressed { player := player.(x := player.x - PlayerSpeed); }
      if "d" in pressed || "ArrowRight" in pressed { player := player.(x := player.x + PlayerSpeed); }

      player := player.(x := Clamp(player.x, -LimitX, LimitX));
      player := player.(z := Clamp(player.z, -LimitZ, LimitZ));

      if heldBy == Held(Player) {
        pos := HoldPoint(player);
        vel := Zero;
      }
    }

    /** The opponent chases a loose ball that is more than 6 away, and otherwise
        steps toward the player; it stays on the court, picks up a loose ball within 8,
        never takes the ball from the player, and carries a ball it holds. */
    method UpdateOpponent(dist: Distance)
      requires Valid()
      modifies this`opponent, this`heldBy, this`pos, this`vel
      ensures Valid()
      ensures opponent == OpponentStep(old(opponent), player, old(pos), old(heldBy), dist)
      ensures heldBy == PickUp(old(heldBy), opponent, old(pos), dist)
      ensures old(heldBy) == Held(Player) ==> heldBy == Held(Player)
      ensures heldBy == Held(Opponent) ==> pos == HoldPoint(opponent) && vel == Zero
      ensures heldBy != Held(Opponent) ==> pos == old(pos) && vel == old(vel)
    {
      var d := dist(Flat(pos), Flat(opponent));
      if heldBy == Loose && d > ChaseRange {
        opponent := opponent.(x := opponent.x + Sign(pos.x - opponent.x) * ChaseSpeed);
        opponent := opponent.(z := opponent.z + Sign(pos.z - opponent.z) * ChaseSpeed);
      } else {
        opponent := opponent.(x := opponent.x + Sign(player.x - opponent.x) * GuardSpeed);
        opponent := opponent.(z := opponent.z + Sign(player.z - opponent.z) * GuardSpeed);
      }

      opponent := opponent.(x := Clamp(opponent.x, -LimitX, LimitX));
      opponent := opponent.(z := Clamp(opponent.z, -LimitZ, LimitZ));

      if heldBy == Loose && dist(opponent, pos) < PickupRange {
        heldBy := Held(Opponent);
      }

      if heldBy == Held(Opponent) {
        pos := HoldPoint(opponent);
        vel := Zero;
      }
    }

    /** Pressing on the canvas starts an aim only while the player holds the ball. */
    method PointerDown(hit: Option<Vec3>)
      modifies this`dragging, this`dragStart
      ensures heldBy == Held(Player) ==> dragging && dragStart == hit
      ensures heldBy != Held(Player) ==> dragging == old(dragging) && dragStart == old(dragStart)
    {
      if heldBy != Held(Player) {
        return;
      }
      dragging := true;
      dragStart := hit;
    }

    /** Releasing ends an aim; when the aim has a start and the release hits the ground,
        the ball is shot: it becomes loose with a velocity of at least 6 upward. */
    method PointerUp(release: Option<Vec3>, dist: Distance, normalize: Normalization)
      requires Valid()
      modifies this`dragging, this`dragStart, this`vel, this`heldBy
      ensures Valid()
      ensures !dragging
      ensures !old(dragging) ==> dragStart == old(dragStart) && vel == old(vel) && heldBy == old(heldBy)
      ensures old(dragging) && (old(dragStart).None? || release.None?) ==>
                dragStart == old(dragStart) && vel == old(vel) && heldBy == old(heldBy)
      ensures old(dragging) && old(dragStart).Some? && release.Some? ==>
                var start, end := old(dragStart).value, release.value;
                && heldBy == Loose && dragStart == None && 6.0 <= vel.y
                && vel == ShotVelocity(normalize(Vec3(end.x - start.x, 0.7, end.z - start.z)),
                                       dist(Flat(start), Flat(end)))
    {
      if !dragging {
        return;
      }
      dragging := false;
      if dragStart.None? {
        return;
      }
      if release.None? {
        return;
      }
      var start, end := dragStart.value, release.value;
      var strength := ShotStrength(dist(Flat(start), Flat(end)));
      var dir := normalize(Vec3(end.x - start.x, 0.7, end.z - start.z));
      var speed := strength * 0.8;
      vel := Vec3(dir.x * speed, dir.y * speed, dir.z * speed);
      vel := vel.(y := Max(6.0, strength * 0.5));
      heldBy := Loose;
      dragStart := None;
    }

    /** A held ball is left alone. A loose ball flies (gravity, integration, floor
        bounce, stop rule) and then bounces off each rim it touches; it never ends
        below one radius plus 0.1 above the floor. */
    method PhysicsUpdate(dt: real, dist: Distance, reflect: Reflection)
      requires Valid()
      modifies this`pos, this`vel
      ensures Valid()
      ensures heldBy != Loose ==> pos == old(pos) && vel == old(vel)
      ensures heldBy == Loose ==> Motion(pos, vel) == Flight(Motion(old(pos), old(vel)), dt, dist, reflect)
      ensures heldBy == Loose ==> pos.y >= GroundY + BallRadius + 0.1
    {
      if heldBy != Loose {
        return;
      }

      var v := vel.(y := vel.y + Gravity * dt);
      var p := AddScaled(pos, v, dt);
      assert Integrate(Motion(pos, vel), dt) == Motion(p, v);

      if p.y - BallRadius < GroundY + 0.1 {
        p := p.(y := GroundY + BallRadius + 0.1);
        v := v.(y := -v.y * Bounce);
        v := v.(x := v.x * Friction);
        v := v.(z := v.z * Friction);
        if Abs(v.y) < 1.0 && p.y <= GroundY + BallRadius + 0.15 {
          v := Zero;
        }
      }
      assert Motion(p, v) == Fly(Motion(pos, vel), dt);

      ghost var flown := v;
      for i := 0 to |Hoops|
        invariant RimBounceAll(p, v, Hoops[i..], dist, reflect) == RimBounceAll(p, flown, Hoops, dist, reflect)
      {
        var rim := RimCentre(Hoops[i]);
        var dx := p.x - rim.x;
        var dz := p.z - rim.z;
        var distXZ := dist(Flat(p), Flat(rim));
        var heightDiff := Abs(p.y - rim.y);
        ghost var before := v;
        if heightDiff < 6.0 && distXZ < RimRadius + BallRadius && distXZ > RimRadius - 2.0 {
          var reflected := reflect(Vec3(v.x, 0.0, v.z), Vec3(dx, 0.0, dz));
          v := v.(x := reflected.x * 0.8, z := reflected.z * 0.8);
          v := v.(y := Max(v.y, 2.5));
        }
        assert v == RimBounce(p, before, Hoops[i], dist, reflect);
        assert Hoops[i..][1..] == Hoops[i + 1..];
      }

      pos, vel := p, v;
    }

    /** The `forEach` callback of `checkScoring` for one hoop: a ball falling through
        its net scores. */
    method ScoreHoop(hoop: Hoop, dist: Distance)
      requires Valid()
      modifies this`pos, this`vel, this`heldBy, this`scorePlayer, this`scoreOpponent
      ensures Valid()
      ensures Scoring() == ScoreAt(old(Scoring()), hoop, player, opponent, dist)
    {
      var net := RimCentre(hoop);
      if dist(Flat(pos), Flat(net)) < NetRadius && pos.y < NetTop && lastY.Some? && lastY.value > NetTop {
        if pos.x < 0.0 && !hoop.isLeft {
          scorePlayer := scorePlayer + 1;
        } else if pos.x > 0.0 && hoop.isLeft {
          scoreOpponent := scoreOpponent + 1;
        } else {
          if pos.x < 0.0 { scorePlayer := scorePlayer + 1; } else { scoreOpponent := scoreOpponent + 1; }
        }
        vel := Zero;
        heldBy := if scorePlayer > scoreOpponent then Held(Opponent) else Held(Player);
        if heldBy == Held(Player) {
          pos := HoldPoint(player);
        } else {
          pos := HoldPoint(opponent);
        }
      }
    }

    /** Each hoop in turn checks for a ball falling through its net and scores it. */
    method CheckScoring(dist: Distance)
      requires Valid()
      modifies this`pos, this`vel, this`heldBy, this`scorePlayer, this`scoreOpponent
      ensures Valid()
      ensures Scoring() == ScoreAll(old(Scoring()), Hoops, player, opponent, dist)
    {
      for i := 0 to |Hoops|
        invariant Valid()
        invariant ScoreAll(Scoring(), Hoops[i..], player, opponent, dist) ==
                  ScoreAll(old(Scoring()), Hoops, player, opponent, dist)
      {
        ScoreHoop(Hoops[i], dist);
        assert Hoops[i..][1..] == Hoops[i + 1..];
      }
    }

    /** Scores to zero and the ball back in the player's hands. */
    method ResetGame()
      requires InCourt(player) && InCourt(opponent)
      modifies this`scorePlayer, this`scoreOpponent, this`heldBy, this`vel, this`pos
      ensures Valid()
      ensures scorePlayer == 0 && scoreOpponent == 0
      ensures heldBy == Held(Player) && pos == HoldPoint(player) && vel == Zero
    {
      scorePlayer := 0;
      scoreOpponent := 0;
      heldBy := Held(Player);
      vel := Zero;
      pos := HoldPoint(player);
    }

    /** The Space key: both of its branches end with the ball in the player's hands,
        at rest. Other keys leave the ball alone. */
    method OnKeyDown(code: string)
      requires Valid()
      modifies this`heldBy, this`pos, this`vel
      ensures Valid()
      ensures code == "Space" ==> heldBy == Held(Player) && pos == HoldPoint(player) && vel == Zero
      ensures code != "Space" ==> heldBy == old(heldBy) && pos == old(pos) && vel == old(vel)
    {
      if code == "Space" {
        if heldBy == Loose && vel == Zero {
          heldBy := Held(Player);
          pos := HoldPoint(player);
        } else {
          vel := Zero;
          heldBy := Held(Player);
          pos := HoldPoint(player);
        }
      }
    }

    /** One animation frame as written: the frame time, then the player, the opponent,
        the ball's physics and the scoring pass, each on the state the previous one left.
        `mid` is the scoring state after physics, which the scoring pass starts from.
        Because nothing assigns `lastY`, a game that starts without it never scores. */
    method Animate(t: real, pressed: set<string>, dist: Distance, reflect: Reflection)
      returns (ghost mid: ScoreState)
      requires Valid()
      modifies this`lastTime, this`player, this`opponent, this`pos, this`vel, this`heldBy,
               this`scorePlayer, this`scoreOpponent
      ensures Valid()
      ensures lastTime == t && lastY == old(lastY)
      ensures player == PlayerStep(old(player), pressed)
      ensures opponent == OpponentStep(old(opponent), player, old(pos), old(heldBy), dist)
      ensures mid.heldBy == PickUp(old(heldBy), opponent, old(pos), dist)
      ensures mid.lastY == old(lastY)
      ensures mid.scorePlayer == old(scorePlayer) && mid.scoreOpponent == old(scoreOpponent)
      ensures mid.heldBy == Loose ==>
                Motion(mid.pos, mid.vel) ==
                Flight(Motion(old(pos), old(vel)), FrameDt(t, old(lastTime)), dist, reflect)
      ensures Pinned(mid.heldBy, mid.pos, mid.vel, player, opponent)
      ensures Scoring() == ScoreAll(mid, Hoops, player, opponent, dist)
      ensures old(lastY) == None ==>
                scorePlayer == old(scorePlayer) && scoreOpponent == old(scoreOpponent)
    {
      var dt := FrameDt(t, lastTime);
      lastTime := t;
      UpdatePlayer(pressed);
      UpdateOpponent(dist);
      PhysicsUpdate(dt, dist, reflect);
      mid := Scoring();
      CheckScoring(dist);
      if lastY == None {
        NoScoreWithoutLastY(mid, Hoops, player, opponent, dist);
      }
    }

    /** The frame with `lastY` kept up to date: the frame as written, then the ball's
        height recorded for the next frame's scoring. A ball that was above a net's top
        at the end of the previous frame and is inside that net below its top after this
        frame's physics scores. */
    method AnimateRecordingLastY(t: real, pressed: set<string>, dist: Distance, reflect: Reflection)
      returns (ghost mid: ScoreState)
      requires Valid()
      modifies this`lastTime, this`player, this`opponent, this`pos, this`vel, this`heldBy,
               this`scorePlayer, this`scoreOpponent, this`lastY
      ensures Valid()
      ensures lastTime == t && lastY == Some(pos.y)
      ensures player == PlayerStep(old(player), pressed)
      ensures opponent == OpponentStep(old(opponent), player, old(pos), old(heldBy), dist)
      ensures mid.heldBy == PickUp(old(heldBy), opponent, old(pos), dist)
      ensures mid.lastY == old(lastY)
      ensures mid.scorePlayer == old(scorePlayer) && mid.scoreOpponent == old(scoreOpponent)
      ensures mid.heldBy == Loose ==>
                Motion(mid.pos, mid.vel) ==
                Flight(Motion(old(pos), old(vel)), FrameDt(t, old(lastTime)), dist, reflect)
      ensures Pinned(mid.heldBy, mid.pos, mid.vel, player, opponent)
      ensures Scoring() == ScoreAll(mid, Hoops, player, opponent, dist).(lastY := Some(pos.y))
      ensures old(scorePlayer) <= scorePlayer && old(scoreOpponent) <= scoreOpponent
      ensures scorePlayer + scoreOpponent <= old(scorePlayer) + old(scoreOpponent) + |Hoops|
      ensures (exists i :: 0 <= i < |Hoops| && CrossesNet(mid, Hoops[i], dist)) ==>
                scorePlayer + scoreOpponent > old(scorePlayer) + old(scoreOpponent)
    {
      mid := Animate(t, pressed, dist, reflect);
      if exists i :: 0 <= i < |Hoops| && CrossesNet(mid, Hoops[i], dist) {
        ghost var i: nat :| i < |Hoops| && CrossesNet(mid, Hoops[i], dist);
        CrossingScores(mid, Hoops, i, player, opponent, dist);
      }
      lastY := Some(pos.y);
    }
  }
}
