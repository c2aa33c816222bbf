/** The 2D canvas client of static/game.js: a player moved with the arrow keys, a
    shot on Space, ball flight delegated to the server's `/update_ball` step, and an
    opponent that tracks the ball along x. The canvas size comes from the page and
    is a constructor parameter; the fetch is the function `server`, applied to the
    ball that is sent. */
module Client2D {
  import opened Common
  import Server

  const PlayerWidth: real := 30.0
  const PlayerHeight: real := 50.0
  const PlayerSpeed: real := 5.0
  const OpponentSpeed: real := 4.0

  /** The held ball: centred on the player's top edge, at rest. */
  function HeldBall(px: real, py: real): Server.Ball
  {
    Server.Ball(px + PlayerWidth / 2.0, py, 0.0, 0.0)
  }

  /** The opponent's x step toward the ball: two sequential tests, so a ball less than
      one step to the right leaves the opponent where it is (it steps right and back),
      while a ball to the left always gives a full step left, even past the ball. */
  function ChaseX(x: real, target: real): (r: real)
    ensures x + OpponentSpeed <= target ==> r == x + OpponentSpeed
    ensures x <= target < x + OpponentSpeed ==> r == x
    ensures target < x ==> r == x - OpponentSpeed
  {
    var stepped := if target > x then x + OpponentSpeed else x;
    if target < stepped then stepped - OpponentSpeed else stepped
  }

  /** The step never moves the opponent away from a ball on its right, and ends within
      one step of where the ball is. */
  lemma ChaseXStaysNear(x: real, target: real)
    ensures x <= target ==> x <= ChaseX(x, target) <= target
    ensures Abs(ChaseX(x, target) - target) <= Max(Abs(x - target) - OpponentSpeed, OpponentSpeed)
  {
  }

  class Client {
    const width: real
    const height: real
    var playerX: real
    var playerY: real
    var hasBall: bool
    var opponentX: real
    var opponentY: real
    var ball: Server.Ball

    /** The canvas fits a player, and a held ball sits on the player at rest. */
    ghost predicate Valid()
      reads this
    {
      PlayerWidth <= width && PlayerHeight <= height &&
      (hasBall ==> ball == HeldBall(playerX, playerY))
    }

    constructor (canvasWidth: real, canvasHeight: real)
      requires PlayerWidth <= canvasWidth && PlayerHeight <= canvasHeight
      ensures Valid()
      ensures width == canvasWidth && height == canvasHeight
      ensures playerX == 100.0 && playerY == 500.0 && hasBall
      ensures opponentX == 700.0 && opponentY == 500.0
    {
      width, height := canvasWidth, canvasHeight;
      playerX, playerY, hasBall := 100.0, 500.0, true;
      opponentX, opponentY := 700.0, 500.0;
      ball := Server.Ball(100.0 + PlayerWidth / 2.0, 500.0, 0.0, 0.0);
    }

    /** Arrow keys move the player by its speed; the player is clamped to the canvas
        and a held ball follows it. */
    method MovePlayer(pressed: set<string>)
      requires Valid()
      modifies this`playerX, this`playerY, this`ball
      ensures Valid()
      ensures 0.0 <= playerX <= width - PlayerWidth && 0.0 <= playerY <= height - PlayerHeight
      ensures playerX == Clamp(old(playerX) + AxisDelta("ArrowLeft" in pressed, "ArrowRight" in pressed, PlayerSpeed), 0.0, width - PlayerWidth)
      ensures playerY == Clamp(old(playerY) + AxisDelta("ArrowUp" in pressed, "ArrowDown" in pressed, PlayerSpeed), 0.0, height - PlayerHeight)
      ensures hasBall ==> ball == HeldBall(playerX, playerY)
      ensures !hasBall ==> ball == old(ball)
    {
      if "ArrowUp" in pressed { playerY := playerY - PlayerSpeed; }
      if "ArrowDown" in pressed { playerY := playerY + PlayerSpeed; }
      if "ArrowLeft" in pressed { playerX := playerX - PlayerSpeed; }
      if "ArrowRight" in pressed { playerX := playerX + PlayerSpeed; }

      playerX := Max(0.0, Min(width - PlayerWidth, playerX));
      playerY := Max(0.0, Min(height - PlayerHeight, playerY));

      if hasBall {
        ball := ball.(x := playerX + PlayerWidth / 2.0, y := playerY);
      }
    }

    /** Space releases a held ball up and to the right; otherwise nothing changes. */
    method ShootBall(pressed: set<string>)
      requires Valid()
      modifies this`hasBall, this`ball
      ensures Valid()
      ensures old(hasBall) && " " in pressed ==>
                !hasBall && ball == old(ball).(dx := 8.0, dy := -10.0)
      ensures !(old(hasBall) && " " in pressed) ==> hasBall == old(hasBall) && ball == old(ball)
    {
      if hasBall && " " in pressed {
        hasBall := false;
        ball := ball.(dx := 8.0);
        ball := ball.(dy := -10.0);
      }
    }

    /** A free ball is sent to the server and replaced by its answer; an answer at or
        below the canvas floor gives the ball back to the player, at rest. A held ball
        is not sent and nothing changes. */
    method UpdateBallPhysics(server: Server.Ball -> Server.Ball)
      requires Valid()
      modifies this`hasBall, this`ball
      ensures Valid()
      ensures old(hasBall) ==> hasBall && ball == old(ball)
      ensures !old(hasBall) && server(old(ball)).y >= height ==>
                hasBall && ball == HeldBall(playerX, playerY)
      ensures !old(hasBall) && server(old(ball)).y < height ==>
                !hasBall && ball == server(old(ball))
    {
      if !hasBall {
        var data := server(ball);
        ball := ball.(x := data.x);
        ball := ball.(y := data.y);
        ball := ball.(dx := data.dx);
        ball := ball.(dy := data.dy);

        if ball.y >= height {
          hasBall := true;
          ball := ball.(x := playerX + PlayerWidth / 2.0);
          ball := ball.(y := playerY);
          ball := ball.(dx := 0.0);
          ball := ball.(dy := 0.0);
        }
      }
    }

    /** The opponent follows the ball along x only, clamped to the canvas. */
    method MoveOpponent()
      requires Valid()
      modifies this`opponentX
      ensures Valid()
      ensures opponentX == Clamp(ChaseX(old(opponentX), ball.x), 0.0, width - PlayerWidth)
      ensures 0.0 <= opponentX <= width - PlayerWidth
    {
      if ball.x > opponentX { opponentX := opponentX + OpponentSpeed; }
      if ball.x < opponentX { opponentX := opponentX - OpponentSpeed; }
      opponentX := Max(0.0, Min(width - PlayerWidth, opponentX));
    }

    /** One frame of the game loop: the player moves, a held ball may be shot, a loose
        ball (the one just shot included) takes the server's step, and the opponent
        follows where the ball ended. Against the server of app.py on its 800 by 600
        canvas, the ball is on the court after every frame. */
    method Draw(pressed: set<string>, server: Server.Ball -> Server.Ball)
      requires Valid()
      modifies this`playerX, this`playerY, this`hasBall, this`ball, this`opponentX
      ensures Valid()
      ensures playerX == Clamp(old(playerX) + AxisDelta("ArrowLeft" in pressed, "ArrowRight" in pressed, PlayerSpeed), 0.0, width - PlayerWidth)
      ensures playerY == Clamp(old(playerY) + AxisDelta("ArrowUp" in pressed, "ArrowDown" in pressed, PlayerSpeed), 0.0, height - PlayerHeight)
      ensures var kept := old(hasBall) && " " !in pressed;
              var sent := if old(hasBall) then HeldBall(playerX, playerY).(dx := 8.0, dy := -10.0) else old(ball);
              && (kept ==> hasBall && ball == HeldBall(playerX, playerY))
              && (!kept && server(sent).y >= height ==> hasBall && ball == HeldBall(playerX, playerY))
              && (!kept && server(sent).y < height ==> !hasBall && ball == server(sent))
      ensures opponentX == Clamp(ChaseX(old(opponentX), ball.x), 0.0, width - PlayerWidth)
      ensures opponentY == old(opponentY)
      ensures 0.0 <= playerX <= width - PlayerWidth && 0.0 <= playerY <= height - PlayerHeight
      ensures 0.0 <= opponentX <= width - PlayerWidth
      ensures (width == Server.RightWall && height == Server.FloorY &&
               forall b :: server(b) == Server.Step(b)) ==> Server.OnCourt(ball)
    {
      MovePlayer(pressed);
      ShootBall(pressed);
      UpdateBallPhysics(server);
      MoveOpponent();
    }
  }
}
