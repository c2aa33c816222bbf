/** The Flask endpoint `POST /update_ball` of app.py: one physics step of the 2D
    ball (gravity, integration, floor and wall collisions), applied to the `ball`
    object of the request body in place and echoed back. */
module Server {

  const Gravity: real := 0.5
  const FloorY: real := 600.0           // the canvas height
  const CoefficientBounce: real := -0.6
  const RightWall: real := 800.0        // the canvas width

  /** The four numeric members of the ball object that the step reads and writes. */
  datatype Ball = Ball(x: real, y: real, dx: real, dy: real)

  /** Inside the court horizontally and not below the floor (y grows downward). */
  predicate OnCourt(b: Ball)
  {
    0.0 <= b.x <= RightWall && b.y <= FloorY
  }

  /** The step as a function of the ball's motion: the specification of UpdateBall. */
  function Step(b: Ball): (r: Ball)
    ensures OnCourt(r)
    ensures r.dy == b.dy + Gravity || r.dy == (b.dy + Gravity) * CoefficientBounce
    ensures r.dx == b.dx || r.dx == b.dx * CoefficientBounce
  {
    var dy := b.dy + Gravity;
    var x := b.x + b.dx;
    var y := b.y + dy;
    var (y1, dy1) := if y > FloorY then (FloorY, dy * CoefficientBounce) else (y, dy);
    var (x1, dx1) := if x < 0.0 then (0.0, b.dx * CoefficientBounce) else (x, b.dx);
    var (x2, dx2) := if x1 > RightWall then (RightWall, dx1 * CoefficientBounce) else (x1, dx1);
    Ball(x2, y1, dx2, dy1)
  }

  /** Free flight: with no contact the step is plain Euler integration under gravity. */
  lemma StepWithoutContact(b: Ball)
    requires b.y + b.dy + Gravity <= FloorY
    requires 0.0 <= b.x + b.dx <= RightWall
    ensures Step(b) == Ball(b.x + b.dx, b.y + b.dy + Gravity, b.dx, b.dy + Gravity)
  {
  }

  /** Floor contact puts the ball exactly on the floor and reflects dy with damping;
      for a ball that started on or above the floor the new dy points up and is smaller. */
  lemma FloorBounce(b: Ball)
    requires b.y + b.dy + Gravity > FloorY
    ensures Step(b).y == FloorY
    ensures Step(b).dy == (b.dy + Gravity) * CoefficientBounce
    ensures b.y <= FloorY ==> Step(b).dy < 0.0 && -Step(b).dy < b.dy + Gravity
  {
  }

  /** Contact with the left wall puts the ball on it and reflects dx with damping;
      the right-wall check that follows cannot move it again. */
  lemma LeftWallBounce(b: Ball)
    requires b.x + b.dx < 0.0
    ensures Step(b).x == 0.0 && Step(b).dx == b.dx * CoefficientBounce
  {
  }

  /** Contact with the right wall puts the ball on it and reflects dx with damping. */
  lemma RightWallBounce(b: Ball)
    requires b.x + b.dx > RightWall
    ensures Step(b).x == RightWall && Step(b).dx == b.dx * CoefficientBounce
  {
  }

  /** The step's y reaches the floor exactly when the integrated height does: this is
      when a client whose canvas is FloorY high sees `y >= canvas.height`. */
  lemma ReachesFloor(b: Ball)
    ensures Step(b).y >= FloorY <==> b.y + b.dy + Gravity >= FloorY
    ensures Step(b).y >= FloorY ==> Step(b).y == FloorY
  {
  }

  predicate HasMotion(m: map<string, real>)
  {
    "x" in m && "y" in m && "dx" in m && "dy" in m
  }

  function MotionOf(m: map<string, real>): Ball
    requires HasMotion(m)
  {
    Ball(m["x"], m["y"], m["dx"], m["dy"])
  }

  predicate IsMotionKey(k: string)
  {
    k == "x" || k == "y" || k == "dx" || k == "dy"
  }

  /** The `ball` object of the JSON request: a dictionary of numbers. */
  class BallRecord {
    var fields: map<string, real>
  }

  /** The route handler: mutates `data['ball']` member by member and returns it.
      A request without `ball`, or a ball without one of x, y, dx, dy, makes the
      handler raise (KeyError); the model requires them. */
  method UpdateBall(data: map<string, BallRecord>) returns (response: BallRecord)
    requires "ball" in data && HasMotion(data["ball"].fields)
    modifies data["ball"]
    ensures response == data["ball"]
    ensures response.fields.Keys == old(data["ball"].fields.Keys)
    ensures HasMotion(response.fields)
    ensures MotionOf(response.fields) == Step(MotionOf(old(data["ball"].fields)))
    ensures forall k :: k in response.fields && !IsMotionKey(k) ==>
              response.fields[k] == old(data["ball"].fields[k])
  {
    var ball := data["ball"];

    ball.fields := ball.fields["dy" := ball.fields["dy"] + Gravity];
    ball.fields := ball.fields["x" := ball.fields["x"] + ball.fields["dx"]];
    ball.fields := ball.fields["y" := ball.fields["y"] + ball.fields["dy"]];

    if ball.fields["y"] > FloorY {
      ball.fields := ball.fields["y" := FloorY];
      ball.fields := ball.fields["dy" := ball.fields["dy"] * CoefficientBounce];
    }

    if ball.fields["x"] < 0.0 {
      ball.fields := ball.fields["x" := 0.0];
      ball.fields := ball.fields["dx" := ball.fields["dx"] * CoefficientBounce];
    }
    if ball.fields["x"] > RightWall {
      ball.fields := ball.fields["x" := RightWall];
      ball.fields := ball.fields["dx" := ball.fields["dx"] * CoefficientBounce];
    }

    response := ball;
  }
}
