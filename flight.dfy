/** The flight controls of MP2 part 2: a map of pressed keys kept by the
    key handlers, and the per-frame `animate` step that reads it to roll,
    pitch, change speed and move the terrain toward the viewer. */
module Flight {
  import opened Geometry
  import opened MatrixStack
  import opened Options

  /** Speed at load time, the change per frame while `+` or `-` is held,
      and the range the speed is clamped to. */
  const InitialSpeed: real := 0.001
  const SpeedStep: real := 0.0001
  const MinSpeed: real := 0.0005
  const MaxSpeed: real := 0.008

  /** A key counts as held when the map says `true`; a key never seen reads
      as `undefined`, which is falsy. */
  predicate IsDown(pressed: map<string, bool>, key: string) {
    key in pressed && pressed[key]
  }

  /** `handleKeyDown`: the key is recorded as held, every other key reads
      as before. */
  function KeyDown(pressed: map<string, bool>, key: string): (r: map<string, bool>)
    ensures IsDown(r, key)
    ensures forall k :: k != key ==> IsDown(r, k) == IsDown(pressed, k)
  {
    pressed[key := true]
  }

  /** `handleKeyUp`: the key is recorded as released, every other key reads
      as before. */
  function KeyUp(pressed: map<string, bool>, key: string): (r: map<string, bool>)
    ensures !IsDown(r, key)
    ensures forall k :: k != key ==> IsDown(r, k) == IsDown(pressed, k)
  {
    pressed[key := false]
  }

  /** Pressing and releasing a key leaves it released and the others as
      they were, whatever it was before. */
  lemma PressRelease(pressed: map<string, bool>, key: string, k: string)
    ensures IsDown(KeyUp(KeyDown(pressed, key), key), k) == (k != key && IsDown(pressed, k))
  {
  }

  /** A turn in whole degrees: -1 for the `neg` key, +1 for the `pos` key,
      0 for both or neither. */
  function Steer(pressed: map<string, bool>, neg: string, pos: string): (r: int)
    ensures -1 <= r <= 1
    ensures r == 0 <==> IsDown(pressed, neg) == IsDown(pressed, pos)
    ensures r == 1 <==> !IsDown(pressed, neg) && IsDown(pressed, pos)
  {
    (if IsDown(pressed, neg) then -1 else 0) + (if IsDown(pressed, pos) then 1 else 0)
  }

  /** The speed part of `animate`: `+` adds a step, then `-` takes one off,
      then the result is clamped from above and then from below. */
  function NextSpeed(speed: real, plus: bool, minus: bool): (r: real)
    ensures MinSpeed <= r <= MaxSpeed
  {
    var s1 := if plus then speed + SpeedStep else speed;
    var s2 := if minus then s1 - SpeedStep else s1;
    var s3 := if s2 > MaxSpeed then MaxSpeed else s2;
    if s3 < MinSpeed then MinSpeed else s3
  }

  /** Holding both speed keys, or neither, keeps a speed in range as it is. */
  lemma SpeedKeysCancel(speed: real, both: bool)
    requires MinSpeed <= speed <= MaxSpeed
    ensures NextSpeed(speed, both, both) == speed
  {
  }

  /** Holding `+` alone speeds up by one step until the maximum. */
  lemma SpeedUp(speed: real)
    requires MinSpeed <= speed <= MaxSpeed
    ensures NextSpeed(speed, true, false) == if speed + SpeedStep > MaxSpeed then MaxSpeed else speed + SpeedStep
    ensures NextSpeed(speed, true, false) >= speed
  {
  }

  /** Holding `-` alone slows down by one step until the minimum. */
  lemma SlowDown(speed: real)
    requires MinSpeed <= speed <= MaxSpeed
    ensures NextSpeed(speed, false, true) == if speed - SpeedStep < MinSpeed then MinSpeed else speed - SpeedStep
    ensures NextSpeed(speed, false, true) <= speed
  {
  }

  /** The rolling and pitching part of `animate`. `rotate(axis, deg, v)`
      stands for `quat.setAxisAngle` with `degToRad(deg)` followed by
      `vec3.transformQuat`. The roll turns both vectors about the view
      direction; the pitch turns the results about their cross product. */
  function Turned(viewDir: Vec3, up: Vec3, roll: int, pitch: int, rotate: (Vec3, int, Vec3) -> Vec3): (r: (Vec3, Vec3))
  {
    var viewDir1 := rotate(viewDir, roll, viewDir);
    var up1 := rotate(viewDir, roll, up);
    var normal := Cross(viewDir1, up1);
    (rotate(normal, pitch, viewDir1), rotate(normal, pitch, up1))
  }

  /** With no arrow key held, and a rotation by zero degrees that changes
      nothing, the view is not turned. */
  lemma NoArrowsNoTurn(viewDir: Vec3, up: Vec3, rotate: (Vec3, int, Vec3) -> Vec3)
    requires forall axis, v :: rotate(axis, 0, v) == v
    ensures Turned(viewDir, up, 0, 0, rotate) == (viewDir, up)
  {
    var viewDir1 := rotate(viewDir, 0, viewDir);
    var up1 := rotate(viewDir, 0, up);
    assert viewDir1 == viewDir && up1 == up;
    var normal := Cross(viewDir1, up1);
    assert rotate(normal, 0, viewDir1) == viewDir1;
    assert rotate(normal, 0, up1) == up1;
  }

  /** The world moves against the view direction by the speed. */
  function Moved(transformVec: Vec3, viewDir: Vec3, speed: real): (r: Vec3)
    ensures Add(r, Scale(viewDir, speed)) == transformVec
  {
    Add(transformVec, Scale(Scale(viewDir, speed), -1.0))
  }

  class Controls {
    /** `currentPressedKey`. */
    var pressed: map<string, bool>
    var speed: real
    var viewDir: Vec3
    var up: Vec3
    /** The terrain offset the draw step translates by. */
    var transformVec: Vec3

    /** The globals as the page loads them. */
    constructor ()
      ensures pressed == map[] && speed == InitialSpeed
      ensures viewDir == Vec3(0.0, -0.25, -1.0) && up == Vec3(0.0, 1.0, 0.0)
      ensures transformVec == Vec3(0.0, -0.25, -2.0)
      ensures MinSpeed <= speed <= MaxSpeed
    {
      pressed := map[];
      speed := InitialSpeed;
      viewDir := Vec3(0.0, -0.25, -1.0);
      up := Vec3(0.0, 1.0, 0.0);
      transformVec := Vec3(0.0, -0.25, -2.0);
    }

    method HandleKeyDown(key: string)
      modifies this`pressed
      ensures pressed == KeyDown(old(pressed), key)
    {
      pressed := pressed[key := true];
    }

    method HandleKeyUp(key: string)
      modifies this`pressed
      ensures pressed == KeyUp(old(pressed), key)
    {
      pressed := pressed[key := false];
    }

    /** The key part of `animate` for the turn: one degree of roll per
        left/right arrow and one of pitch per up/down arrow. */
    method ReadTurnKeys() returns (roll: int, pitch: int)
      ensures roll == Steer(pressed, "ArrowLeft", "ArrowRight")
      ensures pitch == Steer(pressed, "ArrowUp", "ArrowDown")
    {
      roll, pitch := 0, 0;
      if IsDown(pressed, "ArrowLeft") { roll := roll - 1; }
      if IsDown(pressed, "ArrowRight") { roll := roll + 1; }
      if IsDown(pressed, "ArrowUp") { pitch := pitch - 1; }
      if IsDown(pressed, "ArrowDown") { pitch := pitch + 1; }
    }

    /** The speed part of `animate`. */
    method UpdateSpeed()
      modifies this`speed
      ensures speed == NextSpeed(old(speed), IsDown(pressed, "+"), IsDown(pressed, "-"))
      ensures MinSpeed <= speed <= MaxSpeed
    {
      if IsDown(pressed, "+") { speed := speed + SpeedStep; }
      if IsDown(pressed, "-") { speed := speed - SpeedStep; }
      if speed > MaxSpeed { speed := MaxSpeed; }
      if speed < MinSpeed { speed := MinSpeed; }
    }

    /** `animate`: roll and pitch by the arrow keys, change the speed by
        `+`/`-`, then move. The key map is only read. */
    method Animate(rotate: (Vec3, int, Vec3) -> Vec3)
      modifies this`speed, this`viewDir, this`up, this`transformVec
      ensures speed == NextSpeed(old(speed), IsDown(pressed, "+"), IsDown(pressed, "-"))
      ensures MinSpeed <= speed <= MaxSpeed
      ensures (viewDir, up) == Turned(old(viewDir), old(up),
                                      Steer(pressed, "ArrowLeft", "ArrowRight"),
                                      Steer(pressed, "ArrowUp", "ArrowDown"), rotate)
      ensures transformVec == Moved(old(transformVec), viewDir, speed)
    {
      var roll, pitch := ReadTurnKeys();
      UpdateSpeed();
      ghost var turned := Turned(viewDir, up, roll, pitch, rotate);
      // Rolling
      viewDir, up := rotate(viewDir, roll, viewDir), rotate(viewDir, roll, up);
      // Pitching
      var normal := Cross(viewDir, up);
      viewDir, up := rotate(normal, pitch, viewDir), rotate(normal, pitch, up);
      assert viewDir == turned.0 && up == turned.1;
      // Movement
      var movement := Scale(viewDir, speed);
      movement := Scale(movement, -1.0);
      transformVec := Add(transformVec, movement);
    }
  }

  /** `draw`: the terrain is drawn between one push and one pop, with the
      camera matrix moved by `place` (the translate and two rotations).
      Returns the matrix the terrain is drawn with; the pop does not throw
      and the stack ends as it began. */
  method Draw<M>(view: ModelView<M>, lookAt: M, place: M -> M) returns (drawn: M)
    modifies view
    ensures drawn == place(lookAt)
    ensures view.mvMatrix == lookAt && view.stack == old(view.stack)
  {
    view.mvMatrix := lookAt;
    view.Push();
    view.mvMatrix := place(view.mvMatrix);
    drawn := view.mvMatrix;
    PushChangePop(ViewState(lookAt, old(view.stack)), drawn);
    var thrown := view.Pop();
    assert thrown.None?;
  }
}
