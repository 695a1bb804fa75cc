/**
 * The player controller: touch handlers that update a map of touch
 * records, and the per-frame update that resolves steering, applies a
 * pending jump while grounded, composes the velocity and turns the yaw
 * toward the target heading. The engine's values (grounding from the ray
 * cast, the rigid body's velocity, the facing vector, the current yaw,
 * the height) come in as parameters; the velocity and yaw go out.
 */
module PlayerControl {
  import opened Wrappers
  import opened Vectors
  import opened Angles
  import opened Touches

  /** Below this height the player has fallen and the death callback fires. */
  const DeathHeight: real := -0.2

  /** What a frame hands back to the engine: nothing without a rigid body. */
  datatype FrameOutput = Skipped | Ticked(velocity: RVec3, yaw: real, died: bool)

  // ---------------------------------------------------------------------
  // Velocity

  /**
   * The velocity set on the rigid body: lateral steering on X, the body's
   * vertical speed (or the jump speed on a jump frame), and the facing
   * vector scaled by the forward speed added on top.
   */
  function ComposeVelocity(steer: int, moveSpeed: real, vy: real, forward: RVec3, forwardSpeed: real): RVec3 {
    RVec3(steer as real * moveSpeed + forward.x * forwardSpeed,
          vy + forward.y * forwardSpeed,
          forward.z * forwardSpeed)
  }

  /** The vertical speed after the jump step: the jump speed when a pending jump meets the ground. */
  function JumpVy(requested: bool, grounded: bool, vy: real, jumpForce: real): real {
    if requested && grounded then jumpForce else vy
  }

  /** Only the body's vertical speed reaches the new velocity; its x and z are discarded. */
  lemma BodyHorizontalSpeedDiscarded(steer: int, moveSpeed: real, body1: RVec3, body2: RVec3,
                                     requested: bool, grounded: bool, jumpForce: real,
                                     forward: RVec3, forwardSpeed: real)
    requires body1.y == body2.y
    ensures ComposeVelocity(steer, moveSpeed, JumpVy(requested, grounded, body1.y, jumpForce), forward, forwardSpeed)
         == ComposeVelocity(steer, moveSpeed, JumpVy(requested, grounded, body2.y, jumpForce), forward, forwardSpeed)
  {
  }

  /**
   * Steering is along world X whatever the facing: when the player faces
   * along X it speeds up or slows the run instead of moving sideways.
   */
  lemma SteeringAlongRunWhenFacingX(steer: int, moveSpeed: real, vy: real, sx: real, forwardSpeed: real)
    requires sx == 1.0 || sx == -1.0
    ensures var v := ComposeVelocity(steer, moveSpeed, vy, RVec3(sx, 0.0, 0.0), forwardSpeed);
      v.z == 0.0 && v.x == steer as real * moveSpeed + sx * forwardSpeed
  {
  }

  // ---------------------------------------------------------------------
  // The jump request over several frames

  /** How many of these frames apply the jump, starting with the request pending or not. */
  function JumpsApplied(requested: bool, grounded: seq<bool>): nat
    decreases |grounded|
  {
    if grounded == [] then 0
    else (if requested && grounded[0] then 1 else 0) + JumpsApplied(requested && !grounded[0], grounded[1..])
  }

  /** Whether the request is still pending after these frames. */
  function PendingAfter(requested: bool, grounded: seq<bool>): bool
    decreases |grounded|
  {
    if grounded == [] then requested
    else PendingAfter(requested && !grounded[0], grounded[1..])
  }

  /**
   * With no new swipe, a pending jump is applied exactly once, on the
   * first grounded frame, and waits while the player is airborne; with no
   * request nothing is applied.
   */
  lemma {:induction false} JumpAppliedOnce(requested: bool, grounded: seq<bool>)
    ensures JumpsApplied(requested, grounded) == (if requested && true in grounded then 1 else 0)
    ensures PendingAfter(requested, grounded) == (requested && true !in grounded)
    decreases |grounded|
  {
    if grounded != [] {
      JumpAppliedOnce(requested && !grounded[0], grounded[1..]);
      assert true in grounded <==> grounded[0] || true in grounded[1..];
    }
  }

  // ---------------------------------------------------------------------
  // The effect of a gesture on the intents

  /** The target heading after a gesture: a right swipe turns right, a left swipe left. */
  function TargetAfter(target: int, g: Gesture): int {
    match g
    case SwipeRight => TurnRightAngle(target)
    case SwipeLeft => TurnLeftAngle(target)
    case _ => target
  }

  /** The jump request after a gesture: an upward swipe raises it when grounded. */
  function JumpAfter(requested: bool, grounded: bool, g: Gesture): bool {
    requested || (g == SwipeUp && grounded)
  }

  /** The target heading after successive moves of one touch. */
  function TargetAfterMoves(target: int, t: TouchState, moves: seq<Vec2>): int
    decreases |moves|
  {
    if moves == [] then target
    else TargetAfterMoves(TargetAfter(target, Classify(t, moves[0])), AfterMove(t, moves[0]), moves[1..])
  }

  /**
   * However a touch moves, it turns the target heading at most once: by
   * +90, -90 or not at all; a committed touch not at all.
   */
  lemma {:induction false} OneTouchTurnsAtMostOnce(target: int, t: TouchState, moves: seq<Vec2>)
    requires target % 90 == 0
    ensures var r := TargetAfterMoves(target, t, moves);
      r == target || r == target + 90 || r == target - 90
    ensures t.isSlide ==> TargetAfterMoves(target, t, moves) == target
    decreases |moves|
  {
    if moves != [] {
      var t' := AfterMove(t, moves[0]);
      var g := Classify(t, moves[0]);
      OneTouchTurnsAtMostOnce(TargetAfter(target, g), t', moves[1..]);
      if g != NoGesture {
        CommittedTouchKeepsTarget(TargetAfter(target, g), t', moves[1..]);
      }
    }
  }

  lemma {:induction false} CommittedTouchKeepsTarget(target: int, t: TouchState, moves: seq<Vec2>)
    requires t.isSlide
    ensures TargetAfterMoves(target, t, moves) == target
    decreases |moves|
  {
    if moves != [] {
      CommittedTouchKeepsTarget(target, AfterMove(t, moves[0]), moves[1..]);
    }
  }

  // ---------------------------------------------------------------------
  // The component

  class PlayerController {
    /** Editor configuration. */
    const moveSpeed: real
    const jumpForce: real
    const forwardSpeed: real
    /** Whether the rigid body and the game manager references are set. */
    const hasRigidBody: bool
    const hasGameManager: bool

    var activeTouches: map<int, TouchState>
    var targetRotationY: int
    var isGrounded: bool
    var velocity: RVec3
    var moveDirection: int
    var jumpRequested: bool

    ghost predicate Valid()
      reads this
    {
      targetRotationY % 90 == 0 && -1 <= moveDirection <= 1
    }

    constructor (moveSpeed: real, jumpForce: real, forwardSpeed: real, hasRigidBody: bool, hasGameManager: bool)
      ensures this.moveSpeed == moveSpeed && this.jumpForce == jumpForce && this.forwardSpeed == forwardSpeed
      ensures this.hasRigidBody == hasRigidBody && this.hasGameManager == hasGameManager
      ensures activeTouches == map[] && targetRotationY == 0 && !isGrounded
      ensures velocity == RVec3(0.0, 0.0, 0.0) && moveDirection == 0 && !jumpRequested
      ensures Valid()
    {
      this.moveSpeed := moveSpeed;
      this.jumpForce := jumpForce;
      this.forwardSpeed := forwardSpeed;
      this.hasRigidBody := hasRigidBody;
      this.hasGameManager := hasGameManager;
      activeTouches := map[];
      targetRotationY := 0;
      isGrounded := false;
      velocity := RVec3(0.0, 0.0, 0.0);
      moveDirection := 0;
      jumpRequested := false;
    }

    /** A new touch: a fresh record under its id (replacing any record with that id). */
    method OnTouchStart(id: int, pos: Vec2)
      modifies this`activeTouches
      ensures activeTouches == old(activeTouches)[id := NewTouch(pos)]
    {
      activeTouches := activeTouches[id := NewTouch(pos)];
    }

    /** A touch ends: its record, and only its record, is dropped. */
    method OnTouchEnd(id: int)
      modifies this`activeTouches
      ensures activeTouches == old(activeTouches) - {id}
    {
      activeTouches := activeTouches - {id};
    }

    method TurnLeft()
      requires Valid()
      modifies this`targetRotationY
      ensures Valid()
      ensures targetRotationY == old(targetRotationY) + 90
    {
      targetRotationY := TurnLeftAngle(targetRotationY);
    }

    method TurnRight()
      requires Valid()
      modifies this`targetRotationY
      ensures Valid()
      ensures targetRotationY == old(targetRotationY) - 90
    {
      targetRotationY := TurnRightAngle(targetRotationY);
    }

    /**
     * A touch moves: an unknown id is ignored; otherwise the record takes
     * the new position and, if uncommitted, an upward swipe commits it and
     * requests a jump when grounded, or a horizontal swipe commits it and
     * turns the target heading.
     */
    method OnTouchMove(id: int, pos: Vec2)
      requires Valid()
      modifies this`activeTouches, this`targetRotationY, this`jumpRequested
      ensures Valid()
      ensures id !in old(activeTouches) ==>
        activeTouches == old(activeTouches) && targetRotationY == old(targetRotationY) && jumpRequested == old(jumpRequested)
      ensures id in old(activeTouches) ==>
        var t := old(activeTouches)[id];
        && activeTouches == old(activeTouches)[id := AfterMove(t, pos)]
        && targetRotationY == TargetAfter(old(targetRotationY), Classify(t, pos))
        && jumpRequested == JumpAfter(old(jumpRequested), isGrounded, Classify(t, pos))
    {
      if id !in activeTouches {
        return;
      }
      var touch := activeTouches[id];
      touch := touch.(currentPos := pos);
      var dx := pos.x - touch.startPos.x;
      var dy := pos.y - touch.startPos.y;
      if !touch.isSlide {
        if dy > SwipeThreshold {
          touch := touch.(isSlide := true);
          if isGrounded {
            jumpRequested := true;
          }
        } else if (if dx < 0.0 then -dx else dx) > SwipeThreshold {
          touch := touch.(isSlide := true);
          if dx > 0.0 {
            TurnRight();
          } else {
            TurnLeft();
          }
        }
      }
      activeTouches := activeTouches[id := touch];
    }

    /**
     * One frame. Grounding is taken from the probe even without a rigid
     * body; with one, every touch ages by dt, the steering direction is
     * resolved, a pending jump is applied only when grounded, the velocity
     * is composed from the body's velocity and the facing vector, the yaw
     * turns toward the target, and death fires whenever the height is
     * below -0.2 and a game manager is set.
     */
    method Update(dt: real, grounded: bool, screenWidth: real, bodyVelocity: RVec3, forward: RVec3,
                  currentYaw: real, height: real) returns (out: FrameOutput)
      requires Valid()
      modifies this
      ensures Valid()
      ensures isGrounded == grounded && targetRotationY == old(targetRotationY)
      ensures !hasRigidBody ==>
        && out == Skipped
        && activeTouches == old(activeTouches) && moveDirection == old(moveDirection)
        && jumpRequested == old(jumpRequested) && velocity == old(velocity)
      ensures hasRigidBody ==>
        && activeTouches == Aged(old(activeTouches), dt)
        && moveDirection == ResolveSteering(activeTouches, screenWidth)
        && jumpRequested == (old(jumpRequested) && !grounded)
        && velocity == ComposeVelocity(moveDirection, moveSpeed,
                                       JumpVy(old(jumpRequested), grounded, bodyVelocity.y, jumpForce),
                                       forward, forwardSpeed)
        && out == Ticked(velocity, SmoothYaw(currentYaw, targetRotationY, dt), height < DeathHeight && hasGameManager)
    {
      isGrounded := grounded;
      if !hasRigidBody {
        return Skipped;
      }

      var leftHeld, rightHeld := AgeTouches(dt, screenWidth);
      if leftHeld && !rightHeld {
        moveDirection := -1;
      } else if rightHeld && !leftHeld {
        moveDirection := 1;
      } else {
        moveDirection := 0;
      }
      assert moveDirection == Steering(leftHeld, rightHeld);
      ApplyVelocity(bodyVelocity, forward);

      var newYaw := currentYaw + CappedDelta(NormalizeDiff(targetRotationY as real - currentYaw), RotationSpeed * dt);
      out := Ticked(velocity, newYaw, height < DeathHeight && hasGameManager);
    }

    /**
     * The velocity step of a frame: start from the body's velocity, apply
     * a pending jump only when grounded (clearing the request), set the
     * lateral and vertical parts, and add the forward drive.
     */
    method ApplyVelocity(bodyVelocity: RVec3, forward: RVec3)
      modifies this`velocity, this`jumpRequested
      ensures jumpRequested == (old(jumpRequested) && !isGrounded)
      ensures velocity == ComposeVelocity(moveDirection, moveSpeed,
                                          JumpVy(old(jumpRequested), isGrounded, bodyVelocity.y, jumpForce),
                                          forward, forwardSpeed)
    {
      var v := bodyVelocity;
      if jumpRequested && isGrounded {
        v := v.(y := jumpForce);
        jumpRequested := false;
      }
      v := RVec3(moveDirection as real * moveSpeed, v.y, 0.0);
      var push := RVec3(forward.x * forwardSpeed, forward.y * forwardSpeed, forward.z * forwardSpeed);
      velocity := RVec3(v.x + push.x, v.y + push.y, v.z + push.z);
    }

    /**
     * The touch loop of a frame: every touch's held time grows by dt, and
     * the two flags report whether some steering touch started in the
     * left, respectively the right, half of the screen.
     */
    method AgeTouches(dt: real, screenWidth: real) returns (leftHeld: bool, rightHeld: bool)
      modifies this`activeTouches
      ensures activeTouches == Aged(old(activeTouches), dt)
      ensures leftHeld == LeftHeld(activeTouches, screenWidth)
      ensures rightHeld == RightHeld(activeTouches, screenWidth)
    {
      leftHeld, rightHeld := false, false;
      ghost var before := activeTouches;
      var pending := activeTouches.Keys;
      while exists id :: id in pending
        invariant pending <= before.Keys
        invariant activeTouches.Keys == before.Keys
        invariant forall id :: id in before && id !in pending ==>
                    activeTouches[id] == before[id].(timeHeld := before[id].timeHeld + dt)
        invariant forall id :: id in pending ==> activeTouches[id] == before[id]
        invariant leftHeld <==>
                    (exists id :: id in activeTouches && id !in pending && Steers(activeTouches[id]) && OnLeftHalf(activeTouches[id], screenWidth))
        invariant rightHeld <==>
                    (exists id :: id in activeTouches && id !in pending && Steers(activeTouches[id]) && !OnLeftHalf(activeTouches[id], screenWidth))
        decreases pending
      {
        var id :| id in pending;
        var touch := activeTouches[id];
        touch := touch.(timeHeld := touch.timeHeld + dt);
        activeTouches := activeTouches[id := touch];
        pending := pending - {id};
        if !touch.isSlide && touch.timeHeld >= LongPressThreshold {
          if touch.startPos.x < screenWidth / 2.0 {
            leftHeld := true;
          } else {
            rightHeld := true;
          }
        }
      }
      assert activeTouches == Aged(before, dt) by {
        var aged := Aged(before, dt);
        assert activeTouches.Keys == aged.Keys;
        forall id | id in activeTouches ensures activeTouches[id] == aged[id] {
        }
      }
    }

    /**
     * Restart: all touches and intents cleared, grounded false, target
     * heading 0; the returned yaw is 0, and with a rigid body the cached
     * velocity is zeroed and the returned position is (0, 1, 0).
     */
    method Reset() returns (yaw: real, position: Option<RVec3>)
      modifies this
      ensures Valid()
      ensures activeTouches == map[] && moveDirection == 0 && !jumpRequested && !isGrounded
      ensures targetRotationY == 0 && yaw == 0.0
      ensures velocity == (if hasRigidBody then RVec3(0.0, 0.0, 0.0) else old(velocity))
      ensures position == (if hasRigidBody then Some(RVec3(0.0, 1.0, 0.0)) else None)
    {
      activeTouches := map[];
      moveDirection := 0;
      jumpRequested := false;
      isGrounded := false;
      yaw := 0.0;
      targetRotationY := 0;
      position := None;
      if hasRigidBody {
        velocity := RVec3(0.0, 0.0, 0.0);
        position := Some(RVec3(0.0, 1.0, 0.0));
      }
    }
  }
}
