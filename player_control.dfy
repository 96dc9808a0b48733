/** The player controller component: the state it keeps between ticks and
    frames, and one method per step it runs. Physics and animator calls are
    modelled as parameters (the ray's result, the body's velocity) and as
    recorded outputs (the AddForce log, the animator parameters). */
module PlayerControl {
  import opened UnityMath
  import opened Locomotion

  /** The component's serialized settings. */
  datatype Config = Config(
    animBlendSpeed: real,
    upperLimit: real,
    bottomLimit: real,
    mouseSensitivity: real,
    jumpFactor: real,
    disToGround: real,
    airResistance: real)

  /** The values the component ships with in its declarations. */
  const DefaultConfig: Config := Config(8.9, -40.0, 70.0, 21.9, 260.0, 0.8, 0.8)

  /** With the shipped limits the pitch clamp has ordered bounds, so the
      pitch stays in [-40, 70] after every look frame. */
  lemma DefaultPitchStaysInLimits(pitch: real, frames: seq<LookFrame>)
    requires frames != []
    ensures -40.0 <= PitchAfterFrames(pitch, frames, DefaultConfig.mouseSensitivity,
                                      DefaultConfig.upperLimit, DefaultConfig.bottomLimit) <= 70.0
  {
    PitchStaysInLimits(pitch, frames, DefaultConfig.mouseSensitivity,
                       DefaultConfig.upperLimit, DefaultConfig.bottomLimit);
  }

  class PlayerController {
    const config: Config
    /** Whether an Animator was found on start-up; it never changes. */
    const hasAnimator: bool

    var isGrounded: bool
    /** Blended planar velocity: x sideways, y forward. */
    var currentVelocity: Vec2
    /** Camera pitch accumulator (the source spells it xRoation). */
    var xRotation: real
    /** The body's yaw, in degrees, as rotated by mouse look. */
    var yaw: real
    var firstPriority: int
    var thirdPriority: int
    var cameraFollowPosition: Vec3
    var cameraMainPosition: Vec3
    /** The animator parameters as last written. */
    var anim: AnimatorParams
    /** Every AddForce call made on the body, oldest first. */
    var forces: seq<Force>

    constructor (config: Config, hasAnimator: bool, firstPriority: int, thirdPriority: int,
                 yaw: real, cameraPosition: Vec3, anim: AnimatorParams)
      ensures this.config == config && this.hasAnimator == hasAnimator
      ensures this.firstPriority == firstPriority && this.thirdPriority == thirdPriority
      ensures this.yaw == yaw && this.anim == anim
      ensures cameraFollowPosition == cameraPosition && cameraMainPosition == cameraPosition
      ensures !isGrounded && currentVelocity == Zero2 && xRotation == 0.0 && forces == []
    {
      this.config := config;
      this.hasAnimator := hasAnimator;
      this.firstPriority := firstPriority;
      this.thirdPriority := thirdPriority;
      this.yaw := yaw;
      this.anim := anim;
      cameraFollowPosition := cameraPosition;
      cameraMainPosition := cameraPosition;
      isGrounded := false;
      currentVelocity := Zero2;
      xRotation := 0.0;
      forces := [];
    }

    /** Publish the grounding flags: Falling is the negation of Grounded. */
    method SetAnimationGrounding()
      modifies this`anim
      ensures anim == old(anim).(falling := !isGrounded, grounded := isGrounded)
    {
      anim := anim.(falling := !isGrounded);
      anim := anim.(grounded := isGrounded);
    }

    /** Cast the ground ray, record the result in isGrounded, and publish
        the flags; only an airborne tick publishes the fall speed. */
    method DetectGround(groundBelow: Option<real>, bodyVelocity: Vec3)
      modifies this`isGrounded, this`anim
      ensures !hasAnimator ==> isGrounded == old(isGrounded) && anim == old(anim)
      ensures hasAnimator ==> isGrounded == RayHits(groundBelow, config.disToGround)
      ensures hasAnimator ==> anim.falling == !isGrounded && anim.grounded == isGrounded
      ensures hasAnimator ==> anim == old(anim).(
                zVelocity := if isGrounded then old(anim.zVelocity) else bodyVelocity.y,
                falling := !isGrounded,
                grounded := isGrounded)
    {
      if !hasAnimator {
        return;
      }
      if RayHits(groundBelow, config.disToGround) {
        isGrounded := true;
        SetAnimationGrounding();
        return;
      }
      isGrounded := false;
      anim := anim.(zVelocity := bodyVelocity.y);
      SetAnimationGrounding();
    }

    /** Pick the target speed, blend the velocity when grounded, push the
        body by a velocity change, and publish the blended velocity. */
    method Move(input: InputSnapshot, bodyVelocity: Vec3, fixedDeltaTime: real)
      modifies this`currentVelocity, this`anim, this`forces
      ensures !hasAnimator ==> currentVelocity == old(currentVelocity) && anim == old(anim) && forces == old(forces)
      ensures hasAnimator ==>
        currentVelocity == TickVelocity(old(currentVelocity), input, isGrounded, config.animBlendSpeed * fixedDeltaTime)
      ensures hasAnimator ==> forces == old(forces) + [Force(
        TickVelocityChange(currentVelocity, bodyVelocity, isGrounded, config.airResistance), VelocityChange)]
      ensures hasAnimator ==> anim == old(anim).(xVelocity := currentVelocity.x, yVelocity := currentVelocity.y)
    {
      if !hasAnimator {
        return;
      }
      var targetSpeed := SelectTargetSpeed(input);
      if isGrounded {
        var t := config.animBlendSpeed * fixedDeltaTime;
        currentVelocity := currentVelocity.(x := Lerp(currentVelocity.x, input.move.x * targetSpeed, t));
        currentVelocity := currentVelocity.(y := Lerp(currentVelocity.y, input.move.y * targetSpeed, t));
        var xVelDifference := currentVelocity.x - bodyVelocity.x;
        var zVelDifference := currentVelocity.y - bodyVelocity.z;
        forces := forces + [Force(Vec3(xVelDifference, 0.0, zVelDifference), VelocityChange)];
      } else {
        assert AirborneVelocityChange(currentVelocity, config.airResistance)
            == Vec3(currentVelocity.x * config.airResistance, 0.0, currentVelocity.y * config.airResistance);
        forces := forces + [Force(Vec3(currentVelocity.x * config.airResistance, 0.0,
                                       currentVelocity.y * config.airResistance), VelocityChange)];
      }
      anim := anim.(xVelocity := currentVelocity.x);
      anim := anim.(yVelocity := currentVelocity.y);
    }

    /** Re-sync the camera pivot to the head, pitch the camera within its
        limits and turn the body by the horizontal look. */
    method CameraMovement(input: InputSnapshot, headPosition: Vec3, smoothDeltaTime: real)
      modifies this`xRotation, this`yaw, this`cameraFollowPosition, this`cameraMainPosition
      ensures !hasAnimator ==> (xRotation == old(xRotation) && yaw == old(yaw)
                && cameraFollowPosition == old(cameraFollowPosition)
                && cameraMainPosition == old(cameraMainPosition))
      ensures hasAnimator ==> xRotation == PitchStep(old(xRotation), input.look.y, config.mouseSensitivity,
                                                     smoothDeltaTime, config.upperLimit, config.bottomLimit)
      ensures hasAnimator && config.upperLimit <= config.bottomLimit ==>
                config.upperLimit <= xRotation <= config.bottomLimit
      ensures hasAnimator ==> yaw == old(yaw) + input.look.x * config.mouseSensitivity * smoothDeltaTime
      ensures hasAnimator ==> cameraFollowPosition == headPosition && cameraMainPosition == headPosition
    {
      if !hasAnimator {
        return;
      }
      var mouseX := input.look.x;
      var mouseY := input.look.y;
      cameraFollowPosition := headPosition;
      cameraMainPosition := cameraFollowPosition;
      xRotation := xRotation - mouseY * config.mouseSensitivity * smoothDeltaTime;
      xRotation := Clamp(xRotation, config.upperLimit, config.bottomLimit);
      yaw := yaw + mouseX * config.mouseSensitivity * smoothDeltaTime;
    }

    /** Set the Jump trigger when the jump button is held on the ground. */
    method HandleJump(input: InputSnapshot)
      modifies this`anim
      ensures anim == old(anim).(jumpTrigger := old(anim.jumpTrigger) || (hasAnimator && input.jump && isGrounded))
      ensures !isGrounded ==> anim == old(anim)
    {
      if !hasAnimator {
        return;
      }
      if !input.jump {
        return;
      }
      if !isGrounded {
        return;
      }
      anim := anim.(jumpTrigger := true);
    }

    /** Public entry point called from outside the component (presumably an
        animation event at lift-off): cancel the vertical velocity, add
        the jump impulse, and consume the Jump trigger. With no animator the
        two forces are still applied but the trigger reset is not reached. */
    method JumpAddForce(bodyVelocity: Vec3)
      modifies this`forces, this`anim
      ensures forces == old(forces) + JumpForces(bodyVelocity, config.jumpFactor)
      ensures anim == if hasAnimator then old(anim).(jumpTrigger := false) else old(anim)
    {
      forces := forces + [Force(Vec3(0.0, -bodyVelocity.y, 0.0), VelocityChange)];
      forces := forces + [Force(Vec3(0.0, config.jumpFactor, 0.0), Impulse)];
      if hasAnimator {
        anim := anim.(jumpTrigger := false);
      }
    }

    /** Toggle the point of view: only the third-person priority moves. */
    method ChangePov(input: InputSnapshot)
      modifies this`thirdPriority
      ensures thirdPriority == if hasAnimator && input.camChanged
                               then PovToggle(firstPriority, old(thirdPriority))
                               else old(thirdPriority)
      ensures old(PovInRange(firstPriority, thirdPriority)) ==> PovInRange(firstPriority, thirdPriority)
    {
      if !hasAnimator {
        return;
      }
      if !input.camChanged {
        return;
      }
      if firstPriority > thirdPriority {
        thirdPriority := thirdPriority + PovStep;
      } else {
        thirdPriority := thirdPriority - PovStep;
      }
    }

    /** Mirror the crouch button into the Crouch flag. */
    method HandleCrouch(input: InputSnapshot)
      modifies this`anim
      ensures anim == if hasAnimator then old(anim).(crouch := input.crouch) else old(anim)
    {
      if !hasAnimator {
        return;
      }
      anim := anim.(crouch := input.crouch);
    }

    /** One physics tick: ground detection, movement, jump gating, crouch,
        in that order, all reading the same pre-tick body velocity. */
    method FixedTick(input: InputSnapshot, groundBelow: Option<real>, bodyVelocity: Vec3, fixedDeltaTime: real)
      modifies this`isGrounded, this`currentVelocity, this`anim, this`forces
      ensures !hasAnimator ==> (isGrounded == old(isGrounded) && currentVelocity == old(currentVelocity)
                && anim == old(anim) && forces == old(forces))
      ensures hasAnimator ==> isGrounded == RayHits(groundBelow, config.disToGround)
      ensures hasAnimator ==>
        currentVelocity == TickVelocity(old(currentVelocity), input, isGrounded, config.animBlendSpeed * fixedDeltaTime)
      ensures hasAnimator ==> forces == old(forces) + [Force(
        TickVelocityChange(currentVelocity, bodyVelocity, isGrounded, config.airResistance), VelocityChange)]
      ensures hasAnimator ==> anim == AnimatorParams(
                currentVelocity.x,
                currentVelocity.y,
                if isGrounded then old(anim.zVelocity) else bodyVelocity.y,
                isGrounded,
                !isGrounded,
                input.crouch,
                old(anim.jumpTrigger) || (input.jump && isGrounded))
      ensures !isGrounded ==> anim.jumpTrigger == old(anim.jumpTrigger)
    {
      DetectGround(groundBelow, bodyVelocity);
      Move(input, bodyVelocity, fixedDeltaTime);
      HandleJump(input);
      HandleCrouch(input);
    }
  }

  /** Two POV toggles from priorities inside the alternation band leave the
      controller's priorities exactly as they were. */
  method TogglePovTwice(c: PlayerController, input: InputSnapshot)
    requires c.hasAnimator && input.camChanged
    requires PovInRange(c.firstPriority, c.thirdPriority)
    modifies c`thirdPriority
    ensures c.firstPriority == old(c.firstPriority) && c.thirdPriority == old(c.thirdPriority)
  {
    c.ChangePov(input);
    c.ChangePov(input);
    PovToggleFlips(c.firstPriority, old(c.thirdPriority));
  }
}
