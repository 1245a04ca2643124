/** The game's third-person camera (TrackingCamera): it follows a target
    from behind at a distance the mouse wheel sets, swings around it with
    the mouse unless frozen, and hands the scene's point lights to the
    shader in four parallel arrays. The view and projection matrices
    (computeFrame, getMovementVector) are matrix numerics and are not
    modelled; the view transform of a light's position is a parameter. */
module TrackingCameras {
  import opened Common

  /** Math.PI. */
  const Pi: real := 3.141592653589793

  /** The parts of a PointLight the camera reads. */
  datatype PointLight = PointLight(WorldPosition: Vec3, FalloffDistance: real, Energy: real, Color: Vec3)

  function EyePositions(lights: seq<PointLight>, eyeOf: Vec3 -> Vec3): (r: seq<Vec3>)
    ensures |r| == |lights|
  {
    seq(|lights|, k requires 0 <= k < |lights| => eyeOf(lights[k].WorldPosition))
  }

  function Falloffs(lights: seq<PointLight>): (r: seq<real>)
    ensures |r| == |lights|
  {
    seq(|lights|, k requires 0 <= k < |lights| => lights[k].FalloffDistance)
  }

  function Energies(lights: seq<PointLight>): (r: seq<real>)
    ensures |r| == |lights|
  {
    seq(|lights|, k requires 0 <= k < |lights| => lights[k].Energy)
  }

  function Colors(lights: seq<PointLight>): (r: seq<Vec3>)
    ensures |r| == |lights|
  {
    seq(|lights|, k requires 0 <= k < |lights| => lights[k].Color)
  }

  /** A light array after the lights' values are stored one per slot from
      slot 0: the first |values| slots hold the values in order, the others
      keep what they held. */
  function Filled<T>(slots: seq<T>, values: seq<T>): (r: seq<T>)
    requires |values| <= |slots|
    ensures |r| == |slots|
    ensures forall k :: 0 <= k < |r| ==> r[k] == if k < |values| then values[k] else slots[k]
  {
    values + slots[|values|..]
  }

  /** A light array after transformPointLights as written: the slot index
      is never advanced, so each light overwrites slot 0, which ends up
      holding the last light; no other slot changes. With no slots at all
      the loop stops before writing. */
  function LastInSlotZero<T>(slots: seq<T>, values: seq<T>): (r: seq<T>)
    ensures |r| == |slots|
    ensures |slots| > 0 && |values| > 0 ==> r[0] == values[|values| - 1]
    ensures forall k :: 1 <= k < |r| ==> r[k] == slots[k]
    ensures |slots| == 0 || |values| == 0 ==> r == slots
  {
    if |slots| == 0 || |values| == 0 then slots else slots[0 := values[|values| - 1]]
  }

  /** As written, two lights of energies 1 and 2 reach the shader, told
      there are two lights, as energies 2 and 0: the first light is lost
      and the second slot is never set. Storing them in consecutive slots
      gives 1 and 2. */
  lemma AsWrittenLosesLights()
    ensures LastInSlotZero([0.0, 0.0], [1.0, 2.0]) == [2.0, 0.0]
    ensures Filled([0.0, 0.0], [1.0, 2.0]) == [1.0, 2.0]
  {
  }

  /** As written, whenever the first light differs from the last, the
      arrays do not start with the lights the shader is told about; stored
      in consecutive slots they always do. */
  lemma {:induction false} AsWrittenDiffers<T>(slots: seq<T>, values: seq<T>)
    requires 2 <= |values| <= |slots| && values[0] != values[|values| - 1]
    ensures LastInSlotZero(slots, values)[..|values|] != values
    ensures Filled(slots, values)[..|values|] == values
  {
    var r := LastInSlotZero(slots, values);
    assert r[..|values|][0] == values[|values| - 1];
  }

  /** Storing the next value in the first unfilled slot extends the
      filled prefix by that value. */
  lemma FilledStep<T>(slots: seq<T>, values: seq<T>, v: T)
    requires |values| < |slots|
    ensures Filled(slots, values)[|values| := v] == Filled(slots, values + [v])
  {
    assert slots[|values|..] == [slots[|values|]] + slots[|values| + 1..];
  }

  /** Overwriting slot 0 with the next value is what the as-written loop
      does for one more light. */
  lemma LastInSlotZeroStep<T>(slots: seq<T>, values: seq<T>, v: T)
    requires 0 < |slots|
    ensures LastInSlotZero(slots, values)[0 := v] == LastInSlotZero(slots, values + [v])
  {
  }

  function MinInt(a: int, b: int): int
  {
    if a <= b then a else b
  }

  class TrackingCamera {
    var MouseSensitivity: real
    var distanceBehind: real
    var pitch: real
    var yaw: real
    const fovy: real
    const aspectRatio: real
    const nearClip: real
    const farClip: real
    /** ShaderProgram.MAX_LIGHTS, whose value is not part of this model. */
    const maxLights: nat
    var numLights: int
    const lightEyePosition: array<Vec3>
    const lightFalloffDistance: array<real>
    const lightEnergy: array<real>
    const lightColor: array<Vec3>
    var frozen: bool

    /** Each light array has one slot per light the shader takes. */
    predicate Valid()
    {
      lightEyePosition.Length == maxLights && lightFalloffDistance.Length == maxLights &&
      lightEnergy.Length == maxLights && lightColor.Length == maxLights &&
      lightEyePosition != lightColor && lightFalloffDistance != lightEnergy
    }

    /** TrackingCamera(target, fovy, aspectRatio, nearClip, farClip): the
        given lens, a mouse sensitivity of 0.01, five units behind the
        target with no pitch or yaw, not frozen, and empty light arrays of
        maxLights slots. */
    constructor (fovy: real, aspectRatio: real, nearClip: real, farClip: real, maxLights: nat)
      ensures Valid() && fresh(lightEyePosition) && fresh(lightFalloffDistance) && fresh(lightEnergy) && fresh(lightColor)
      ensures this.fovy == fovy && this.aspectRatio == aspectRatio && this.nearClip == nearClip && this.farClip == farClip
      ensures MouseSensitivity == 0.01 && distanceBehind == 5.0 && pitch == 0.0 && yaw == 0.0 && !frozen
      ensures this.maxLights == maxLights && numLights == 0
      ensures forall k :: 0 <= k < maxLights ==>
        lightEyePosition[k] == Zero3 && lightFalloffDistance[k] == 0.0 && lightEnergy[k] == 0.0 && lightColor[k] == Zero3
    {
      this.fovy := fovy;
      this.aspectRatio := aspectRatio;
      this.nearClip := nearClip;
      this.farClip := farClip;
      this.maxLights := maxLights;
      MouseSensitivity := 0.01;
      distanceBehind := 5.0;
      pitch := 0.0;
      yaw := 0.0;
      numLights := 0;
      lightEyePosition := new Vec3[maxLights](_ => Zero3);
      lightFalloffDistance := new real[maxLights](_ => 0.0);
      lightEnergy := new real[maxLights](_ => 0.0);
      lightColor := new Vec3[maxLights](_ => Zero3);
      frozen := false;
    }

    /** toggleCameraFrozen: mouselook switches off or back on; nothing else
        changes. */
    method ToggleCameraFrozen()
      modifies this
      ensures frozen == !old(frozen)
      ensures pitch == old(pitch) && yaw == old(yaw) && distanceBehind == old(distanceBehind)
      ensures MouseSensitivity == old(MouseSensitivity) && numLights == old(numLights)
    {
      frozen := !frozen;
    }

    /** addRotation: nothing while frozen. Otherwise the mouse movement,
        scaled by the sensitivity and negated, turns the pitch, kept below
        a full turn by C#'s truncating %, and the yaw, held 0.1 short of
        straight up or down. */
    method AddRotation(x: real, y: real)
      modifies this
      ensures old(frozen) ==> pitch == old(pitch) && yaw == old(yaw)
      ensures !old(frozen) ==>
        pitch == TruncatedRemainder(old(pitch) + -x * old(MouseSensitivity), Pi * 2.0) &&
        yaw == Clamp(old(yaw) + -y * old(MouseSensitivity), -Pi / 2.0 + 0.1, Pi / 2.0 - 0.1)
      ensures !old(frozen) ==> -Pi * 2.0 < pitch < Pi * 2.0 && -Pi / 2.0 + 0.1 <= yaw <= Pi / 2.0 - 0.1
      ensures frozen == old(frozen) && distanceBehind == old(distanceBehind)
      ensures MouseSensitivity == old(MouseSensitivity) && numLights == old(numLights)
    {
      if frozen {
        return;
      }
      var dx := -x * MouseSensitivity;
      var dy := -y * MouseSensitivity;
      pitch := TruncatedRemainder(pitch + dx, Pi * 2.0);
      yaw := Max(Min(yaw + dy, Pi / 2.0 - 0.1), -Pi / 2.0 + 0.1);
    }

    /** zoom: the distance behind the target changes by the amount, kept
        within [1, 100]. */
    method Zoom(amount: real)
      modifies this
      ensures 1.0 <= distanceBehind <= 100.0
      ensures 1.0 <= old(distanceBehind) + amount <= 100.0 ==> distanceBehind == old(distanceBehind) + amount
      ensures old(distanceBehind) + amount < 1.0 ==> distanceBehind == 1.0
      ensures old(distanceBehind) + amount > 100.0 ==> distanceBehind == 100.0
      ensures pitch == old(pitch) && yaw == old(yaw) && frozen == old(frozen)
      ensures MouseSensitivity == old(MouseSensitivity) && numLights == old(numLights)
    {
      distanceBehind := distanceBehind + amount;
      distanceBehind := Max(Min(distanceBehind, 100.0), 1.0);
    }

    /** One iteration's stores: the light's eye-space position, falloff,
        energy and colour go into slot i of the four arrays. */
    method StoreLight(i: nat, light: PointLight, eyeOf: Vec3 -> Vec3)
      requires Valid() && i < maxLights
      modifies lightEyePosition, lightFalloffDistance, lightEnergy, lightColor
      ensures lightEyePosition[..] == old(lightEyePosition[..])[i := eyeOf(light.WorldPosition)]
      ensures lightFalloffDistance[..] == old(lightFalloffDistance[..])[i := light.FalloffDistance]
      ensures lightEnergy[..] == old(lightEnergy[..])[i := light.Energy]
      ensures lightColor[..] == old(lightColor[..])[i := light.Color]
    {
      lightEyePosition[i] := eyeOf(light.WorldPosition);
      lightFalloffDistance[i] := light.FalloffDistance;
      lightEnergy[i] := light.Energy;
      lightColor[i] := light.Color;
    }

    /** transformPointLights as written: the light count sent to the shader
        is min(|lights|, maxLights), but the slot index stays 0, so slot 0
        ends up with the last light and the other slots are never set. */
    method TransformPointLightsAsWritten(lights: seq<PointLight>, eyeOf: Vec3 -> Vec3)
      requires Valid()
      modifies this, lightEyePosition, lightFalloffDistance, lightEnergy, lightColor
      ensures numLights == MinInt(|lights|, maxLights)
      ensures lightEyePosition[..] == LastInSlotZero(old(lightEyePosition[..]), EyePositions(lights, eyeOf))
      ensures lightFalloffDistance[..] == LastInSlotZero(old(lightFalloffDistance[..]), Falloffs(lights))
      ensures lightEnergy[..] == LastInSlotZero(old(lightEnergy[..]), Energies(lights))
      ensures lightColor[..] == LastInSlotZero(old(lightColor[..]), Colors(lights))
      ensures pitch == old(pitch) && yaw == old(yaw) && frozen == old(frozen)
      ensures MouseSensitivity == old(MouseSensitivity) && distanceBehind == old(distanceBehind)
    {
      numLights := MinInt(|lights|, maxLights);
      var i := 0;
      for n := 0 to |lights|
        invariant numLights == MinInt(|lights|, maxLights)
        invariant pitch == old(pitch) && yaw == old(yaw) && frozen == old(frozen)
        invariant MouseSensitivity == old(MouseSensitivity) && distanceBehind == old(distanceBehind)
        invariant lightEyePosition[..] == LastInSlotZero(old(lightEyePosition[..]), EyePositions(lights[..n], eyeOf))
        invariant lightFalloffDistance[..] == LastInSlotZero(old(lightFalloffDistance[..]), Falloffs(lights[..n]))
        invariant lightEnergy[..] == LastInSlotZero(old(lightEnergy[..]), Energies(lights[..n]))
        invariant lightColor[..] == LastInSlotZero(old(lightColor[..]), Colors(lights[..n]))
      {
        if i >= maxLights {
          break;
        }
        var light := lights[n];
        StoreLight(i, light, eyeOf);
        assert lights[..n + 1] == lights[..n] + [light];
        LastInSlotZeroStep(old(lightEyePosition[..]), EyePositions(lights[..n], eyeOf), eyeOf(light.WorldPosition));
        LastInSlotZeroStep(old(lightFalloffDistance[..]), Falloffs(lights[..n]), light.FalloffDistance);
        LastInSlotZeroStep(old(lightEnergy[..]), Energies(lights[..n]), light.Energy);
        LastInSlotZeroStep(old(lightColor[..]), Colors(lights[..n]), light.Color);
        assert EyePositions(lights[..n + 1], eyeOf) == EyePositions(lights[..n], eyeOf) + [eyeOf(light.WorldPosition)];
        assert Falloffs(lights[..n + 1]) == Falloffs(lights[..n]) + [light.FalloffDistance];
        assert Energies(lights[..n + 1]) == Energies(lights[..n]) + [light.Energy];
        assert Colors(lights[..n + 1]) == Colors(lights[..n]) + [light.Color];
      }
      assert lights[..|lights|] == lights;
    }

    /** The four arrays hold the given lights in consecutive slots from
        slot 0, over what they held before (e0, f0, n0, c0). */
    ghost predicate HoldsInOrder(e0: seq<Vec3>, f0: seq<real>, n0: seq<real>, c0: seq<Vec3>,
                                 stored: seq<PointLight>, eyeOf: Vec3 -> Vec3)
      reads this, lightEyePosition, lightFalloffDistance, lightEnergy, lightColor
    {
      |stored| <= |e0| && |stored| <= |f0| && |stored| <= |n0| && |stored| <= |c0| &&
      lightEyePosition[..] == Filled(e0, EyePositions(stored, eyeOf)) &&
      lightFalloffDistance[..] == Filled(f0, Falloffs(stored)) &&
      lightEnergy[..] == Filled(n0, Energies(stored)) &&
      lightColor[..] == Filled(c0, Colors(stored))
    }

    /** One iteration of the corrected loop: the next light goes into the
        first free slot. */
    method StoreNextLight(i: nat, light: PointLight, eyeOf: Vec3 -> Vec3, ghost e0: seq<Vec3>, ghost f0: seq<real>,
                          ghost n0: seq<real>, ghost c0: seq<Vec3>, ghost stored: seq<PointLight>)
      requires Valid() && i == |stored| < maxLights
      requires |e0| == |f0| == |n0| == |c0| == maxLights
      requires HoldsInOrder(e0, f0, n0, c0, stored, eyeOf)
      modifies lightEyePosition, lightFalloffDistance, lightEnergy, lightColor
      ensures HoldsInOrder(e0, f0, n0, c0, stored + [light], eyeOf)
    {
      StoreLight(i, light, eyeOf);
      FilledStep(e0, EyePositions(stored, eyeOf), eyeOf(light.WorldPosition));
      FilledStep(f0, Falloffs(stored), light.FalloffDistance);
      FilledStep(n0, Energies(stored), light.Energy);
      FilledStep(c0, Colors(stored), light.Color);
      assert EyePositions(stored + [light], eyeOf) == EyePositions(stored, eyeOf) + [eyeOf(light.WorldPosition)];
      assert Falloffs(stored + [light]) == Falloffs(stored) + [light.FalloffDistance];
      assert Energies(stored + [light]) == Energies(stored) + [light.Energy];
      assert Colors(stored + [light]) == Colors(stored) + [light.Color];
    }

    /** transformPointLights with the slot index advanced per light: slot k
        holds light k for every k below the light count sent to the
        shader, min(|lights|, maxLights), and the other slots keep what
        they held. */
    method TransformPointLights(lights: seq<PointLight>, eyeOf: Vec3 -> Vec3)
      requires Valid()
      modifies this, lightEyePosition, lightFalloffDistance, lightEnergy, lightColor
      ensures numLights == MinInt(|lights|, maxLights)
      ensures lightEyePosition[..] == Filled(old(lightEyePosition[..]), EyePositions(lights[..numLights], eyeOf))
      ensures lightFalloffDistance[..] == Filled(old(lightFalloffDistance[..]), Falloffs(lights[..numLights]))
      ensures lightEnergy[..] == Filled(old(lightEnergy[..]), Energies(lights[..numLights]))
      ensures lightColor[..] == Filled(old(lightColor[..]), Colors(lights[..numLights]))
      ensures pitch == old(pitch) && yaw == old(yaw) && frozen == old(frozen)
      ensures MouseSensitivity == old(MouseSensitivity) && distanceBehind == old(distanceBehind)
    {
      ghost var e0, f0, n0, c0 := lightEyePosition[..], lightFalloffDistance[..], lightEnergy[..], lightColor[..];
      numLights := MinInt(|lights|, maxLights);
      var i := 0;
      for n := 0 to |lights|
        invariant i == n <= maxLights && numLights == MinInt(|lights|, maxLights)
        invariant pitch == old(pitch) && yaw == old(yaw) && frozen == old(frozen)
        invariant MouseSensitivity == old(MouseSensitivity) && distanceBehind == old(distanceBehind)
        invariant HoldsInOrder(e0, f0, n0, c0, lights[..n], eyeOf)
        invariant n == |lights| ==> HoldsInOrder(e0, f0, n0, c0, lights[..numLights], eyeOf)
      {
        if i >= maxLights {
          break;
        }
        StoreNextLight(i, lights[n], eyeOf, e0, f0, n0, c0, lights[..n]);
        assert lights[..n + 1] == lights[..n] + [lights[n]];
        i := i + 1;
      }
    }
  }
}
