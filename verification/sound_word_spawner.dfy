/** SoundWordSpawner: the hearing-distance gate, the transparency of a sound
    word, and the bisection that pulls an off-screen sound position back
    towards the player until it is on screen. `Camera.WorldToScreenPoint` is
    an arbitrary function handed in with the camera. */
module SoundWords {
  import opened Common

  /** How far a sound can be heard unless the scene configures otherwise. */
  const DefaultMaxHearDistance: real := 10.0

  /** Bisection steps of `ClampPositionToScreen`. */
  const BisectionSteps: nat := 20

  /** The camera as the spawner uses it. */
  datatype Camera = Camera(worldToScreenPoint: Vec3 -> Vec3, pixelWidth: nat, pixelHeight: nat)

  /** `IsInsideScreen`: in front of the camera and within the pixel
      rectangle, edges included. */
  predicate IsInsideScreen(screenPoint: Vec3, camera: Camera)
  {
    && screenPoint.z > 0.0
    && 0.0 <= screenPoint.x <= camera.pixelWidth as real
    && 0.0 <= screenPoint.y <= camera.pixelHeight as real
  }

  /** A world point projects inside the screen. */
  predicate OnScreen(camera: Camera, p: Vec3)
  {
    IsInsideScreen(camera.worldToScreenPoint(p), camera)
  }

  /** All four corners of the pixel rectangle count as inside (at positive
      depth); nothing at depth zero or behind the camera does, and nothing
      left of or below the rectangle. */
  lemma ScreenBoundsInclusive(camera: Camera, z: real, p: Vec3)
    requires z > 0.0
    ensures IsInsideScreen(Vec3(0.0, 0.0, z), camera)
    ensures IsInsideScreen(Vec3(camera.pixelWidth as real, camera.pixelHeight as real, z), camera)
    ensures IsInsideScreen(Vec3(0.0, camera.pixelHeight as real, z), camera)
    ensures IsInsideScreen(Vec3(camera.pixelWidth as real, 0.0, z), camera)
    ensures p.z <= 0.0 || p.x < 0.0 || p.y < 0.0 ==> !IsInsideScreen(p, camera)
    ensures p.x > camera.pixelWidth as real || p.y > camera.pixelHeight as real ==> !IsInsideScreen(p, camera)
  {
  }

  /** The point a fraction `t` of the way from `reference` to `target`. */
  function Along(reference: Vec3, target: Vec3, t: real): Vec3
  {
    Add(reference, Scale(Sub(target, reference), t))
  }

  lemma AlongEnds(reference: Vec3, target: Vec3)
    ensures Along(reference, target, 0.0) == reference
    ensures Along(reference, target, 1.0) == target
  {
  }

  function Pow2(n: nat): (r: real)
    ensures r >= 1.0
  {
    if n == 0 then 1.0 else 2.0 * Pow2(n - 1)
  }

  lemma {:induction false} Pow2Add(a: nat, b: nat)
    ensures Pow2(a + b) == Pow2(a) * Pow2(b)
    decreases a
  {
    if a > 0 {
      Pow2Add(a - 1, b);
    }
  }

  /** Width of the final bisection bracket, 1/2^20. */
  const FinalBracket: real := 1.0 / 1048576.0

  /** After `i` halvings the search interval [low, high] of the segment is
      1/2^i wide, its low end projects on screen and its high end does not. */
  ghost predicate Bracketed(camera: Camera, reference: Vec3, target: Vec3, low: real, high: real, i: nat)
  {
    && 0.0 <= low < high <= 1.0
    && (high - low) * Pow2(i) == 1.0
    && OnScreen(camera, Along(reference, target, low))
    && !OnScreen(camera, Along(reference, target, high))
  }

  /** Halving the bracket at its midpoint keeps the half whose ends straddle
      the screen edge. */
  lemma Halving(camera: Camera, reference: Vec3, target: Vec3, low: real, high: real, i: nat)
    requires Bracketed(camera, reference, target, low, high, i)
    ensures var mid := (low + high) * 0.5;
            && (OnScreen(camera, Along(reference, target, mid)) ==> Bracketed(camera, reference, target, mid, high, i + 1))
            && (!OnScreen(camera, Along(reference, target, mid)) ==> Bracketed(camera, reference, target, low, mid, i + 1))
  {
    assert Pow2(i + 1) == 2.0 * Pow2(i);
    assert ((low + high) * 0.5 - low) == (high - low) * 0.5;
    assert (high - (low + high) * 0.5) == (high - low) * 0.5;
  }

  /** After all the halvings the bracket is 1/2^20 wide. */
  lemma FinalWidth(low: real, high: real)
    requires (high - low) * Pow2(BisectionSteps) == 1.0
    ensures high == low + FinalBracket
  {
    Pow2Add(10, 10);
    Pow2Add(5, 5);
    assert (high - low) * 1048576.0 == 1.0;
  }

  /** `Mathf.Clamp01`. */
  function Clamp01(v: real): (r: real)
    ensures 0.0 <= r <= 1.0
    ensures 0.0 <= v <= 1.0 ==> r == v
  {
    if v < 0.0 then 0.0 else if v > 1.0 then 1.0 else v
  }

  /** The transparency of a sound word heard at `distance`. */
  function DistancePercent(distance: real, maxHearDistance: real): (p: real)
    requires maxHearDistance > 0.0
    ensures 0.0 <= p <= 1.0
    ensures 0.0 <= distance <= maxHearDistance ==> p == 1.0 - distance / maxHearDistance
    ensures distance <= 0.0 ==> p == 1.0
  {
    1.0 - Clamp01(distance / maxHearDistance)
  }

  /** `ClampPositionToScreen`: the target when it is on screen or the
      reference is not; otherwise the last on-screen sample of 20 halvings of
      the segment from the reference to the target. That sample lies on the
      segment, is on screen, and the point 1/2^20 further along is not. */
  method ClampPositionToScreen(target: Vec3, reference: Vec3, camera: Camera) returns (result: Vec3)
    ensures OnScreen(camera, target) ==> result == target
    ensures !OnScreen(camera, reference) ==> result == target
    ensures !OnScreen(camera, target) && OnScreen(camera, reference) ==>
              && OnScreen(camera, result)
              && exists t :: 0.0 <= t && t + FinalBracket <= 1.0 && result == Along(reference, target, t)
                           && !OnScreen(camera, Along(reference, target, t + FinalBracket))
  {
    var screenPoint := camera.worldToScreenPoint(target);
    if IsInsideScreen(screenPoint, camera) {
      return target;
    }
    var refScreenPoint := camera.worldToScreenPoint(reference);
    if !IsInsideScreen(refScreenPoint, camera) {
      return target;
    }
    var direction := Sub(target, reference);
    var low := 0.0;
    var high := 1.0;
    result := reference;
    AlongEnds(reference, target);
    for i := 0 to BisectionSteps
      invariant Bracketed(camera, reference, target, low, high, i)
      invariant result == Along(reference, target, low)
    {
      var mid := (low + high) * 0.5;
      Halving(camera, reference, target, low, high, i);
      var sample := Add(reference, Scale(direction, mid));
      assert sample == Along(reference, target, mid);
      var sampleScreen := camera.worldToScreenPoint(sample);
      if IsInsideScreen(sampleScreen, camera) {
        result := sample;
        low := mid;
      } else {
        high := mid;
      }
    }
    FinalWidth(low, high);
    assert result == Along(reference, target, low) && !OnScreen(camera, Along(reference, target, low + FinalBracket));
  }

  /** A spawned sound word: its texture, where it appears, how long it lives,
      its transparency and its size. */
  datatype SoundWord = SoundWord(texture: nat, position: Vec3, lifetime: real, transparency: real, size: real)

  /** `SpawnSoundWord` for a sound at `position` heard by the player at
      `playerPosition`; `distance` is `Vector3.Distance` of the two. None means
      nothing is spawned. `intensity` and `lifetime` default to 1, as in the
      game; the engine context comes first so that they can stay last. The
      only excluded input is a silent sound at a zero hearing distance, where
      the game divides zero by zero. */
  method SpawnSoundWord(playerPosition: Vec3, distance: real, maxHearDistance: real, camera: Camera,
                        texture: nat, position: Vec3, intensity: real := 1.0, lifetime: real := 1.0)
    returns (word: Option<SoundWord>)
    requires distance >= 0.0 && distance * distance == SqrMagnitude(Sub(position, playerPosition))
    requires maxHearDistance > 0.0 || distance > maxHearDistance
    ensures word.None? <==> distance > maxHearDistance
    ensures word.Some? ==>
              && word.value.texture == texture && word.value.lifetime == lifetime && word.value.size == intensity
              && 0.0 <= word.value.transparency <= 1.0
              && word.value.transparency == 1.0 - distance / maxHearDistance
              && (OnScreen(camera, position) || !OnScreen(camera, playerPosition) ==> word.value.position == position)
              && (!OnScreen(camera, position) && OnScreen(camera, playerPosition) ==> OnScreen(camera, word.value.position))
  {
    if distance > maxHearDistance {
      return None;
    }
    var finalPosition := ClampPositionToScreen(position, playerPosition, camera);
    var distancePercent := DistancePercent(distance, maxHearDistance);
    word := Some(SoundWord(texture, finalPosition, lifetime, distancePercent, intensity));
  }
}
