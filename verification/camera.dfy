/** The camera's input handling over the reals: `ProcessMouseInput` turns a
    mouse delta into yaw and clamped pitch, `ProcessInput` moves the position
    along the front or right vector. Floating-point rounding is ignored, and
    so is the square root inside `glm::normalize`, which is a parameter. */
module CameraControl {
  import opened Common

  datatype CameraInput = Forward | Right | Back | Left

  datatype Camera = Camera(
    view: Mat4,
    projection: Mat4,
    cameraPos: Vec3,
    cameraDirection: Vec3,
    pitch: real,
    yaw: real,
    cameraTarget: Vec3,
    cameraFront: Vec3,
    cameraRight: Vec3,
    cameraUp: Vec3,
    cameraSpeed: real)

  /** The pitch limit, in degrees, that keeps the view from flipping. */
  const MaxPitch: real := 89.0

  predicate PitchInRange(c: Camera) {
    -MaxPitch <= c.pitch <= MaxPitch
  }

  /** `glm::mat4(1.0f)`, row by row. */
  const Identity4: Mat4 := Mat4([1.0, 0.0, 0.0, 0.0,
                                 0.0, 1.0, 0.0, 0.0,
                                 0.0, 0.0, 1.0, 0.0,
                                 0.0, 0.0, 0.0, 1.0])

  /** The member initializers of `Camera`: the view starts as the identity;
      the projection and the vectors without an initializer are
      indeterminate until `UpdateCamera` and `Init` set them, so they are
      parameters. */
  function InitialCamera(projection: Mat4, direction: Vec3, right: Vec3, up: Vec3): (c: Camera)
    ensures PitchInRange(c)
    ensures c.view == Identity4
  {
    Camera(Identity4, projection, Vec3(0.0, 0.0, 5.0), direction, 0.0, -90.0,
           Zero3, Vec3(0.0, 0.0, -1.0), right, up, 5.0)
  }

  /** `ProcessMouseInput`: yaw moves by half the horizontal delta, pitch
      against half the vertical delta, and pitch is then clamped to
      [-89, 89]. Nothing else changes. */
  function ProcessMouseInput(cam: Camera, delta: Vec2): (c: Camera)
    ensures c == cam.(yaw := c.yaw, pitch := c.pitch)
    ensures PitchInRange(c)
    ensures c.yaw == cam.yaw + delta.x * 0.5
    ensures var wanted := cam.pitch - delta.y * 0.5;
      && (-MaxPitch <= wanted <= MaxPitch ==> c.pitch == wanted)
      && (wanted > MaxPitch ==> c.pitch == MaxPitch)
      && (wanted < -MaxPitch ==> c.pitch == -MaxPitch)
  {
    var yaw := cam.yaw + delta.x * 0.5;
    var pitch := cam.pitch - delta.y * 0.5;
    var pitch := if pitch > MaxPitch then MaxPitch else pitch;
    var pitch := if pitch < -MaxPitch then -MaxPitch else pitch;
    cam.(yaw := yaw, pitch := pitch)
  }

  /** A run of mouse deltas, applied in order. */
  function ProcessMouseInputs(cam: Camera, deltas: seq<Vec2>): Camera
    decreases |deltas|
  {
    if |deltas| == 0 then cam else ProcessMouseInputs(ProcessMouseInput(cam, deltas[0]), deltas[1..])
  }

  /** The summed horizontal components of a run of deltas. */
  function SumX(deltas: seq<Vec2>): real
    decreases |deltas|
  {
    if |deltas| == 0 then 0.0 else deltas[0].x + SumX(deltas[1..])
  }

  /** Yaw is never clamped: a run of deltas turns it by exactly half their
      summed horizontal components. */
  lemma {:induction false} YawAccumulates(cam: Camera, deltas: seq<Vec2>)
    ensures ProcessMouseInputs(cam, deltas).yaw == cam.yaw + SumX(deltas) * 0.5
    decreases |deltas|
  {
    if |deltas| > 0 {
      YawAccumulates(ProcessMouseInput(cam, deltas[0]), deltas[1..]);
    }
  }

  /** Pitch pinned at the top: once an input would carry pitch above 89, any
      further run of inputs that keep pushing up (no downward movement)
      leaves it at exactly 89. */
  lemma {:induction false} PitchPinnedAtTop(cam: Camera, deltas: seq<Vec2>)
    requires |deltas| > 0
    requires cam.pitch - deltas[0].y * 0.5 >= MaxPitch
    requires forall i :: 0 <= i < |deltas| ==> deltas[i].y <= 0.0
    ensures ProcessMouseInputs(cam, deltas).pitch == MaxPitch
    decreases |deltas|
  {
    var c1 := ProcessMouseInput(cam, deltas[0]);
    assert c1.pitch == MaxPitch;
    if |deltas| > 1 {
      assert deltas[1..][0] == deltas[1];
      PitchPinnedAtTop(c1, deltas[1..]);
    }
  }

  /** The symmetric case at -89. */
  lemma {:induction false} PitchPinnedAtBottom(cam: Camera, deltas: seq<Vec2>)
    requires |deltas| > 0
    requires cam.pitch - deltas[0].y * 0.5 <= -MaxPitch
    requires forall i :: 0 <= i < |deltas| ==> deltas[i].y >= 0.0
    ensures ProcessMouseInputs(cam, deltas).pitch == -MaxPitch
    decreases |deltas|
  {
    var c1 := ProcessMouseInput(cam, deltas[0]);
    assert c1.pitch == -MaxPitch;
    if |deltas| > 1 {
      assert deltas[1..][0] == deltas[1];
      PitchPinnedAtBottom(c1, deltas[1..]);
    }
  }

  /** The unit right vector `normalize(cross(cameraFront, cameraUp))`, with
      normalisation supplied by the caller. */
  function RightVector(cam: Camera, normalize: Vec3 -> Vec3): Vec3 {
    normalize(Cross(cam.cameraFront, cam.cameraUp))
  }

  /** How far one input moves the camera. */
  function Step(cam: Camera, input: CameraInput, normalize: Vec3 -> Vec3): Vec3 {
    match input
    case Forward => Scale(cam.cameraSpeed, cam.cameraFront)
    case Back => Scale(-cam.cameraSpeed, cam.cameraFront)
    case Right => Scale(cam.cameraSpeed, RightVector(cam, normalize))
    case Left => Scale(-cam.cameraSpeed, RightVector(cam, normalize))
  }

  /** `ProcessInput`: only the position changes, by the step for the input;
      opposite inputs step by opposite vectors. */
  function ProcessInput(cam: Camera, input: CameraInput, normalize: Vec3 -> Vec3): (c: Camera)
    ensures c == cam.(cameraPos := c.cameraPos)
    ensures Sub(c.cameraPos, cam.cameraPos) == Step(cam, input, normalize)
  {
    match input
    case Forward => cam.(cameraPos := Add(cam.cameraPos, Scale(cam.cameraSpeed, cam.cameraFront)))
    case Right => cam.(cameraPos := Add(cam.cameraPos, Scale(cam.cameraSpeed, RightVector(cam, normalize))))
    case Back => cam.(cameraPos := Sub(cam.cameraPos, Scale(cam.cameraSpeed, cam.cameraFront)))
    case Left => cam.(cameraPos := Sub(cam.cameraPos, Scale(cam.cameraSpeed, RightVector(cam, normalize))))
  }

  function Opposite(input: CameraInput): CameraInput {
    match input
    case Forward => Back
    case Back => Forward
    case Right => Left
    case Left => Right
  }

  /** Forward then Back, or Right then Left (and the reverse orders), with
      the same speed and orientation, bring the camera back to where it was. */
  lemma OppositeInputsCancel(cam: Camera, input: CameraInput, normalize: Vec3 -> Vec3)
    ensures ProcessInput(ProcessInput(cam, input, normalize), Opposite(input), normalize) == cam
  {
  }

  /** Opposite inputs step by opposite vectors. */
  lemma OppositeSteps(cam: Camera, input: CameraInput, normalize: Vec3 -> Vec3)
    ensures Step(cam, Opposite(input), normalize) == Scale(-1.0, Step(cam, input, normalize))
  {
    var v := if input == Forward || input == Back then cam.cameraFront else RightVector(cam, normalize);
    var k := if input == Forward || input == Right then cam.cameraSpeed else -cam.cameraSpeed;
    assert Step(cam, input, normalize) == Scale(k, v);
    assert Step(cam, Opposite(input), normalize) == Scale(-k, v);
    NegatedScale(k, v);
  }

  lemma NegatedScale(k: real, v: Vec3)
    ensures Scale(-k, v) == Scale(-1.0, Scale(k, v))
  {
    assert -k * v.x == -1.0 * (k * v.x);
    assert -k * v.y == -1.0 * (k * v.y);
    assert -k * v.z == -1.0 * (k * v.z);
  }
}
