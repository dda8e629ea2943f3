/**
 * The free-fly camera of Sample3DSceneRenderer::UpdateCamera, as pure functions
 * on the pose. The renderer's UpdateCamera method is proved equal to
 * CameraUpdate; the lemmas below state what that update does to the pose.
 *
 * The rotation matrices' trigonometry is left uninterpreted: `sinCos` is any
 * function giving the sine and cosine of an angle.
 */
module Camera {
  import opened Linear
  import opened Wrappers

  /** The key table is indexed by virtual-key code: 256 entries, nonzero meaning held. */
  const KeyCount: nat := 256
  const KeyW: nat := 0x57
  const KeyS: nat := 0x53
  const KeyA: nat := 0x41
  const KeyD: nat := 0x44
  const KeyX: nat := 0x58
  /** VK_SPACE. */
  const KeySpace: nat := 0x20

  predicate Pressed(keys: seq<bv8>, key: nat)
    requires |keys| == KeyCount && key < KeyCount
  {
    keys[key] != 0
  }

  /** One pointer sample: position in pixels and the state of the right button. */
  datatype PointerSample = PointerSample(x: real, y: real, rightButton: bool)

  /** One key's block: when the key is held, the pose is left-multiplied by a translation. */
  function Move(pose: Mat4, held: bool, x: real, y: real, z: real): Mat4 {
    if held then Mul(Translation(x, y, z), pose) else pose
  }

  /**
   * The six key blocks in their fixed order W, S, A, D, X, Space: forward and
   * back along the local z axis, left and right along x, down and up along y.
   */
  function KeyMoves(pose: Mat4, keys: seq<bv8>, moveSpd: real, dt: real): Mat4
    requires |keys| == KeyCount
  {
    var p1 := Move(pose, Pressed(keys, KeyW), 0.0, 0.0, Distance(moveSpd, dt));
    var p2 := Move(p1, Pressed(keys, KeyS), 0.0, 0.0, Distance(-moveSpd, dt));
    var p3 := Move(p2, Pressed(keys, KeyA), Distance(-moveSpd, dt), 0.0, 0.0);
    var p4 := Move(p3, Pressed(keys, KeyD), Distance(moveSpd, dt), 0.0, 0.0);
    var p5 := Move(p4, Pressed(keys, KeyX), 0.0, Distance(-moveSpd, dt), 0.0);
    Move(p5, Pressed(keys, KeySpace), 0.0, Distance(moveSpd, dt), 0.0)
  }

  /** How far `speed` units a second carries the camera in `dt` seconds. */
  function Distance(speed: real, dt: real): real {
    speed * dt
  }

  /**
   * Net travel along one axis when the key for its positive direction and the
   * key for its negative direction each move the camera by `step`: one step
   * forward or back when exactly one of them is held, none otherwise.
   */
  function Travel(step: real, plus: bool, minus: bool): real {
    if plus == minus then 0.0 else if plus then step else -step
  }

  /** How far the pointer travelled along one axis between the previous sample and the current one. */
  function Delta(now: real, before: real): real {
    now - before
  }

  /** The angle a pointer travel of `delta` pixels turns the camera by. */
  function TurnAngle(delta: real, rotSpd: real, dt: real): real {
    delta * rotSpd * dt
  }

  /**
   * The look step: save the translation row, zero _41.._43, pre-multiply by the
   * pitch rotation and post-multiply by the yaw rotation, restore _41.._43.
   */
  function LookStep(pose: Mat4, dx: real, dy: real, rotSpd: real, dt: real, sinCos: real -> SinCos): Mat4 {
    var pos := pose.r4;
    var zeroed := pose.(r4 := pose.r4[0 := 0.0][1 := 0.0][2 := 0.0]);
    var rotX := RotationX(sinCos(TurnAngle(dy, rotSpd, dt)));
    var rotY := RotationY(sinCos(TurnAngle(dx, rotSpd, dt)));
    var turned := Mul(Mul(rotX, zeroed), rotY);
    turned.(r4 := turned.r4[0 := pos[0]][1 := pos[1]][2 := pos[2]])
  }

  /** The look step runs only when a current sample exists, its right button is held, and a previous sample exists. */
  predicate LookActive(curr: Option<PointerSample>, prev: Option<PointerSample>) {
    curr.Some? && curr.value.rightButton && prev.Some?
  }

  function Look(pose: Mat4, curr: Option<PointerSample>, prev: Option<PointerSample>,
                rotSpd: real, dt: real, sinCos: real -> SinCos): Mat4
  {
    if LookActive(curr, prev) then
      LookStep(pose, Delta(curr.value.x, prev.value.x), Delta(curr.value.y, prev.value.y), rotSpd, dt, sinCos)
    else
      pose
  }

  /** One camera update: the key moves, then the look step. */
  function CameraUpdate(pose: Mat4, keys: seq<bv8>, curr: Option<PointerSample>, prev: Option<PointerSample>,
                        moveSpd: real, rotSpd: real, dt: real, sinCos: real -> SinCos): Mat4
    requires |keys| == KeyCount
  {
    Look(KeyMoves(pose, keys, moveSpd, dt), curr, prev, rotSpd, dt, sinCos)
  }

  // ---------------------------------------------------------------------------
  // Key moves

  /** Two moves along the pose's own axes add up. */
  lemma TranslatedTwice(pose: Mat4, x1: real, y1: real, z1: real, x2: real, y2: real, z2: real)
    ensures Translated(Translated(pose, x1, y1, z1), x2, y2, z2) == Translated(pose, x1 + x2, y1 + y2, z1 + z2)
  {
    var a := Translated(Translated(pose, x1, y1, z1), x2, y2, z2).r4;
    var b := Translated(pose, x1 + x2, y1 + y2, z1 + z2).r4;
    forall k | 0 <= k < 4
      ensures a[k] == b[k]
    {
    }
    assert a == b;
  }

  /** A held key moves the pose along its axes by the key's offset; a released one by nothing. */
  lemma MoveIsTranslated(pose: Mat4, held: bool, x: real, y: real, z: real)
    ensures Move(pose, held, x, y, z)
         == Translated(pose, if held then x else 0.0, if held then y else 0.0, if held then z else 0.0)
  {
    if held {
      TranslationThenPose(x, y, z, pose);
    } else {
      assert Translated(pose, 0.0, 0.0, 0.0).r4 == pose.r4;
    }
  }

  /** The offset a key block contributes along one axis: its step when held, nothing otherwise. */
  function Gate(held: bool, v: real): real {
    if held then v else 0.0
  }

  /** Equal offsets give equal poses (stated so the solver need not unfold Translated to see it). */
  lemma SameOffsets(pose: Mat4, x1: real, y1: real, z1: real, x2: real, y2: real, z2: real)
    requires x1 == x2 && y1 == y2 && z1 == z2
    ensures Translated(pose, x1, y1, z1) == Translated(pose, x2, y2, z2)
  {
  }

  /** One more key block on a pose already moved from `pose` adds that block's offsets. */
  lemma MoveAfterMoves(p: Mat4, pose: Mat4, ox: real, oy: real, oz: real, held: bool, x: real, y: real, z: real)
    requires p == Translated(pose, ox, oy, oz)
    ensures Move(p, held, x, y, z) == Translated(pose, ox + Gate(held, x), oy + Gate(held, y), oz + Gate(held, z))
  {
    MoveIsTranslated(p, held, x, y, z);
    TranslatedTwice(pose, ox, oy, oz, Gate(held, x), Gate(held, y), Gate(held, z));
  }

  /** W then S, on a pose already moved from `pose`: net travel along the third axis. */
  lemma ForwardBack(q: Mat4, pose: Mat4, ox: real, oy: real, oz: real, w: bool, bs: bool, s: real, n: real)
    requires q == Translated(pose, ox, oy, oz) && n == -s
    ensures Move(Move(q, w, 0.0, 0.0, s), bs, 0.0, 0.0, n) == Translated(pose, ox, oy, oz + Travel(s, w, bs))
  {
    MoveAfterMoves(q, pose, ox, oy, oz, w, 0.0, 0.0, s);
    MoveAfterMoves(Move(q, w, 0.0, 0.0, s), pose, ox + Gate(w, 0.0), oy + Gate(w, 0.0), oz + Gate(w, s),
                   bs, 0.0, 0.0, n);
    SameOffsets(pose, ox + Gate(w, 0.0) + Gate(bs, 0.0), oy + Gate(w, 0.0) + Gate(bs, 0.0), oz + Gate(w, s) + Gate(bs, n),
                ox, oy, oz + Travel(s, w, bs));
  }

  /** A then D, on a pose already moved from `pose`: net travel along the first axis. */
  lemma LeftRight(q: Mat4, pose: Mat4, ox: real, oy: real, oz: real, a: bool, d: bool, s: real, n: real)
    requires q == Translated(pose, ox, oy, oz) && n == -s
    ensures Move(Move(q, a, n, 0.0, 0.0), d, s, 0.0, 0.0) == Translated(pose, ox + Travel(s, d, a), oy, oz)
  {
    MoveAfterMoves(q, pose, ox, oy, oz, a, n, 0.0, 0.0);
    MoveAfterMoves(Move(q, a, n, 0.0, 0.0), pose, ox + Gate(a, n), oy + Gate(a, 0.0), oz + Gate(a, 0.0),
                   d, s, 0.0, 0.0);
    SameOffsets(pose, ox + Gate(a, n) + Gate(d, s), oy + Gate(a, 0.0) + Gate(d, 0.0), oz + Gate(a, 0.0) + Gate(d, 0.0),
                ox + Travel(s, d, a), oy, oz);
  }

  /** X then Space, on a pose already moved from `pose`: net travel along the second axis. */
  lemma DownUp(q: Mat4, pose: Mat4, ox: real, oy: real, oz: real, x: bool, sp: bool, s: real, n: real)
    requires q == Translated(pose, ox, oy, oz) && n == -s
    ensures Move(Move(q, x, 0.0, n, 0.0), sp, 0.0, s, 0.0) == Translated(pose, ox, oy + Travel(s, sp, x), oz)
  {
    MoveAfterMoves(q, pose, ox, oy, oz, x, 0.0, n, 0.0);
    MoveAfterMoves(Move(q, x, 0.0, n, 0.0), pose, ox + Gate(x, 0.0), oy + Gate(x, n), oz + Gate(x, 0.0),
                   sp, 0.0, s, 0.0);
    SameOffsets(pose, ox + Gate(x, 0.0) + Gate(sp, 0.0), oy + Gate(x, n) + Gate(sp, s), oz + Gate(x, 0.0) + Gate(sp, 0.0),
                ox, oy + Travel(s, sp, x), oz);
  }

  /**
   * The six moves on their own: held flags in source order, the forward step
   * `s` and the backward step `n`, which is -s.
   */
  lemma {:induction false} SixMovesDisplacement(pose: Mat4, w: bool, bs: bool, a: bool, d: bool, x: bool, sp: bool, s: real, n: real)
    requires n == -s
    ensures Move(Move(Move(Move(Move(Move(pose, w, 0.0, 0.0, s), bs, 0.0, 0.0, n), a, n, 0.0, 0.0),
                           d, s, 0.0, 0.0), x, 0.0, n, 0.0), sp, 0.0, s, 0.0)
         == Translated(pose, Travel(s, d, a), Travel(s, sp, x), Travel(s, w, bs))
  {
    var tx, ty, tz := Travel(s, d, a), Travel(s, sp, x), Travel(s, w, bs);
    var p2 := Move(Move(pose, w, 0.0, 0.0, s), bs, 0.0, 0.0, n);
    var p4 := Move(Move(p2, a, n, 0.0, 0.0), d, s, 0.0, 0.0);
    assert p2 == Translated(pose, 0.0, 0.0, tz) by {
      assert Translated(pose, 0.0, 0.0, 0.0) == pose;
      ForwardBack(pose, pose, 0.0, 0.0, 0.0, w, bs, s, n);
      assert 0.0 + tz == tz;
    }
    assert p4 == Translated(pose, tx, 0.0, tz) by {
      LeftRight(p2, pose, 0.0, 0.0, tz, a, d, s, n);
      assert 0.0 + tx == tx;
    }
    DownUp(p4, pose, tx, 0.0, tz, x, sp, s, n);
    assert 0.0 + ty == ty;
  }

  /**
   * The six key blocks together move the pose by moveSpd·dt along each local
   * axis in the direction of the held keys: D/A on x, Space/X on y, W/S on z.
   * Opposite keys held together cancel.
   */
  lemma KeyMovesDisplacement(pose: Mat4, keys: seq<bv8>, moveSpd: real, dt: real)
    requires |keys| == KeyCount
    ensures KeyMoves(pose, keys, moveSpd, dt)
         == Translated(pose,
                       Travel(Distance(moveSpd, dt), Pressed(keys, KeyD), Pressed(keys, KeyA)),
                       Travel(Distance(moveSpd, dt), Pressed(keys, KeySpace), Pressed(keys, KeyX)),
                       Travel(Distance(moveSpd, dt), Pressed(keys, KeyW), Pressed(keys, KeyS)))
  {
    SixMovesDisplacement(pose, Pressed(keys, KeyW), Pressed(keys, KeyS), Pressed(keys, KeyA),
                         Pressed(keys, KeyD), Pressed(keys, KeyX), Pressed(keys, KeySpace), Distance(moveSpd, dt), Distance(-moveSpd, dt));
  }

  /** The key moves never turn the camera. */
  lemma KeyMovesKeepAxes(pose: Mat4, keys: seq<bv8>, moveSpd: real, dt: real)
    requires |keys| == KeyCount
    ensures SameAxes(KeyMoves(pose, keys, moveSpd, dt), pose)
  {
    KeyMovesDisplacement(pose, keys, moveSpd, dt);
  }

  // ---------------------------------------------------------------------------
  // The look step

  /**
   * A rotation whose fourth row is (0, 0, 0, 1), applied on both sides of a pose
   * whose translation is zeroed, leaves that fourth row (0, 0, 0, w) as it was.
   */
  lemma TurnKeepsLastRow(zeroed: Mat4, rotX: Mat4, rotY: Mat4)
    requires zeroed.r4[0] == 0.0 && zeroed.r4[1] == 0.0 && zeroed.r4[2] == 0.0
    requires rotX.r4 == [0.0, 0.0, 0.0, 1.0] && rotY.r4 == [0.0, 0.0, 0.0, 1.0]
    ensures Mul(Mul(rotX, zeroed), rotY).r4 == zeroed.r4
  {
    UnitRowTimes(zeroed);
    var r := Mul(Mul(rotX, zeroed), rotY).r4;
    assert r == RowTimes(zeroed.r4, rotY);
    assert r[0] == zeroed.r4[0] && r[1] == zeroed.r4[1] && r[2] == zeroed.r4[2] && r[3] == zeroed.r4[3];
  }

  /** The look step never moves the camera: its whole fourth row, _44 included, is kept. */
  lemma LookStepKeepsPosition(pose: Mat4, dx: real, dy: real, rotSpd: real, dt: real, sinCos: real -> SinCos)
    ensures LookStep(pose, dx, dy, rotSpd, dt, sinCos).r4 == pose.r4
  {
    var zeroed := pose.(r4 := pose.r4[0 := 0.0][1 := 0.0][2 := 0.0]);
    TurnKeepsLastRow(zeroed, RotationX(sinCos(TurnAngle(dy, rotSpd, dt))), RotationY(sinCos(TurnAngle(dx, rotSpd, dt))));
  }

  /**
   * The new orientation depends on the old orientation only: two poses with the
   * same axes turn to the same axes, wherever they stand.
   */
  lemma LookStepIgnoresPosition(p: Mat4, q: Mat4, dx: real, dy: real, rotSpd: real, dt: real, sinCos: real -> SinCos)
    requires SameAxes(p, q)
    ensures SameAxes(LookStep(p, dx, dy, rotSpd, dt, sinCos), LookStep(q, dx, dy, rotSpd, dt, sinCos))
  {
    var rotX := RotationX(sinCos(TurnAngle(dy, rotSpd, dt)));
    var zp := p.(r4 := p.r4[0 := 0.0][1 := 0.0][2 := 0.0]);
    var zq := q.(r4 := q.r4[0 := 0.0][1 := 0.0][2 := 0.0]);
    // Rows 1..3 of the pitch rotation end in 0, so they never pick up the fourth row.
    assert RowTimes(rotX.r1, zp) == RowTimes(rotX.r1, zq);
    assert RowTimes(rotX.r2, zp) == RowTimes(rotX.r2, zq);
    assert RowTimes(rotX.r3, zp) == RowTimes(rotX.r3, zq);
  }

  /** With no pointer movement (and sin 0 = 0, cos 0 = 1) the look step changes nothing. */
  lemma LookStepStill(pose: Mat4, rotSpd: real, dt: real, sinCos: real -> SinCos)
    requires sinCos(0.0) == SinCos(0.0, 1.0)
    ensures LookStep(pose, 0.0, 0.0, rotSpd, dt, sinCos) == pose
  {
    assert TurnAngle(0.0, rotSpd, dt) == 0.0;
    ZeroRotations();
    var zeroed := pose.(r4 := pose.r4[0 := 0.0][1 := 0.0][2 := 0.0]);
    MulIdentity(zeroed);
    MulIdentity(Mul(Identity, zeroed));
    var r := LookStep(pose, 0.0, 0.0, rotSpd, dt, sinCos);
    assert r.r4 == pose.r4 by {
      LookStepKeepsPosition(pose, 0.0, 0.0, rotSpd, dt, sinCos);
    }
  }

  /** A pure yaw (no vertical pointer movement) turns about the world's up axis: no axis changes its height. */
  lemma YawKeepsHeights(pose: Mat4, dx: real, rotSpd: real, dt: real, sinCos: real -> SinCos)
    requires sinCos(0.0) == SinCos(0.0, 1.0)
    ensures var r := LookStep(pose, dx, 0.0, rotSpd, dt, sinCos);
            r.r1[1] == pose.r1[1] && r.r2[1] == pose.r2[1] && r.r3[1] == pose.r3[1]
  {
    assert TurnAngle(0.0, rotSpd, dt) == 0.0;
    ZeroRotations();
    var zeroed := pose.(r4 := pose.r4[0 := 0.0][1 := 0.0][2 := 0.0]);
    MulIdentity(zeroed);
  }

  /** A pure pitch (no horizontal pointer movement) turns about the camera's own x axis, which stays put. */
  lemma PitchKeepsSideAxis(pose: Mat4, dy: real, rotSpd: real, dt: real, sinCos: real -> SinCos)
    requires sinCos(0.0) == SinCos(0.0, 1.0)
    ensures LookStep(pose, 0.0, dy, rotSpd, dt, sinCos).r1 == pose.r1
  {
    assert TurnAngle(0.0, rotSpd, dt) == 0.0;
    ZeroRotations();
    var zeroed := pose.(r4 := pose.r4[0 := 0.0][1 := 0.0][2 := 0.0]);
    var rotX := RotationX(sinCos(TurnAngle(dy, rotSpd, dt)));
    UnitRowTimes(zeroed);
    MulIdentity(Mul(rotX, zeroed));
  }

  // ---------------------------------------------------------------------------
  // One whole update

  /** Only the keys move the camera: the look step that follows leaves the new position alone. */
  lemma CameraUpdatePosition(pose: Mat4, keys: seq<bv8>, curr: Option<PointerSample>, prev: Option<PointerSample>,
                             moveSpd: real, rotSpd: real, dt: real, sinCos: real -> SinCos)
    requires |keys| == KeyCount
    ensures CameraUpdate(pose, keys, curr, prev, moveSpd, rotSpd, dt, sinCos).r4
         == Translated(pose,
                       Travel(Distance(moveSpd, dt), Pressed(keys, KeyD), Pressed(keys, KeyA)),
                       Travel(Distance(moveSpd, dt), Pressed(keys, KeySpace), Pressed(keys, KeyX)),
                       Travel(Distance(moveSpd, dt), Pressed(keys, KeyW), Pressed(keys, KeyS))).r4
  {
    KeyMovesDisplacement(pose, keys, moveSpd, dt);
    if LookActive(curr, prev) {
      LookStepKeepsPosition(KeyMoves(pose, keys, moveSpd, dt), Delta(curr.value.x, prev.value.x),
                            Delta(curr.value.y, prev.value.y), rotSpd, dt, sinCos);
    }
  }

  /** Without the look step the camera never turns, whatever keys are held. */
  lemma CameraUpdateWithoutLook(pose: Mat4, keys: seq<bv8>, curr: Option<PointerSample>, prev: Option<PointerSample>,
                                moveSpd: real, rotSpd: real, dt: real, sinCos: real -> SinCos)
    requires |keys| == KeyCount && !LookActive(curr, prev)
    ensures SameAxes(CameraUpdate(pose, keys, curr, prev, moveSpd, rotSpd, dt, sinCos), pose)
  {
    KeyMovesDisplacement(pose, keys, moveSpd, dt);
  }

  /** No key held and no look step: the camera stays exactly where it was. */
  lemma CameraUpdateIdle(pose: Mat4, keys: seq<bv8>, curr: Option<PointerSample>, prev: Option<PointerSample>,
                         moveSpd: real, rotSpd: real, dt: real, sinCos: real -> SinCos)
    requires |keys| == KeyCount && !LookActive(curr, prev)
    requires forall k | 0 <= k < KeyCount :: keys[k] == 0
    ensures CameraUpdate(pose, keys, curr, prev, moveSpd, rotSpd, dt, sinCos) == pose
  {
    KeyMovesDisplacement(pose, keys, moveSpd, dt);
    assert !Pressed(keys, KeyW) && !Pressed(keys, KeyS) && !Pressed(keys, KeyA);
    assert !Pressed(keys, KeyD) && !Pressed(keys, KeyX) && !Pressed(keys, KeySpace);
    assert Translated(pose, 0.0, 0.0, 0.0).r4 == pose.r4;
  }

  /** Holding W alone for one second at unit speed moves the camera one unit along its own third axis. */
  lemma ForwardOneSecond(pose: Mat4, keys: seq<bv8>)
    requires |keys| == KeyCount
    requires Pressed(keys, KeyW) && !Pressed(keys, KeyS) && !Pressed(keys, KeyA)
    requires !Pressed(keys, KeyD) && !Pressed(keys, KeyX) && !Pressed(keys, KeySpace)
    ensures KeyMoves(pose, keys, 1.0, 1.0) == pose.(r4 := Add(pose.r4, pose.r3))
  {
    KeyMovesDisplacement(pose, keys, 1.0, 1.0);
    var r := Translated(pose, 0.0, 0.0, 1.0).r4;
    assert r == Add(pose.r4, pose.r3);
  }
}
