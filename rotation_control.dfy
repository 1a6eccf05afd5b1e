/** The rotation button: each press turns an element a quarter turn clockwise, `(rotation + 90) % 360`. */
module RotationControl {
  import opened JsNumbers

  function Rotate(rotation: real): (r: real)
    ensures 0.0 <= rotation ==> 0.0 <= r < 360.0
  {
    JsRem(rotation + 90.0, 360.0)
  }

  /** On [0, 360) the step is a plain addition that wraps once. */
  lemma {:induction false} RotateInRange(rotation: real)
    requires 0.0 <= rotation < 360.0
    ensures Rotate(rotation) == if rotation < 270.0 then rotation + 90.0 else rotation - 270.0
  {
    if rotation < 270.0 {
      RemUnique(rotation + 90.0, 360.0, 0);
    } else {
      RemUnique(rotation + 90.0, 360.0, 1);
    }
  }

  /** Four presses from an angle in [0, 360) come back to it. */
  lemma FourRotationsIdentity(rotation: real)
    requires 0.0 <= rotation < 360.0
    ensures Rotate(Rotate(Rotate(Rotate(rotation)))) == rotation
  {
    var r1 := Rotate(rotation);
    RotateInRange(rotation);
    var r2 := Rotate(r1);
    RotateInRange(r1);
    var r3 := Rotate(r2);
    RotateInRange(r2);
    RotateInRange(r3);
  }

  /** `k` quarter turns. */
  function Quarter(k: int): real {
    k as real * 90.0
  }

  /** From any multiple of 90, negative ones included, a press gives a multiple of 90. */
  lemma {:induction false} RotatePreservesQuarters(k: int)
    ensures exists m :: Rotate(Quarter(k)) == Quarter(m)
  {
    var q := JsRemQuotient(Quarter(k) + 90.0, 360.0);
    assert Rotate(Quarter(k)) == Quarter(k + 1 - 4 * q);
  }
}
