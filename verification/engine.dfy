/**
 * The values the demo exchanges with the external graphics engine: vectors,
 * colours, animations, events, scheduled actions and cameras. The engine's
 * classes are not part of this model; only the data the demo passes to their
 * factories is kept.
 */
module Engine {
  import opened JavaInt

  /** A 3D vector. The demo only uses float literals that reals hold exactly. */
  datatype Vec3 = Vec3(x: real, y: real, z: real)

  /** An RGBA colour as passed to ColorFactory.createColor. */
  datatype Color = Color(red: int, green: int, blue: int, alpha: int)

  /** InterpolationFactory.createLinear(start, duration). */
  datatype Interpolation = Linear(start: Int64, duration: Int64)

  /** TransformationFactory.createTranslate(x, y, z, interpolation). */
  datatype Transformation = Translate(offset: Vec3, interpolation: Interpolation)

  /** AnimationFactory.createStatic (a translation matrix), createDynamic and createComposite. */
  datatype Animation =
    | Static(translation: Vec3)
    | Dynamic(transformation: Transformation)
    | Composite(parts: seq<Animation>)

  /** The phase of a touch input; only Up is checked by the demo. */
  datatype Touch = Down | Move | Up

  /** The engine events a state's update receives. */
  datatype Event =
    | ViewEvent(width: Int32, height: Int32)
    | ActionEvent(name: string, time: Int64)
    | TouchEvent(input: Touch, time: Int64)
    | AnimationEvent(time: Int64)

  /** ActionFactory.createDelayed(name, time): a named action to fire at `time`. */
  datatype Action = Delayed(name: string, time: Int64)

  /**
   * The float `scale * width / height` computed by the camera code. Float
   * arithmetic is not modelled: a zero height makes the value +Infinity or
   * -Infinity by the sign of the width, or NaN when the width is 0 too.
   */
  datatype Aspect = Aspect(scale: real, width: Int32, height: Int32)

  /** An orthographic projection whose x range is [-halfWidth, halfWidth]. */
  datatype Projection = Orthographic(halfWidth: Aspect, bottom: real, top: real, near: real, far: real)

  /** MatrixFactory.createView3D(eye, center, up). */
  datatype View = LookAt(eye: Vec3, center: Vec3, up: Vec3)

  /** CameraFactory.createStatic(projection, view). */
  datatype Camera = StaticCamera(projection: Projection, view: View)
}
