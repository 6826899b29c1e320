/** The demo's box: BoxFactory.createBox(position, animation, color) as a value. */
module Boxes {
  import opened Engine

  /** The sprite size (1 by 1), mesh and shader material are engine details left out. */
  datatype Box = Box(position: Vec3, animation: Animation, color: Color)
}
