/** What a renderable state hands to the engine's frame, scene and batch factories. */
module Frames {
  import opened JavaInt
  import opened Engine
  import opened Boxes
  import opened Labels

  /** Box.toBatch and Label.toBatch: one batch per displayed object. */
  datatype Batch = BoxBatch(box: Box) | LabelBatch(caption: Label)

  /** SceneFactory.createDynamic(camera, batches). */
  datatype Scene = Scene(camera: Camera, batches: seq<Batch>)

  /** FrameFactory.createStatic draws once; createDynamic redraws every `interval` ms. */
  datatype Refresh = OneShot | Every(interval: int)

  datatype Frame = Frame(scenes: seq<Scene>, background: Color, width: Int32, height: Int32, refresh: Refresh)
}
