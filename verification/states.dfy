/**
 * The application states. Each Java state class holds only final fields, so
 * a state is a value; InitialState has no fields at all. The Java field `label` is
 * called `caption` here because `label` is a Dafny keyword.
 */
module States {
  import opened JavaInt
  import opened Boxes
  import opened Labels

  datatype State =
    | Initial
    | Splash(caption: Label, width: Int32, height: Int32)
    | Left(box: Box, caption: Label, width: Int32, height: Int32)
    | Right(box: Box, caption: Label, width: Int32, height: Int32)
}
