/** Small value types shared by the text-drawing model. */
module Basics {

  /** A value that may be absent: Python's `None` or an object. */
  datatype Option<+T> = None | Some(value: T)

  /** A pixel size, width by height, as PIL reports and accepts it. */
  datatype Size = Size(w: int, h: int)

  /** Which Python sequence holds a group of values: a tuple and a list with
      the same items have different string forms. */
  datatype Container = Tuple | List

  /** An RGB or RGBA colour: 3 or 4 components, given as a tuple or a list. */
  datatype Color = Color(components: seq<int>, container: Container)
}
