/** Configuration objects whose inner structure this model does not look at
    (paths, resources, balloons, filters, ...). A `BeanRef` stands for one
    such object: `Default` is the object its no-argument constructor builds,
    `Supplied(handle)` any other object a caller hands in. A Java null is the
    `None` of an `Option<BeanRef>`. */
module Beans {

  datatype BeanRef = Default | Supplied(handle: nat)

  /** The throwable behind an exception, reduced to what `toString()` shows. */
  datatype Cause = Cause(description: string)
}
