/**
  The optional value shared by the stream adapters and path resolution: `None`
  stands for JavaScript's `null`/`undefined`, or for a construction that threw.
*/
module Wrappers {

  datatype Option<T> = None | Some(value: T)
}
