/** The optional value used wherever the source works with a pointer that may be
    null (std::getenv) or a conversion that may throw (boost::lexical_cast). */
module Wrappers {

  datatype Option<+T> = None | Some(value: T)
}
