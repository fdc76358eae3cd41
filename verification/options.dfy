/** Optional values, for Python operations that may have no answer
    (`get_origin` of a bare class, `iter` of a non-iterable object). */
module Options {

  datatype Option<+T> = None | Some(value: T)
}
