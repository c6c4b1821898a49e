/** Outcome types shared by the modules of this model. An exception the
    source raises becomes an `Err`; an empty "no result" becomes `None`. */
module Results {

  datatype Option<+T> = None | Some(value: T)

  datatype Result<+T, +E> = Ok(value: T) | Err(error: E)
}
