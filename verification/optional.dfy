/** A value that may be absent: a missing cookie or query parameter, or a
    JavaScript `undefined`. */
module Optional {

  datatype Option<+T> = None | Some(value: T)
}
