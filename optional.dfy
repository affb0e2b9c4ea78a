/** A value that may be absent: how the model writes a C `char *` that may be
    NULL (an environment variable that is not set, a group pointer of 0). */
module Optional {

  datatype Option<+T> = None | Some(value: T)
}
