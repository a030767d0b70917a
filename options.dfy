/** An optional value: a string the host may or may not supply (an AI answer,
    the text of a tool error). */
module Options {

  datatype Option<+T> = None | Some(value: T)

}
