/** A value that may be absent: a Telegram message without text, an unset
    environment variable, an inbound payload that could not be parsed. */
module Optional {

  datatype Option<+T> = None | Some(value: T)
}
