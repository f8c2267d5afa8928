/** The optional value used wherever a lookup or a decoding can fail
    (a missing dictionary key in the application, an unreadable code). */
module Maybe {

  datatype Option<+T> = None | Some(value: T)

}
