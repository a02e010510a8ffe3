/** The optional value used for nullable columns and missing keys. */
module Options {
  datatype Option<+T> = None | Some(value: T) {
    function GetOr(default_: T): T {
      if Some? then value else default_
    }
  }
}
