/** An optional value: a nullable column, an absent argument, a lookup that may fail. */
module Options {
  datatype Option<+T> = None | Some(value: T) {
    function GetOr(default: T): T { if Some? then value else default }
  }
}
