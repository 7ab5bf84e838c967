/** An optional value, standing in for Go's "value or nothing" results
    (a nil error, an absent header, a string that does not parse). */
module Maybe {

  datatype Option<+T> = None | Some(value: T)
}
