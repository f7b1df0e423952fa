/** A value that may be absent. The parser answers `None` where the JavaScript
    code would go on with an `undefined` or `NaN` placeholder. */
module Optional {

  datatype Option<+T> = None | Some(value: T)
}
