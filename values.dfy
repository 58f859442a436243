/** Values that flow through the aggregation stage. */
module Values {

  datatype Option<T> = None | Some(value: T)

  /** A cell value as the stage sees it. JavaScript numbers are modelled as
      exact integers; every other kind of value a reducer may meet is one of
      the remaining constructors. */
  datatype Value = Num(n: int) | Str(s: string) | Bool(b: bool) | Null | Undefined
}
