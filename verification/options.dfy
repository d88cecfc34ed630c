/** The optional-value datatype shared by the modules of this model. In the
    JavaScript source an absent value is `undefined`, `null` or `NaN`; here it
    is `None`. */
module Options {
  datatype Option<+T> = None | Some(value: T)
}
