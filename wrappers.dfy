/** The usual Some/None datatype. In this model `None` stands for a value the
    dashboard cannot show as a number (NaN or an infinity in the source). */
module Wrappers {

  datatype Option<+T> = None | Some(value: T)
}
