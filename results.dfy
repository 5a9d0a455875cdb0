/** The exceptions raised by the two `aggregate_salaries` functions, as values. */
module Results {

  datatype Error =
    | InvalidIsoFormat(text: string)  // ValueError from datetime.fromisoformat on `text`
    | DateFieldOutOfRange             // ValueError from the datetime constructor ("month must be in 1..12", ...)
    | InvalidGroupType                // ValueError raised for a group_type outside hour/day/month
    | IndexError                      // labels[-1] on an empty label list
    | OverflowError                   // datetime + timedelta past the last representable hour

  datatype Result<T> = Ok(value: T) | Err(error: Error)
}
