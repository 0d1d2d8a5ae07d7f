/** What a server route sends back: a value, or an HTTP status with the error
    text of the JSON body. */
module Http {
  datatype Outcome<T> = Ok(value: T) | Err(status: int, error: string)
}
