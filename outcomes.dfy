/** Failure-carrying results for the generation engine. */
module Outcomes {

  /**
   * The exceptions the engine raises. All but the last are named after the Python exception
   * class raised; the last stands for the plain `Exception` the resolver raises with its message.
   */
  datatype Error =
    | AssertionError      // the `assert` in Model.Field and Model.Generate
    | TypeError           // next() on the default generator, a plain function and not an iterator
    | IndexError          // random.choices over an empty population
    | ValueError          // random.randint(min, max) with min > max
    | StopIteration       // next() on a generator that already raised once
    | ConditionsExhausted // a bare Exception("Not all possible conditions have been provided")

  datatype Option<T> = None | Some(value: T)

  datatype Result<T> = Ok(value: T) | Err(error: Error)
}
