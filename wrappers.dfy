/** Optional values and fallible results shared by every module of the model. */
module Wrappers {

  /** A value that may be absent: `std::optional`, or a possibly null buffer or handle. */
  datatype Option<+T> = None | Some(value: T)

  /** Why an operation of the library gave up. The source throws (or aborts
      through its result-check macro) in each of these situations. */
  datatype Error =
    | NoQueueFamily            // no queue family supports the requested flags
    | NoDepthFormat            // no candidate depth format is usable
    | NoMemoryType             // no memory type has the requested properties
    | NoGraphicsOrPresentQueue // no graphics family, or no family can present to the surface
    | SeparatePresentQueue     // graphics and present would need different families
    | DriverFailure(code: int) // a driver call returned a fatal VkResult
    | NullBuffer               // a buffer allocation came back null and was then used

  /** The outcome of an operation that can throw. */
  datatype Result<+T> = Ok(value: T) | Err(error: Error)
}
