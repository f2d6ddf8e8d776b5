// Shared value types used by several settings controllers.

module Wrappers {
  /** A Java/Kotlin reference that may be null. */
  datatype Option<T> = None | Some(value: T)
  {
    function GetOr(default: T): (r: T)
      ensures this.Some? ==> r == value
      ensures this.None? ==> r == default
    {
      if this.Some? then value else default
    }
  }

  /** The value of a call, or the exception (by class name) it throws. */
  datatype Result<T> = Success(value: T) | Failure(exception: string)
}

/** The status codes a BasePreferenceController reports from getAvailabilityStatus. */
module Availability {
  datatype Status =
    | Available
    | AvailableUnsearchable
    | ConditionallyUnavailable
    | UnsupportedOnDevice
    | DisabledForUser
    | DisabledDependentSetting

  /** BasePreferenceController.isAvailable: the two AVAILABLE codes show the preference. */
  predicate IsShown(s: Status)
  {
    s == Available || s == AvailableUnsearchable
  }
}
