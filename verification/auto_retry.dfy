/** The per-request retry policy, `AutoRetryConfiguration`. */
module AutoRetry {
  import opened Optionals
  import opened UrlErrors

  /** `breakTime` is a delay in seconds, carried but never computed with. */
  datatype AutoRetryConfiguration = AutoRetryConfiguration(
    breakTime: real,
    maxRetryCount: int,
    enableBackgroundRetry: bool,
    failWhenNotReachable: bool,
    failOnErrorHandler: Option<Error -> bool>)

  /** The initialiser, with the same defaulted arguments. */
  function Init(
    breakTime: real := 5.0,
    maxRetryCount: int := 5,
    enableBackgroundRetry: bool := true,
    failWhenNotReachable: bool := false,
    failOnErrorHandler: Option<Error -> bool> := None): (c: AutoRetryConfiguration)
    ensures c.breakTime == breakTime && c.maxRetryCount == maxRetryCount
    ensures c.enableBackgroundRetry == enableBackgroundRetry
    ensures c.failWhenNotReachable == failWhenNotReachable
    ensures c.failOnErrorHandler == failOnErrorHandler
  {
    AutoRetryConfiguration(breakTime, maxRetryCount, enableBackgroundRetry,
                           failWhenNotReachable, failOnErrorHandler)
  }

  /** With no arguments: wait 5 s, retry up to 5 times, also in the background,
      queue rather than fail when offline, and no error veto. */
  lemma DefaultConfiguration()
    ensures Init().breakTime == 5.0 && Init().maxRetryCount == 5
    ensures Init().enableBackgroundRetry
    ensures !Init().failWhenNotReachable && Init().failOnErrorHandler.None?
  {
  }
}
