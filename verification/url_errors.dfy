/** `NSError`: the domain and code the dispatcher inspects, and the rest of it. */
module UrlErrors {

  /** `userInfo` stands for everything else the error carries (the response, the URL, ...):
      the dispatcher never reads it, but a veto handler may. */
  datatype Error = Error(domain: string, code: int, userInfo: nat)

  /** Foundation's `NSURLErrorDomain`. */
  const UrlErrorDomain: string := "NSURLErrorDomain"

  /** Foundation's `NSURLErrorCancelled`. */
  const UrlErrorCancelled: int := -999

  /** The error a transport reports when its task was cancelled. */
  predicate IsCancelled(e: Error)
  {
    e.domain == UrlErrorDomain && e.code == UrlErrorCancelled
  }
}
