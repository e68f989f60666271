/** What the client can fail with. */
module Errors {

  datatype Error =
    | Thrown(message: string)   // `throw new Error(message)` in the client itself
    | UriError                  // `decodeURIComponent` or `decodeURI` rejected an escape
    | JsonSyntaxError           // `JSON.parse` or `response.json()` rejected its input
    | TypeError                 // a property was read from `undefined`, or no request could be built from a URL
    | HttpError(status: int)    // `ky` refused a reply whose status is not 2xx
    | PageLimitReached          // the pagination fold used up its page budget (not in the source)
}
