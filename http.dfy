/**
 * What crosses the HTTP boundary. A route handler answers with a status code
 * and a JSON body `{ success, data }` or `{ success: false, error }`; a client
 * page sees the decoded body, or an exception from `fetch` or `json()`.
 */
module Http {

  /** The JSON body of a route's answer. */
  datatype Payload<T> = Data(value: T) | Error(message: string)

  /** A route's answer: status code and body. */
  datatype Response<T> = Response(status: nat, payload: Payload<T>)

  /** What a client handler sees after `await fetch(...)` and `await res.json()`. */
  datatype Reply<T> =
    | Succeeded(data: T)       // body with success: true
    | Failed(error: string)    // body with success: false; "" when it carries no error text
    | Threw                    // fetch or json() threw
}
