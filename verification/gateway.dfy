/** The gateway's request and response records, reduced to the fields the
    router reads and writes. */
module Gateway {

  /** An incoming event: method, path, the path parameters the gateway
      extracted (name to value) and the raw body. */
  datatype Request = Request(
    httpMethod: string,
    path: string,
    pathParameters: map<string, string>,
    body: string)

  /** An outgoing response: status code, header map and body text. */
  datatype Response = Response(
    statusCode: int,
    headers: map<string, string>,
    body: string)
}
