/** The server responses the handler builds. */
module Web {
  import opened Wrappers
  import opened Dto
  import opened Reactive

  datatype MediaType = ApplicationJson

  /** What the error map (a HashMap<String, Object>) stores under its keys. */
  datatype MapValue =
    | DateValue(at: Date)
    | StatusValue(code: int)
    | Text(text: string)
    | StringList(items: seq<string>)
    | NullValue

  datatype Body =
    | NoBody
    | ProductBody(product: ProductValue)
    | ProductStream(products: Flux<ProductValue>)
    | MapBody(entries: map<string, MapValue>)

  /** A response: status code, Content-Type if set explicitly, Location if set, and body. */
  datatype ServerResponse = ServerResponse(
    status: int,
    contentType: Option<MediaType>,
    location: Option<string>,
    body: Body)
}
