/**
 * ProductHandler: for each route, the upstream call's outcome mapped to the
 * gateway's response, and the error handler that normalises upstream 404 and
 * 400 replies into an error map.
 */
module ProductHandler {
  import opened Wrappers
  import opened Dto
  import opened Reactive
  import opened Web
  import opened Foreign
  import opened ProductServices

  const LocationPrefix: string := "/api/client/"
  const NotFoundPrefix: string := "The product does not found: "

  // Keys of the error map, spelled as the gateway writes them.
  const TimestampKey: string := "Timestamp: "
  const StatusKey: string := "Status: "
  const DetailKey: string := "Error detail: "
  const ErrorKey: string := "Error: "
  const ErrorListKey: string := "Error list: "

  /** The Location path of a product: the fixed prefix followed by the id, unescaped. */
  function Location(id: string): string {
    LocationPrefix + id
  }

  /** 200, JSON, with the product as body. */
  function Ok(p: ProductValue): ServerResponse {
    ServerResponse(200, Some(ApplicationJson), None, ProductBody(p))
  }

  /** ServerResponse.notFound().build(): a bare 404. */
  const NotFound := ServerResponse(404, None, None, NoBody)

  /** ServerResponse.noContent().build(): a bare 204. */
  const NoContent := ServerResponse(204, None, None, NoBody)

  /**
   * ServerResponse.created(URI.create("/api/client/".concat(id))), JSON, body p.
   * A null id makes concat throw; a string URI.create rejects makes it throw.
   */
  function CreatedAt(rt: Runtime, id: Option<string>, p: ProductValue): (r: Mono<ServerResponse>)
    ensures !r.Empty?
    ensures r.Emits? <==> id.Some? && rt.uriCreate(LocationPrefix + id.value)
    ensures r.Emits? ==>
      r.value.status == 201 && r.value.contentType == Some(ApplicationJson) &&
      r.value.location == Some(LocationPrefix + id.value) && r.value.body == ProductBody(p)
    ensures r.Fails? ==> r.error == if id.None? then NullPointerException else IllegalArgumentException
  {
    if id.None? then Fails(NullPointerException)
    else if !rt.uriCreate(Location(id.value)) then Fails(IllegalArgumentException)
    else Emits(ServerResponse(201, Some(ApplicationJson), Some(Location(id.value)), ProductBody(p)))
  }

  // ---------------------------------------------------------------------------
  // The error handler

  /** Timestamp, status and message: the entries every normalised error map has. */
  function BaseEntries(rt: Runtime, status: int, message: string): map<string, MapValue> {
    map[TimestampKey := DateValue(rt.now), StatusKey := StatusValue(status), DetailKey := Text(message)]
  }

  /** The error list of a 400 reply: what Jackson made of the body, or the empty list when it threw. */
  function ErrorList(parsed: JsonStringList): MapValue {
    match parsed
    case Malformed => StringList([])
    case JsonNull => NullValue
    case Strings(items) => StringList(items)
  }

  /**
   * What the error handler resumes with after an error signal.  A 404 or 400
   * upstream reply becomes a response with the same status and an error map;
   * any other upstream reply is signalled again unchanged; an error that is
   * not an upstream reply fails the cast.
   */
  function Normalise(rt: Runtime, error: Throwable): (r: Mono<ServerResponse>)
    ensures !r.Empty?
    ensures r.Emits? <==> error.WebClientResponseException? && error.status in {400, 404}
    ensures r.Emits? ==>
      r.value.status == error.status && r.value.contentType.None? && r.value.location.None? &&
      r.value.body.MapBody? && r.value.body.entries.Keys >= {TimestampKey, StatusKey, DetailKey}
    ensures r.Fails? && error.WebClientResponseException? ==> r.error == error
    ensures r.Fails? && !error.WebClientResponseException? ==> r.error == ClassCastException(error)
  {
    match error
    case WebClientResponseException(status, message, responseBody) =>
      if status == 404 then
        Emits(ServerResponse(status, None, None,
          MapBody(BaseEntries(rt, status, message)[ErrorKey := Text(NotFoundPrefix + message)])))
      else if status == 400 then
        Emits(ServerResponse(status, None, None,
          MapBody(BaseEntries(rt, status, message)[ErrorListKey := ErrorList(rt.readStringList(responseBody))])))
      else
        Fails(error)
    case _ => Fails(ClassCastException(error))
  }

  /** errorHandler: successful and empty outcomes pass; an error signal is normalised. */
  function ErrorHandler(rt: Runtime, response: Mono<ServerResponse>): (r: Mono<ServerResponse>)
    ensures !response.Fails? ==> r == response
    ensures response.Fails? && r.Emits? ==>
      response.error.WebClientResponseException? && r.value.status == response.error.status &&
      r.value.status in {400, 404} && r.value.body.MapBody?
    ensures r.Fails? ==>
      response.Fails? && (r.error == response.error || r.error == ClassCastException(response.error))
  {
    OnErrorResume(response, (e: Throwable) => Normalise(rt, e))
  }

  /**
   * The body of the error handler's resume function, step by step: the cast,
   * the map filled by successive puts, and the error list that keeps its empty
   * default when parsing throws.
   */
  method ResumeOnError(rt: Runtime, error: Throwable) returns (r: Mono<ServerResponse>)
    ensures r == Normalise(rt, error)
  {
    if !error.WebClientResponseException? {
      r := Fails(ClassCastException(error));
      return;
    }
    var responseError := error;
    var errorMap: map<string, MapValue> := map[];
    errorMap := errorMap[TimestampKey := DateValue(rt.now)];
    errorMap := errorMap[StatusKey := StatusValue(responseError.status)];
    errorMap := errorMap[DetailKey := Text(responseError.message)];
    if responseError.status == 404 {
      errorMap := errorMap[ErrorKey := Text(NotFoundPrefix + responseError.message)];
      r := Emits(ServerResponse(responseError.status, None, None, MapBody(errorMap)));
      return;
    } else if responseError.status == 400 {
      var errorList := responseError.responseBody;
      var errorStringList: MapValue := StringList([]);
      match rt.readStringList(errorList) {
        case Malformed =>           // only logged
        case JsonNull => errorStringList := NullValue;
        case Strings(items) => errorStringList := StringList(items);
      }
      errorMap := errorMap[ErrorListKey := errorStringList];
      r := Emits(ServerResponse(responseError.status, None, None, MapBody(errorMap)));
      return;
    }
    r := Fails(responseError);
  }

  // ---------------------------------------------------------------------------
  // The operations

  /** list: a 200 whose body streams findAll; it is built before the stream runs and is never error-handled. */
  function List(service: ProductService): (r: Mono<ServerResponse>)
    ensures r.Emits? && r.value.status == 200 && r.value.contentType == Some(ApplicationJson)
    ensures r.value.body == ProductStream(service.findAll)
  {
    Emits(ServerResponse(200, Some(ApplicationJson), None, ProductStream(service.findAll)))
  }

  /** findById: the product as a 200, an empty reply as a bare 404, errors through the error handler. */
  function FindById(rt: Runtime, service: ProductService, id: string): (r: Mono<ServerResponse>)
    ensures !r.Empty?
    ensures r.Emits? ==> r.value.status in {200, 400, 404}
    ensures r.Emits? && r.value.status == 200 ==>
      service.findById(id).Emits? && r.value.body == ProductBody(service.findById(id).value)
    ensures r.Fails? ==> service.findById(id).Fails?
  {
    ErrorHandler(rt,
      SwitchIfEmpty(
        FlatMap(service.findById(id), (p: ProductValue) => Emits(Ok(p))),
        Emits(NotFound)))
  }

  /**
   * The image step of create: when the DTO carries Base64 text, decode it and
   * store the bytes in the DTO's product.  Decoding happens first, so malformed
   * text fails before a missing product is dereferenced.
   */
  function AttachImage(rt: Runtime, dto: DtoValue): (r: Mono<DtoValue>)
    ensures !r.Empty?
    ensures dto.imageProduct.None? ==> r == Emits(dto)
    ensures r.Emits? <==>
      dto.imageProduct.None? || (rt.base64Decode(dto.imageProduct.value).Some? && dto.product.Some?)
    ensures r.Fails? ==>
      r.error == if rt.base64Decode(dto.imageProduct.value).None? then IllegalArgumentException else NullPointerException
    ensures r.Emits? ==>
      r.value.imageProduct == dto.imageProduct && r.value.product.Some? == dto.product.Some?
    ensures r.Emits? && dto.product.Some? ==>
      r.value.product.value == dto.product.value.(image := r.value.product.value.image)
    ensures r.Emits? && dto.imageProduct.Some? ==>
      r.value.product.value.image == rt.base64Decode(dto.imageProduct.value)
  {
    match dto.imageProduct
    case None => Emits(dto)
    case Some(image) =>
      match rt.base64Decode(image)
      case None => Fails(IllegalArgumentException)
      case Some(imageDecode) =>
        if dto.product.None? then Fails(NullPointerException)
        else Emits(dto.(product := Some(dto.product.value.(image := Some(imageDecode)))))
  }

  /**
   * The response create gives for a request body: the image step, the upstream
   * save of the DTO as the image step left it, then a 201 located at the id of
   * the product upstream returned.
   */
  function CreateResult(rt: Runtime, service: ProductService, body: Mono<DtoValue>): (r: Mono<ServerResponse>)
    ensures r.Emits? ==> r.value.status in {201, 400, 404}
    ensures r.Emits? && r.value.status == 201 ==>
      body.Emits? && r.value.body.ProductBody? && r.value.body.product.id.Some? &&
      r.value.location == Some(Location(r.value.body.product.id.value))
    ensures r.Empty? <==>
      body.Empty? ||
      (body.Emits? && AttachImage(rt, body.value).Emits? && service.save(AttachImage(rt, body.value).value).Empty?)
  {
    SavedResponse(rt, FlatMap(body, (pi: DtoValue) => FlatMap(AttachImage(rt, pi), service.save)))
  }

  /** The rest of create once upstream has answered the save: a 201 at the returned id, through the error handler. */
  function SavedResponse(rt: Runtime, saved: Mono<ProductValue>): Mono<ServerResponse> {
    ErrorHandler(rt, FlatMap(saved, (p: ProductValue) => CreatedAt(rt, p.id, p)))
  }

  /** The DTO a request body carries, as a value. */
  function Snapshot(body: Mono<ImageProductDTO>): Mono<DtoValue>
    reads if body.Emits? then {body.value, body.value.product} else {}
  {
    match body
    case Emits(pi) => Emits(pi.Value())
    case Empty => Empty
    case Fails(e) => Fails(e)
  }

  /** The objects create may change: the product the request's DTO refers to. */
  function Mutable(body: Mono<ImageProductDTO>): set<object>
    reads if body.Emits? then {body.value} else {}
  {
    if body.Emits? && body.value.product != null then {body.value.product} else {}
  }

  /**
   * create, as the handler runs it: the decoded image is written into the
   * Product object the DTO holds, and it is the DTO -- which sees that write --
   * that is sent upstream.
   */
  method Create(rt: Runtime, service: ProductService, body: Mono<ImageProductDTO>)
    returns (r: Mono<ServerResponse>)
    modifies Mutable(body)
    ensures r == CreateResult(rt, service, old(Snapshot(body)))
    ensures body.Emits? && AttachImage(rt, old(body.value.Value())).Emits? ==>
      body.value.Value() == AttachImage(rt, old(body.value.Value())).value
    ensures body.Emits? && !AttachImage(rt, old(body.value.Value())).Emits? ==>
      body.value.Value() == old(body.value.Value())
  {
    match body {
      case Empty =>
        r := SavedResponse(rt, Empty);
      case Fails(e) =>
        r := SavedResponse(rt, Fails(e));
      case Emits(pi) =>
        var p := pi.product;
        var image := pi.imageProduct;
        var saved: Mono<ProductValue>;
        if image.Some? {
          var imageDecode := rt.base64Decode(image.value);
          if imageDecode.None? {
            saved := Fails(IllegalArgumentException);
          } else if p == null {
            saved := Fails(NullPointerException);
          } else {
            p.SetImage(imageDecode);
            saved := service.save(pi.Value());
          }
        } else {
          saved := service.save(pi.Value());
        }
        r := SavedResponse(rt, saved);
    }
  }

  /** update: the product sent upstream for the path id; a 201 located at the PATH id, whatever id comes back. */
  function Update(rt: Runtime, service: ProductService, body: Mono<ProductValue>, id: string): (r: Mono<ServerResponse>)
    ensures r.Emits? ==> r.value.status in {201, 400, 404}
    ensures r.Emits? && r.value.status == 201 ==>
      r.value.location == Some(Location(id)) && r.value.body.ProductBody?
    ensures r.Empty? <==> body.Empty? || (body.Emits? && service.update(body.value, id).Empty?)
  {
    ErrorHandler(rt,
      FlatMap(
        FlatMap(body, (p: ProductValue) => service.update(p, id)),
        (p: ProductValue) => CreatedAt(rt, Some(id), p)))
  }

  /** delete: once upstream completes, a bare 204. */
  function Delete(rt: Runtime, service: ProductService, id: string): (r: Mono<ServerResponse>)
    ensures !r.Empty?
    ensures r.Emits? ==> r.value.status in {204, 400, 404}
    ensures r.Emits? && r.value.status == 204 ==> r.value.body == NoBody && !service.delete(id).Fails?
    ensures !service.delete(id).Fails? ==> r == Emits(NoContent)
  {
    ErrorHandler(rt, Then(service.delete(id), Emits(NoContent)))
  }
}
