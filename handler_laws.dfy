/**
 * What the handler promises, one law per branch: each lemma fixes one upstream
 * outcome and states the response the gateway gives for it.
 */
module ProductHandlerLaws {
  import opened Wrappers
  import opened Dto
  import opened Reactive
  import opened Web
  import opened Foreign
  import opened ProductServices
  import opened ProductHandler

  // ---------------------------------------------------------------------------
  // findById

  /** A product from upstream is returned as a 200 JSON response with that product as body. */
  lemma FindByIdFound(rt: Runtime, service: ProductService, id: string, p: ProductValue)
    requires service.findById(id) == Emits(p)
    ensures FindById(rt, service, id) == Emits(ServerResponse(200, Some(ApplicationJson), None, ProductBody(p)))
  {
  }

  /** An empty upstream reply gives a bare 404: no content type, no error map, no body. */
  lemma FindByIdEmpty(rt: Runtime, service: ProductService, id: string)
    requires service.findById(id) == Empty
    ensures FindById(rt, service, id) == Emits(ServerResponse(404, None, None, NoBody))
  {
  }

  /** An upstream error gets exactly the error handler's treatment. */
  lemma FindByIdFailure(rt: Runtime, service: ProductService, id: string, e: Throwable)
    requires service.findById(id) == Fails(e)
    ensures FindById(rt, service, id) == Normalise(rt, e)
  {
  }

  // ---------------------------------------------------------------------------
  // The error handler

  /**
   * An upstream 404 becomes a 404 whose map holds the timestamp, the status,
   * the message, and the message behind the fixed prefix -- and no error list.
   */
  lemma NotFoundNormalised(rt: Runtime, message: string, responseBody: string)
    ensures var r := ErrorHandler(rt, Fails(WebClientResponseException(404, message, responseBody)));
      r.Emits? && r.value.status == 404 && r.value.body.MapBody? &&
      var entries := r.value.body.entries;
      entries.Keys == {TimestampKey, StatusKey, DetailKey, ErrorKey} &&
      entries[TimestampKey] == DateValue(rt.now) &&
      entries[StatusKey] == StatusValue(404) &&
      entries[DetailKey] == Text(message) &&
      entries[ErrorKey] == Text(NotFoundPrefix + message) &&
      ErrorListKey !in entries
  {
  }

  /**
   * An upstream 400 becomes a 400 whose map holds the timestamp, the status,
   * the message and the error list: the strings the body parses to, in order,
   * null when the body is JSON null, or the empty list when it does not parse.  A parse failure never
   * turns into an error signal.
   */
  lemma BadRequestNormalised(rt: Runtime, message: string, responseBody: string)
    ensures var r := ErrorHandler(rt, Fails(WebClientResponseException(400, message, responseBody)));
      r.Emits? && r.value.status == 400 && r.value.body.MapBody? &&
      var entries := r.value.body.entries;
      entries.Keys == {TimestampKey, StatusKey, DetailKey, ErrorListKey} &&
      entries[TimestampKey] == DateValue(rt.now) &&
      entries[StatusKey] == StatusValue(400) &&
      entries[DetailKey] == Text(message) &&
      (rt.readStringList(responseBody).Strings? ==>
        entries[ErrorListKey] == StringList(rt.readStringList(responseBody).items)) &&
      (rt.readStringList(responseBody).Malformed? ==> entries[ErrorListKey] == StringList([])) &&
      (rt.readStringList(responseBody).JsonNull? ==> entries[ErrorListKey] == NullValue) &&
      ErrorKey !in entries
  {
  }

  /** Any other upstream status is signalled again, unchanged, and no response is built. */
  lemma OtherStatusPropagated(rt: Runtime, status: int, message: string, responseBody: string)
    requires status != 404 && status != 400
    ensures ErrorHandler(rt, Fails(WebClientResponseException(status, message, responseBody)))
         == Fails(WebClientResponseException(status, message, responseBody))
  {
  }

  /** An error that is not an upstream reply fails the handler's cast: it is never normalised. */
  lemma NonHttpErrorNotNormalised(rt: Runtime, e: Throwable)
    requires !e.WebClientResponseException?
    ensures ErrorHandler(rt, Fails(e)) == Fails(ClassCastException(e))
  {
  }

  // ---------------------------------------------------------------------------
  // create

  /**
   * With Base64 text that decodes and a product present, upstream is sent the
   * DTO whose product carries the decoded bytes and is otherwise as it came.
   */
  lemma CreateSavesDecodedImage(
    rt: Runtime, service: ProductService, product: ProductValue, text: string, bytes: seq<byte>)
    requires rt.base64Decode(text) == Some(bytes)
    ensures CreateResult(rt, service, Emits(DtoValue(Some(product), Some(text))))
         == SavedResponse(rt, service.save(DtoValue(Some(product.(image := Some(bytes))), Some(text))))
  {
  }

  /** Without Base64 text, upstream is sent the DTO exactly as it came. */
  lemma CreateSavesUnchanged(rt: Runtime, service: ProductService, dto: DtoValue)
    requires dto.imageProduct.None?
    ensures CreateResult(rt, service, Emits(dto)) == SavedResponse(rt, service.save(dto))
  {
  }

  /** Malformed Base64 text is not turned into a 400: it reaches the handler's cast and fails it. */
  lemma CreateMalformedImage(rt: Runtime, service: ProductService, dto: DtoValue)
    requires dto.imageProduct.Some? && rt.base64Decode(dto.imageProduct.value).None?
    ensures CreateResult(rt, service, Emits(dto)) == Fails(ClassCastException(IllegalArgumentException))
  {
  }

  /** When upstream saves, the response is a 201 located at the id upstream returned, with that product as body. */
  lemma CreateLocatedAtReturnedId(rt: Runtime, service: ProductService, dto: DtoValue, p: ProductValue, id: string)
    requires AttachImage(rt, dto).Emits? && service.save(AttachImage(rt, dto).value) == Emits(p)
    requires p.id == Some(id) && rt.uriCreate(Location(id))
    ensures CreateResult(rt, service, Emits(dto))
         == Emits(ServerResponse(201, Some(ApplicationJson), Some("/api/client/" + id), ProductBody(p)))
  {
  }

  /** A saved product that comes back without an id makes the location concat throw, which is not normalised either. */
  lemma CreateWithoutReturnedId(rt: Runtime, service: ProductService, dto: DtoValue, p: ProductValue)
    requires AttachImage(rt, dto).Emits? && service.save(AttachImage(rt, dto).value) == Emits(p)
    requires p.id.None?
    ensures CreateResult(rt, service, Emits(dto)) == Fails(ClassCastException(NullPointerException))
  {
  }

  // ---------------------------------------------------------------------------
  // update

  /**
   * When upstream updates, the response is a 201 (not 200) located at the PATH
   * id, whatever id the returned product has, with the returned product as body.
   */
  lemma UpdateLocatedAtPathId(rt: Runtime, service: ProductService, p: ProductValue, id: string, q: ProductValue)
    requires service.update(p, id) == Emits(q) && rt.uriCreate(Location(id))
    ensures Update(rt, service, Emits(p), id)
         == Emits(ServerResponse(201, Some(ApplicationJson), Some("/api/client/" + id), ProductBody(q)))
  {
  }

  // ---------------------------------------------------------------------------
  // Two requests worked through

  /** GET /api/client/99 against an upstream 404 "not found". */
  lemma FindByIdNotFoundScenario(rt: Runtime, service: ProductService, responseBody: string)
    requires service.findById("99") == Fails(WebClientResponseException(404, "not found", responseBody))
    ensures var r := FindById(rt, service, "99");
      r.Emits? && r.value.status == 404 && r.value.body.MapBody? &&
      r.value.body.entries["Error: "] == Text("The product does not found: not found")
  {
  }

  /** POST /api/client with a Pen and the image "aGVsbG8=" ("hello"), upstream echoing it back with id 42. */
  lemma CreatePenScenario(rt: Runtime, service: ProductService, price: Price)
    requires rt.base64Decode("aGVsbG8=") == Some([104, 101, 108, 108, 111])
    requires rt.uriCreate("/api/client/42")
    requires service.save(DtoValue(Some(BlankProduct.(name := Some("Pen"), price := Some(price), image := Some([104, 101, 108, 108, 111]))), Some("aGVsbG8=")))
          == Emits(BlankProduct.(id := Some("42"), name := Some("Pen"), price := Some(price)))
    ensures CreateResult(rt, service, Emits(DtoValue(Some(BlankProduct.(name := Some("Pen"), price := Some(price))), Some("aGVsbG8="))))
         == Emits(ServerResponse(201, Some(ApplicationJson), Some("/api/client/42"),
                    ProductBody(BlankProduct.(id := Some("42"), name := Some("Pen"), price := Some(price)))))
  {
    var pen := BlankProduct.(name := Some("Pen"), price := Some(price));
    var hello: seq<byte> := [104, 101, 108, 108, 111];
    assert Location("42") == "/api/client/42";
    CreateLocatedAtReturnedId(rt, service, DtoValue(Some(pen), Some("aGVsbG8=")), pen.(id := Some("42")), "42");
  }
}
