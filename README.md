# Product gateway handler, modelled in Dafny

The gateway exposes `/api/client` for products and forwards each request to an
upstream product service through a reactive web client. Its only decision logic
is in `ProductHandler`. Each operation maps the upstream call's outcome to a
response: a product, an empty reply, completion, an HTTP error, or any other
exception. An error handler then turns upstream 404 and 400 replies into an
error map.

This model treats the handler as functions from the upstream outcome to the
gateway's outcome:

- `Reactive` keeps only how a Mono ends: `Emits(value)`, `Empty` or
  `Fails(error)`. It also defines the operators the handler chains:
  `flatMap`, `switchIfEmpty`, `then` and `onErrorResume`.
- `ProductServices` describes the upstream service (`IProductService`) by what
  each call yields for the arguments sent to it.
- `Foreign` holds what the handler calls but does not define, as given values:
  Base64 decoding, Jackson's parse of a body as a list of strings, whether
  `URI.create` accepts a string, and the clock.
- `Dto` makes `Product` and `ImageProductDTO` classes, because create relies on
  their mutability. It writes the decoded image into the `Product` object that
  the DTO holds, and then sends the DTO. `Value()` gives a snapshot, with every
  nullable Java field as an `Option`.
- `ProductHandler` models `list`, `findById`, `create`, `update`, `delete` and
  the error handler. Pure pipelines are functions. The parts that change state
  step by step are methods proved against those functions: the error map filled
  by `put` calls, and the image written into the shared product.
- `ProductHandlerLaws` states one law per branch.
- `Router` models the route table, including how a path is split and matched.
  It is the partner that gives the `Location` of a 201 its meaning: the lemmas
  prove that this location routes back to the product it names.

In these places the model follows the code as written:

- `list` is never wrapped by the error handler. Its response is a 200 built
  before the upstream stream runs, so upstream errors are never normalised.
- `findById` with an empty upstream reply gives a bare 404 without an error map.
  The error map appears only for an upstream 404 error.
- An error that is not an upstream HTTP reply fails the cast in the error
  handler and surfaces as a `ClassCastException`. That covers malformed Base64,
  a transport failure, an unreadable request body and a null id in the location
  concat. None of them becomes a 400 or a 5xx.
- `create` checks whether the image text is null, not whether it is empty. An
  empty string is decoded (to no bytes) and stored.
- A 400 body that Jackson parses as JSON `null` stores `null` under
  `"Error list: "`. Only a parse exception leaves the empty list there.

## Model

| member | source | states |
|---|---|---|
| `Dto.Product.constructor` | src/main/java/com/johannpando/springboot/webflux/client/app/dto/Product.java:10-25 | the no-argument constructor leaves every field null |
| `Dto.Product.SetImage` | src/main/java/com/johannpando/springboot/webflux/client/app/dto/Product.java:10-23 | the image setter replaces the image and leaves every other field as it was |
| `Dto.ImageProductDTO.constructor` | src/main/java/com/johannpando/springboot/webflux/client/app/dto/ImageProductDTO.java:6-12 | the all-arguments constructor stores the product reference and the Base64 text as given |
| `ProductHandler.ErrorHandler` | src/main/java/com/johannpando/springboot/webflux/client/app/handler/ProductHandler.java:114-141 | success and empty outcomes pass through untouched; after an error, a response is built only for an upstream reply, with the upstream status, which is 400 or 404, and an error map; any error that leaves is the original or a ClassCastException that carries it |
| `ProductHandler.Normalise` | src/main/java/com/johannpando/springboot/webflux/client/app/handler/ProductHandler.java:116-139 | a response is built exactly for an upstream 404 or 400, with that status, no content type or location, and an error map holding at least the timestamp, status and detail; any other upstream reply is signalled again as it is, and any other error as a ClassCastException carrying it; never empty |
| `ProductHandler.ResumeOnError` | src/main/java/com/johannpando/springboot/webflux/client/app/handler/ProductHandler.java:116-139 | the cast, the map filled by successive puts and the error list that keeps its empty default when parsing throws give exactly the normalisation the laws below describe |
| `ProductHandler.CreatedAt` | src/main/java/com/johannpando/springboot/webflux/client/app/handler/ProductHandler.java:78-80 | a 201 JSON response located at "/api/client/" + the id, with the product as body, exactly when there is an id and the location is a valid URI; a missing id fails with NullPointerException and an invalid URI with IllegalArgumentException; never empty |
| `ProductHandler.List` | src/main/java/com/johannpando/springboot/webflux/client/app/handler/ProductHandler.java:40-45 | always a 200 JSON response whose body is the upstream stream as it is, upstream errors included: list is never error-handled |
| `ProductHandler.FindById` | src/main/java/com/johannpando/springboot/webflux/client/app/handler/ProductHandler.java:47-60 | never empty; a response is 200, 400 or 404; a 200 carries the product upstream found; an error leaves only after an upstream error |
| `ProductHandler.AttachImage` | src/main/java/com/johannpando/springboot/webflux/client/app/handler/ProductHandler.java:67-74 | without image text the DTO goes on unchanged; with text, it goes on exactly when the text decodes and a product is present, and then only the product's image changes, to the decoded bytes; otherwise the failure is IllegalArgumentException for bad Base64, checked first, else NullPointerException |
| `ProductHandler.CreateResult` | src/main/java/com/johannpando/springboot/webflux/client/app/handler/ProductHandler.java:62-82 | a response is 201, 400 or 404; a 201 carries a product with an id and is located at "/api/client/" + that id; the outcome is empty exactly when the request body or the upstream save is empty |
| `ProductHandler.Create` | src/main/java/com/johannpando/springboot/webflux/client/app/handler/ProductHandler.java:62-82 | writing the decoded image into the Product object the DTO holds, then sending the DTO, gives CreateResult of the request as it arrived; afterwards the DTO's product holds the image when the image step succeeded, and is unchanged otherwise |
| `ProductHandler.Update` | src/main/java/com/johannpando/springboot/webflux/client/app/handler/ProductHandler.java:84-99 | a response is 201, 400 or 404; a 201 is located at "/api/client/" + the path id and carries a product; empty exactly when the request body or the upstream update is empty |
| `ProductHandler.Delete` | src/main/java/com/johannpando/springboot/webflux/client/app/handler/ProductHandler.java:103-112 | never empty; once upstream completes without error the response is a bare 204 with no body, whatever upstream sent; a response is 204, 400 or 404 |
| `ProductHandlerLaws.FindByIdFound` | src/main/java/com/johannpando/springboot/webflux/client/app/handler/ProductHandler.java:50-57 | a product from upstream gives 200, JSON, with that product as body |
| `ProductHandlerLaws.FindByIdEmpty` | src/main/java/com/johannpando/springboot/webflux/client/app/handler/ProductHandler.java:58 | an empty upstream reply gives a bare 404 with no error map |
| `ProductHandlerLaws.FindByIdFailure` | src/main/java/com/johannpando/springboot/webflux/client/app/handler/ProductHandler.java:49-59 | an upstream error gets exactly the error handler's treatment |
| `ProductHandlerLaws.NotFoundNormalised` | src/main/java/com/johannpando/springboot/webflux/client/app/handler/ProductHandler.java:118-126 | an upstream 404 gives a 404 whose map has exactly the timestamp, status, detail and "Error: " keys; "Error: " holds "The product does not found: " followed by the message, and there is no error list |
| `ProductHandlerLaws.BadRequestNormalised` | src/main/java/com/johannpando/springboot/webflux/client/app/handler/ProductHandler.java:118-137 | an upstream 400 gives a 400 whose map has exactly the timestamp, status, detail and "Error list: " keys; the list is the parsed strings in order, or empty when parsing throws, and no error is signalled |
| `ProductHandlerLaws.OtherStatusPropagated` | src/main/java/com/johannpando/springboot/webflux/client/app/handler/ProductHandler.java:139 | an upstream reply with any status other than 404 and 400 is signalled again unchanged |
| `ProductHandlerLaws.NonHttpErrorNotNormalised` | src/main/java/com/johannpando/springboot/webflux/client/app/handler/ProductHandler.java:117 | an error that is not an upstream reply fails the cast and is never normalised |
| `ProductHandlerLaws.CreateSavesDecodedImage` | src/main/java/com/johannpando/springboot/webflux/client/app/handler/ProductHandler.java:68-75 | with decodable image text, upstream is sent the DTO whose product has the decoded bytes as its image and is otherwise unchanged |
| `ProductHandlerLaws.CreateSavesUnchanged` | src/main/java/com/johannpando/springboot/webflux/client/app/handler/ProductHandler.java:71-75 | without image text, upstream is sent the DTO as it came |
| `ProductHandlerLaws.CreateMalformedImage` | src/main/java/com/johannpando/springboot/webflux/client/app/handler/ProductHandler.java:72 | malformed Base64 text ends in a ClassCastException, not in a 400 |
| `ProductHandlerLaws.CreateLocatedAtReturnedId` | src/main/java/com/johannpando/springboot/webflux/client/app/handler/ProductHandler.java:77-80 | a saved product gives 201, JSON, located at "/api/client/" + the id upstream returned, with that product as body |
| `ProductHandlerLaws.CreateWithoutReturnedId` | src/main/java/com/johannpando/springboot/webflux/client/app/handler/ProductHandler.java:78 | a saved product without an id makes the location concat throw, which ends in a ClassCastException |
| `ProductHandlerLaws.UpdateLocatedAtPathId` | src/main/java/com/johannpando/springboot/webflux/client/app/handler/ProductHandler.java:88-96 | an updated product gives 201 (not 200), located at "/api/client/" + the path id whatever id the product has, with the returned product as body |
| `ProductHandlerLaws.FindByIdNotFoundScenario` | src/main/java/com/johannpando/springboot/webflux/client/app/handler/ProductHandler.java:122-126 | GET /api/client/99 against an upstream 404 "not found" gives 404 with "The product does not found: not found" |
| `ProductHandlerLaws.CreatePenScenario` | src/main/java/com/johannpando/springboot/webflux/client/app/handler/ProductHandler.java:62-82 | POST of a Pen with image "aGVsbG8=", echoed by upstream with id 42, gives 201 at /api/client/42 with the echoed product |
| `Router.CollectionRoutes` | src/main/java/com/johannpando/springboot/webflux/client/app/config/RouterConfig.java:20-24 | on "/api/client", GET routes to list and POST to create, with no path variables, and PUT and DELETE have no route |
| `Router.LocationRoutesBack` | src/main/java/com/johannpando/springboot/webflux/client/app/config/RouterConfig.java:20-24 | a product's location path routes GET, PUT and DELETE to findById, update and delete with that id, and POST nowhere |
| `Router.CreatedLocationRoutesBack` | src/main/java/com/johannpando/springboot/webflux/client/app/handler/ProductHandler.java:78 | the location of a 201 from create leads GET back to findById of the id upstream assigned |
| `Router.UpdatedLocationRoutesBack` | src/main/java/com/johannpando/springboot/webflux/client/app/handler/ProductHandler.java:93 | the location of a 201 from update leads GET and PUT back to the same path id |

## Left out

- Reactive execution is not modelled: no laziness, scheduling or back-pressure, and no streaming of `list` item by item. A Mono is the signal it ends with, and a Flux is its items and its end.
- `Create`: the image step runs when the request is handled, not inside a subscription. The DTO and its product are request-scoped, so no other code can observe the difference.
- What Spring writes when a handler's Mono completes empty (request without a body) is not modelled. The handler's outcome is `Empty`.
- Request building and network I/O in `ProductServiceImpl` are not modelled. Each upstream call is the outcome it yields, with transport failures as `OtherException`.
- `AppConfig` (bean and load-balancer wiring) is not modelled: it has no logic.
- Logging (`log.error` on a parse failure) is not modelled. The failure itself is modelled: the error list stays empty.
- Jackson's parsing, the JDK's Base64 decoder and `URI.create`'s syntax rules are given functions. Their own behaviour and the Base64 round trip belong to those libraries.
- `new Date()` is a given value, and the product fields `price`, `createAt` and `category` are opaque tokens. The gateway only relays them.
- How responses and maps are serialised to JSON is not modelled. Bodies are kept as values.
- `Content-Type` of the error responses is `None` because the code does not set it. Spring's choice of media type is not modelled.
- The status is the integer code. A code that Spring's `HttpStatus` does not know, where `getStatusCode()` itself can throw, is not modelled.
- The `Product(name, price)` and `Product(name, price, category)` constructors are not modelled: the handler never calls them.
- `Router`: Spring's path matching is modelled only as splitting at '/', with literal and `{name}` segments. Trailing-slash tolerance, percent-decoding, matrix variables, query strings and fragments are not modelled. The routing lemmas therefore ask that an id be a non-empty ASCII segment, not a dot segment (`.` or `..`, which section 5.2.4 of RFC 3986 removes), and free of `/ ? # ; %`.
- `CreatedAt`: the `Location` header holds the concatenated string as it is. Spring writes it through `URI.toASCIIString()`, which percent-encodes non-ASCII characters (an id `café` is sent as `/api/client/caf%C3%A9`); that encoding is not modelled, which is why the routing lemmas ask for an ASCII id.
