/**
 * The upstream product service (IProductService), given by what each of its
 * calls yields.  The HTTP requests themselves are not modelled: each call is
 * the outcome the upstream reply produces for the arguments it was sent.
 */
module ProductServices {
  import opened Dto
  import opened Reactive

  datatype ProductService = ProductService(
    /** GET /: the products streamed back. */
    findAll: Flux<ProductValue>,
    /** GET /{id}. */
    findById: string -> Mono<ProductValue>,
    /** POST / with the DTO as it is when it is sent. */
    save: DtoValue -> Mono<ProductValue>,
    /** PUT /{id} with the product. */
    update: (ProductValue, string) -> Mono<ProductValue>,
    /** DELETE /{id}: a Mono<Void>, which completes empty or fails. */
    delete: string -> Mono<()>)
}
