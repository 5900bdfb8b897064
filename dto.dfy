/**
 * The two data holders exchanged with the upstream product service.
 *
 * Both are mutable Java beans (getters and setters generated by Lombok), and the
 * create operation relies on that: it changes the Product inside an
 * ImageProductDTO in place.  They are therefore classes here, each with a
 * function giving its current value as an immutable snapshot.  Every Java field
 * is a reference that may be null, which the snapshots write as Option.
 */
module Dto {
  import opened Wrappers

  /** A Java byte. Its sign does not matter to the model, only that it is one of 256 values. */
  newtype byte = x: int | 0 <= x < 256

  /** java.lang.Double price, kept opaque: the gateway never computes with it. */
  datatype Price = Price(token: nat)

  /** java.util.Date, kept opaque: used for a product's creation date and for error timestamps. */
  datatype Date = Date(token: nat)

  /** The product category object, kept opaque: the gateway only relays it. */
  datatype Category = Category(token: nat)

  /** The value of a Product at one moment. */
  datatype ProductValue = ProductValue(
    id: Option<string>,
    name: Option<string>,
    price: Option<Price>,
    createAt: Option<Date>,
    image: Option<seq<byte>>,
    category: Option<Category>)

  /** A product with every field null, as Jackson and the no-argument constructor make it. */
  const BlankProduct := ProductValue(None, None, None, None, None, None)

  class Product {
    var id: Option<string>
    var name: Option<string>
    var price: Option<Price>
    var createAt: Option<Date>
    var image: Option<seq<byte>>
    var category: Option<Category>

    function Value(): ProductValue
      reads this
    {
      ProductValue(id, name, price, createAt, image, category)
    }

    /** The no-argument constructor: every field starts out null. */
    constructor ()
      ensures Value() == BlankProduct
    {
      id, name, price, createAt, image, category := None, None, None, None, None, None;
    }

    /** setImage: replaces the image and nothing else. */
    method SetImage(image: Option<seq<byte>>)
      modifies this
      ensures Value() == old(Value()).(image := image)
    {
      this.image := image;
    }
  }

  /** The value of an ImageProductDTO at one moment: its product (if any) and the Base64 text (if any). */
  datatype DtoValue = DtoValue(product: Option<ProductValue>, imageProduct: Option<string>)

  /**
   * The body of a create request. It holds a REFERENCE to its Product: whoever
   * changes that Product changes what the DTO carries.
   */
  class ImageProductDTO {
    var product: Product?
    var imageProduct: Option<string>

    function Value(): DtoValue
      reads this, product
    {
      DtoValue(if product == null then None else Some(product.Value()), imageProduct)
    }

    /** The all-arguments constructor. */
    constructor (product: Product?, imageProduct: Option<string>)
      ensures this.product == product && this.imageProduct == imageProduct
    {
      this.product := product;
      this.imageProduct := imageProduct;
    }
  }
}
