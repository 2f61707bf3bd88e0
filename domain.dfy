/** The records of the storefront's order back end: products, request items, orders, users
    and the correlation metadata attached to a checkout session. */
module Domain {

  datatype Option<T> = None | Some(value: T)

  datatype Result<T, E> = Ok(value: T) | Err(error: E)

  type ProductId = string
  type UserId = string
  type AddressId = string

  /** A document id of the order collection. Rendering it as text and casting text back to
      an id is modelled in module ObjectIds. */
  type OrderId = nat

  /** One line of an order request, as the client sends it. The quantity is never
      validated by the handlers, so it is an unrestricted integer. */
  datatype Item = Item(product: ProductId, quantity: int)

  /** A catalogue entry; the offer price is in whole currency units. */
  datatype Product = Product(name: string, offerPrice: nat)

  type Catalogue = map<ProductId, Product>

  datatype PaymentType = COD | Online

  /** A stored order. Its id is the key under which the store holds it. */
  datatype Order = Order(
    userId: UserId,
    items: seq<Item>,
    amount: int,
    address: AddressId,
    paymentType: PaymentType,
    isPaid: bool,
    createdAt: int)

  /** A user profile: the name stands for every field the order handlers never touch. */
  datatype User = User(name: string, cartItems: map<ProductId, int>)

  /** The {orderId, userId} pair attached to a checkout session. Either key may be absent. */
  datatype Metadata = Metadata(orderId: Option<string>, userId: Option<string>)

  /** `metadata || {}`: no metadata reads as metadata with neither key. */
  function MetadataOrEmpty(m: Option<Metadata>): Metadata {
    if m.Some? then m.value else Metadata(None, None)
  }

  /** JavaScript truthiness of an optional string: present and not empty. */
  predicate Truthy(s: Option<string>) {
    s.Some? && s.value != ""
  }
}
