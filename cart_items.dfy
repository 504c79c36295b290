/** The line item the cart store hands to the Cart and Payment pages. */
module CartItems {
  import opened Wrappers

  /**
   * One cart line. `price` is the display string copied from the catalogue
   * (for example "₹2,999"); `quantity` is whatever the store holds.
   */
  datatype CartItem = CartItem(
    id: int,
    name: string,
    brand: string,
    category: string,
    price: string,
    originalPrice: Option<string>,
    quantity: int,
    image: Option<string>)
}
