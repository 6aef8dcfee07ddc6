/** The client-side shapes of app/types.ts that the storefront logic passes around. */
module Types {
  import opened Common

  /** Media type on the client: the lower-case `'image' | 'video'`. */
  datatype MediaType = Image | Video

  datatype Media = Media(id: Option<string>, url: string, kind: MediaType, thumbnailUrl: Option<string>)

  /** What the dish card and the dish page know about a dish; `stores` holds
      the ids of the stores that have it. */
  datatype DishAvailability = DishAvailability(inStock: bool, stores: seq<string>)

  datatype Dish = Dish(
    id: string,
    name: string,
    description: string,
    weight: int,
    media: seq<Media>,
    fishId: string,
    inStock: bool,
    availability: DishAvailability)

  /** One line of the cart: a dish, identified by its id, and how many of it. */
  datatype CartItem = CartItem(id: string, name: string, weight: int, quantity: int)
}
