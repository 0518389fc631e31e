/** Read-only catalog records of the storefront: what the menu endpoint and the
    venue endpoint deliver and what the handlers receive as arguments. */
module Catalog {

  datatype Option<+T> = None | Some(value: T)

  /** Outcome of one fetch: the parsed payload, or a failure (non-2xx status,
      transport error or bad JSON), after which the state keeps its old value. */
  datatype FetchResult<+T> = Fetched(value: T) | Failed

  /** An image reference; the storefront only reads its `image` URL. */
  datatype Image = Image(image: string)

  /** One choice inside a modifier group; its price replaces the item's price. */
  datatype Modifier = Modifier(id: int, name: string, price: int)

  /** A single-choice set of modifiers shown as one radio group. */
  datatype ModifierGroup = ModifierGroup(id: int, name: string, items: seq<Modifier>)

  /** A menu item. `images` and `modifiers` are optional in the menu payload. */
  datatype Item = Item(
    id: int,
    name: string,
    description: string,
    price: int,
    images: Option<seq<Image>>,
    modifiers: Option<seq<ModifierGroup>>)

  /** A menu section (one accordion panel). */
  datatype Topic = Topic(id: int, name: string, images: seq<Image>, items: seq<Item>)
}
