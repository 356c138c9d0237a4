/** The capability interfaces the registry consumes: a loadable resource (a request tagged with
    its kind's category), a loader of the newer API generation and a handler of the older one.
    Loaders and handlers are objects in the source; here each is identified by `id` (object
    identity) and carries the categories its type declares. What a loader's `load` returns is not
    visible, so every operation that dispatches to one takes that behaviour as a parameter. */
module Contracts {
  import opened Categories

  /** A request value. `category` is the static category of the request's type; `name` stands for
      the instance data a concrete resource carries (a file name, a URL). */
  datatype Resource = Resource(category: Category, name: string)

  /** A `ResourceLoader` object: its identity and `Loader.categories`. */
  datatype Loader = Loader(id: nat, categories: set<Category>)

  /** A `ResourceHandleable` object: its identity and `Handler.handlerCategorys`. */
  datatype Handler = Handler(id: nat, handlerCategorys: set<Category>)
}
