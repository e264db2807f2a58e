/** The catalog record: one AI service listing. */
module Catalog {
  import opened Wrappers

  /**
   * A listing. `active` is optional: an absent value counts as active, only an
   * explicit `false` withdraws the listing.
   */
  datatype Service = Service(
    id: int,
    name: string,
    description: string,
    url: string,
    categories: seq<string>,
    active: Option<bool>,
    fullDescription: string)
}
