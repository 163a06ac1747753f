/** The value types of the swipe session: dishes and the group whose preferences are collected. */
module Models {

  /** A `UUID`; only its identity (equality) matters, so it is modelled by a number. */
  type Uuid = nat

  /** A candidate dish. `votes` is stored but never read or updated. */
  datatype Dish = Dish(
    id: Uuid,
    name: string,
    description: string,
    price: real,
    imageName: string,
    restaurantId: Uuid,
    dietaryTags: seq<string>,
    votes: int)

  /** The group value; the controller replaces it with updated copies. */
  datatype Group = Group(
    id: Uuid,
    name: string,
    members: seq<string>,
    locationRadius: real,
    dietaryFilters: seq<string>,
    vibeFilters: seq<string>)

  /** Every dish in the catalog gets a fresh `UUID()`, so ids are pairwise distinct. */
  predicate UniqueIds(deck: seq<Dish>) {
    forall i, j :: 0 <= i < j < |deck| ==> deck[i].id != deck[j].id
  }

  datatype Option<T> = None | Some(value: T)
}
