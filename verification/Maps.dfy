/** Hash maps are iterated in an order that the program does not choose. */
module Maps {
  /** `order` is one of the orders in which `m` may be iterated. */
  predicate Enumerates<V>(order: seq<string>, m: map<string, V>) {
    && (forall k | k in order :: k in m)
    && (forall k | k in m :: k in order)
    && (forall i, j | 0 <= i < j < |order| :: order[i] != order[j])
  }
}
