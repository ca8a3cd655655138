/**
 * The enumerations of the hardware interface that the controller is written
 * against. The interface header itself is not part of this model; only the
 * values the core distinguishes are kept.
 */
module Hardware {

  /** A call registered by a button: a hall call up or down, or a cabin call. */
  datatype Order = OrderUp | OrderInside | OrderDown

  /** A motor command; the controller also uses it as its travel direction. */
  datatype Movement = MoveUp | MoveStop | MoveDown

  /**
   * The call types in the order the button poll visits them, from the first
   * enumerator (up) to the last (down), the cabin call lying between them.
   */
  const OrderTypes: seq<Order> := [OrderUp, OrderInside, OrderDown]
}
