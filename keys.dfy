/** The keyboard keys the page's handlers distinguish (`KeyboardEvent.key`). */
module Keys {
  datatype Key = Escape | ArrowLeft | ArrowRight | Enter | Space | OtherKey
}
