/** What both ends of a Remote Control session call the same: mouse buttons and modifier keys. */
module InputDevices {
  datatype MouseButton = Left | Middle | Right

  datatype Modifier = Shift | Ctrl | Alt | Meta
}
