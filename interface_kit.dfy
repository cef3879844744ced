/** Values of the windowing toolkit that more than one part of the model uses. */
module InterfaceKit {

  /** `rgb_color`: red, green, blue and alpha channels, each 0..255. */
  datatype RgbColor = RgbColor(red: int, green: int, blue: int, alpha: int)
}
