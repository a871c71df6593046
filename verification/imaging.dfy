/** Raster images as the services handle them. Pixel data is abstract: a
    decoded image is its size, its PIL mode and an uninterpreted content
    payload; a composed image is a canvas with another image pasted on it. */
module Imaging {

  datatype Image =
    | Raster(width: nat, height: nat, mode: string, content: seq<int>)
    | Canvas(width: nat, height: nat, mode: string, pasted: Image, x: int, y: int)

  /** The PIL modes that carry transparency or a palette and are turned into
      RGB before JPEG encoding. */
  predicate NeedsRgbConversion(img: Image) {
    img.mode == "RGBA" || img.mode == "LA" || img.mode == "P"
  }
}
