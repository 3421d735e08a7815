/** `RawRgbaImage`: RGBA bytes with the image's extent. */
module RawImage {
  import opened Base

  datatype RawRgbaImage = RawRgbaImage(data: seq<Byte>, width: U32, height: U32)

  /** `new`: the bytes and the extent exactly as given. */
  function New(data: seq<Byte>, width: U32, height: U32): (img: RawRgbaImage)
    ensures Data(img) == data && Width(img) == width && Height(img) == height
  {
    RawRgbaImage(data, width, height)
  }

  /** `data`. */
  function Data(img: RawRgbaImage): (d: seq<Byte>)
    ensures d == img.data
  {
    img.data
  }

  /** `width`. */
  function Width(img: RawRgbaImage): (w: U32)
    ensures w == img.width
  {
    img.width
  }

  /** `height`. */
  function Height(img: RawRgbaImage): (h: U32)
    ensures h == img.height
  {
    img.height
  }

  /** `destruct`: the image taken apart again, in construction order. */
  function Destruct(img: RawRgbaImage): (parts: (seq<Byte>, U32, U32))
    ensures parts == (Data(img), Width(img), Height(img))
  {
    (img.data, img.width, img.height)
  }

  /** Taking apart what `new` built gives back its arguments, and building from the parts of
      an image gives back that image. */
  lemma DestructRoundTrip(data: seq<Byte>, width: U32, height: U32, img: RawRgbaImage)
    ensures Destruct(New(data, width, height)) == (data, width, height)
    ensures var (d, w, h) := Destruct(img); New(d, w, h) == img
  {
  }
}
