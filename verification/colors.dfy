/** The colour side of the light fixture: one 0..255 intensity per channel,
    and the fixed seven-entry palette the colour-array animation shows. */
module Colors {

  /** An `unsigned char` channel intensity. */
  type Byte = x: int | 0 <= x < 256

  /** Channel numbers, as the sketch defines them. */
  const RED: int := 0
  const GREEN: int := 1
  const BLUE: int := 2

  /** The `COLORS` triple. Storing through `setColors` is modelled by building
      an `Rgb`: with a minimum brightness of 0 the brightness mapping is the
      identity on 0..255. */
  datatype Rgb = Rgb(red: Byte, green: Byte, blue: Byte)
  {
    /** The intensity of channel `c` (RED, GREEN or BLUE). */
    function Channel(c: int): Byte
      requires 0 <= c < 3
    {
      if c == RED then red else if c == GREEN then green else blue
    }
  }

  const Black := Rgb(0, 0, 0)
  const White := Rgb(255, 255, 255)

  /** Number of palette entries. */
  const PaletteSize: int := 7

  /** white, red, green, blue, yellow, cyan, purple */
  const Palette: seq<Rgb> := [
    Rgb(255, 255, 255),
    Rgb(255, 0, 0),
    Rgb(0, 255, 0),
    Rgb(0, 0, 255),
    Rgb(255, 255, 0),
    Rgb(0, 255, 255),
    Rgb(255, 0, 255)
  ]

  /** Every palette entry is a different colour, so a change of palette index
      is always a visible change of colour. */
  lemma PaletteDistinct()
    ensures |Palette| == PaletteSize
    ensures forall i, j :: 0 <= i < j < |Palette| ==> Palette[i] != Palette[j]
  {
  }
}
