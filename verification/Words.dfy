/** The machine integers the source counts with. */
module Words {
  const TWO_64 := 0x1_0000_0000_0000_0000
  const MAX_INT64 := 0x7fff_ffff_ffff_ffff
}
