/** The values the parameter panel supplies, with the slider ranges and the
    defaults the panel opens with. */
module Panel {

  const MinMembers: nat := 0
  const MaxMembers: nat := 200
  const DefaultMembers: nat := 10

  const MinStray: real := 0.0
  const MaxStray: real := 100.0
  const DefaultStray: real := 10.0

  const MinOffset: real := 0.0
  const MaxOffset: real := 10.0
  const DefaultOffset: real := 1.0

  const MinFocus: real := 0.0
  const MaxFocus: real := 1.0
  const DefaultFocus: real := 0.5

  const MinRandomness: real := 0.0
  const MaxRandomness: real := 1.0
  const DefaultRandomness: real := 0.5

  /** One reading of the panel: herd size, stray, leader focus, frame offset
      and randomness. */
  datatype Settings = Settings(population: nat, stray: real, focus: real, offset: real, randomness: real)

  /** Every value lies within its slider's range. */
  predicate InRange(u: Settings) {
    && MinMembers <= u.population <= MaxMembers
    && MinStray <= u.stray <= MaxStray
    && MinFocus <= u.focus <= MaxFocus
    && MinOffset <= u.offset <= MaxOffset
    && MinRandomness <= u.randomness <= MaxRandomness
  }

  const Defaults: Settings := Settings(DefaultMembers, DefaultStray, DefaultFocus, DefaultOffset, DefaultRandomness)
}
