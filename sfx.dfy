/**
 * The decoded shape of a sound-effect packet, as the external packet decoder
 * produces it: a named map of effects, each an effect type and a list of
 * candidate sounds.  The decoder itself is not part of this model.
 */
module Sfx {
  import opened Wrappers

  /** An unsigned 8-bit integer. */
  type u8 = x: int | 0 <= x < 256

  /** Identifies an effect within its packet. */
  type SfxId = u8

  /** Only random-looping effects are played; every other kind is unsupported. */
  datatype SfxType = RandomLooping | OtherType(discriminant: nat)

  /**
   * One candidate sample.  `linearVolume` is the value the decoder's
   * `linear_volume()` yields; the playback-rate jitter parameters are only
   * read by the foreign rate function and are not modelled.
   */
  datatype Sound = Sound(fileStem: string, looped: bool, linearVolume: real)

  datatype Sfx = Sfx(id: SfxId, typ: SfxType, sounds: seq<Sound>)

  datatype Packet = Packet(name: string, sfxs: map<SfxId, Sfx>)

  /**
   * The random choice of a sound.  The random generator is an oracle: `draw`
   * is the raw value it yields, reduced to an index of the list.
   */
  function RandomSound(sfx: Sfx, draw: nat): (r: Option<Sound>)
    ensures r.None? <==> |sfx.sounds| == 0
    ensures r.Some? ==> r.value in sfx.sounds
  {
    if |sfx.sounds| == 0 then None else Some(sfx.sounds[draw % |sfx.sounds|])
  }
}
