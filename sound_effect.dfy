/**
 * The sound-effect crate's shared pieces: the collection of packets by
 * path, and the spatial request component.
 */
module SoundEffect {
  import opened Wrappers
  import opened Sfx
  import opened Asset

  /** Every packet of the sound directory, by path. */
  datatype SoundEffectPacketAssetCollection = SoundEffectPacketAssetCollection(packets: map<string, PacketHandle>)
  {
    /** The handle of the packet at `name`; a lookup that changes nothing. */
    function Get(name: string): (r: Option<PacketHandle>)
      ensures r.Some? <==> name in packets
      ensures r.Some? ==> r.value == packets[name]
    {
      if name in packets then Some(packets[name]) else None
    }
  }

  /** A request to play an effect at the entity's position. */
  datatype SpatialSoundEffect = SpatialSoundEffect(packet: PacketHandle, id: SfxId)

  function NewSpatialSoundEffect(packet: PacketHandle, id: SfxId): (s: SpatialSoundEffect)
    ensures s.packet == packet && s.id == id
  {
    SpatialSoundEffect(packet, id)
  }
}
