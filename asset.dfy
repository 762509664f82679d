/**
 * A loaded sound-effect packet: the decoded packet together with the map
 * from (remapped) sample file stems to the sample assets the loader
 * requested, the lookups the playback code makes into it, and the loader
 * that builds that map.
 */
module Asset {
  import opened Wrappers
  import opened Sfx

  /** The stem some packets use as a placeholder; no such sample file exists. */
  const NullStem := "!Null"
  /** The silent spacer sample that stands in for the placeholder. */
  const NullReplacement := "null250"

  /**
   * The file a sample is loaded from: `directory` joined with `stem`, with
   * the extension `wav`.  How the host renders the path as a string is not
   * modelled.
   */
  datatype SamplePath = SamplePath(directory: string, stem: string)

  /** What the host asset server hands back for a requested sample file. */
  datatype SampleHandle = SampleHandle(path: SamplePath)

  /** The key under which a sound's sample is stored and looked up. */
  function SampleKey(fileStem: string): (k: string)
    ensures k != NullStem
    ensures fileStem == NullStem ==> k == NullReplacement
    ensures fileStem != NullStem ==> k == fileStem
  {
    if fileStem == NullStem then NullReplacement else fileStem
  }

  /**
   * The host's handle to a packet asset (`PacketAssetHandle` wraps one).  It
   * is an opaque id; the host's asset storage maps it to the loaded asset.
   */
  datatype PacketHandle = PacketHandle(id: nat)

  datatype PacketAsset = PacketAsset(source: Packet, audioSamples: map<string, SampleHandle>)
  {
    function DisplayName(): (name: string)
      ensures name == source.name
    {
      source.name
    }

    /** The effect stored under `sfxId`, if any. */
    function SoundEffect(sfxId: SfxId): (r: Option<Sfx>)
      ensures r.Some? <==> sfxId in source.sfxs
      ensures r.Some? ==> r.value == source.sfxs[sfxId]
    {
      if sfxId in source.sfxs then Some(source.sfxs[sfxId]) else None
    }

    /** The effect's sound at `soundIndex`, if the index is in range. */
    function SoundEffectSound(soundEffect: Sfx, soundIndex: nat): (r: Option<Sound>)
      ensures r.Some? <==> soundIndex < |soundEffect.sounds|
      ensures r.Some? ==> r.value == soundEffect.sounds[soundIndex]
    {
      if soundIndex < |soundEffect.sounds| then Some(soundEffect.sounds[soundIndex]) else None
    }

    /** The sample for a sound, looked up under its remapped stem. */
    function AudioSampleHandle(sound: Sound): (r: Option<SampleHandle>)
      ensures r.Some? <==> SampleKey(sound.fileStem) in audioSamples
      ensures r.Some? ==> r.value == audioSamples[SampleKey(sound.fileStem)]
    {
      var key := SampleKey(sound.fileStem);
      if key in audioSamples then Some(audioSamples[key]) else None
    }
  }

  /** The remapped stems of every sound of the effects stored under `ids`. */
  function StemsOf(packet: Packet, ids: set<SfxId>): set<string>
  {
    set id, s | id in ids && id in packet.sfxs && s in packet.sfxs[id].sounds :: SampleKey(s.fileStem)
  }

  /** The remapped stems of every sound of every effect of the packet. */
  function RemappedStems(packet: Packet): set<string>
  {
    StemsOf(packet, packet.sfxs.Keys)
  }

  /** The sample map a loaded packet holds: one sample per remapped stem, from `directory`. */
  function LoadedSamples(packet: Packet, directory: string): map<string, SampleHandle>
  {
    map stem | stem in RemappedStems(packet) :: SampleHandle(SamplePath(directory, stem))
  }

  /** The loader's default sample directory, from the host's asset paths. */
  datatype PacketAssetLoader = PacketAssetLoader(assetSoundPath: string)

  /** Per-load settings; an empty `soundPath` means "use the loader's default". */
  datatype PacketAssetLoaderSettings = PacketAssetLoaderSettings(soundPath: string)

  /** The directory samples are loaded from. */
  function SoundDirectory(loader: PacketAssetLoader, settings: PacketAssetLoaderSettings): (dir: string)
    ensures settings.soundPath != "" ==> dir == settings.soundPath
    ensures settings.soundPath == "" ==> dir == loader.assetSoundPath
  {
    if settings.soundPath == "" then loader.assetSoundPath else settings.soundPath
  }

  /**
   * Builds the packet asset from an already decoded packet: collects the
   * remapped stem of every sound of every effect (in whatever order the
   * effect map yields them), then requests one sample per stem.
   */
  method Load(loader: PacketAssetLoader, packet: Packet, settings: PacketAssetLoaderSettings)
    returns (asset: PacketAsset)
    ensures asset.source == packet
    ensures asset.audioSamples == LoadedSamples(packet, SoundDirectory(loader, settings))
  {
    var soundPath := SoundDirectory(loader, settings);

    var fileNames: seq<string> := [];
    var pending := packet.sfxs.Keys;
    while pending != {}
      invariant pending <= packet.sfxs.Keys
      invariant forall n :: n in fileNames <==> n in StemsOf(packet, packet.sfxs.Keys - pending)
      decreases pending
    {
      var id :| id in pending;
      var sounds := packet.sfxs[id].sounds;
      ghost var done := packet.sfxs.Keys - pending;
      for i := 0 to |sounds|
        invariant forall n :: n in fileNames <==> n in StemsOf(packet, done) || n in SoundKeys(sounds[..i])
      {
        assert sounds[..i + 1] == sounds[..i] + [sounds[i]];
        fileNames := fileNames + [SampleKey(sounds[i].fileStem)];
      }
      assert sounds[..|sounds|] == sounds;
      StemsOfAdd(packet, done, id);
      pending := pending - {id};
    }

    var audioSamples: map<string, SampleHandle> := map[];
    for j := 0 to |fileNames|
      invariant forall n :: n in audioSamples <==> n in fileNames[..j]
      invariant forall n :: n in audioSamples ==> audioSamples[n] == SampleHandle(SamplePath(soundPath, n))
    {
      assert fileNames[..j + 1] == fileNames[..j] + [fileNames[j]];
      audioSamples := audioSamples[fileNames[j] := SampleHandle(SamplePath(soundPath, fileNames[j]))];
    }
    assert fileNames[..|fileNames|] == fileNames;
    asset := PacketAsset(packet, audioSamples);
  }

  /** The remapped stems of a list of sounds. */
  function SoundKeys(sounds: seq<Sound>): set<string>
  {
    set s | s in sounds :: SampleKey(s.fileStem)
  }

  lemma StemsOfAdd(packet: Packet, ids: set<SfxId>, id: SfxId)
    requires id in packet.sfxs
    ensures StemsOf(packet, ids + {id}) == StemsOf(packet, ids) + SoundKeys(packet.sfxs[id].sounds)
  {
  }

  /** After loading, every sound of every effect of the packet has its sample. */
  lemma LoadedPacketResolvesEverySound(asset: PacketAsset, directory: string, sfxId: SfxId, soundIndex: nat)
    requires asset.audioSamples == LoadedSamples(asset.source, directory)
    requires sfxId in asset.source.sfxs && soundIndex < |asset.source.sfxs[sfxId].sounds|
    ensures var sound := asset.source.sfxs[sfxId].sounds[soundIndex];
      asset.AudioSampleHandle(sound) == Some(SampleHandle(SamplePath(directory, SampleKey(sound.fileStem))))
  {
    var sound := asset.source.sfxs[sfxId].sounds[soundIndex];
    assert SampleKey(sound.fileStem) in StemsOf(asset.source, asset.source.sfxs.Keys);
  }

  /** The placeholder stem itself is never a key of a loaded sample map. */
  lemma PlaceholderNeverLoaded(packet: Packet, directory: string)
    ensures NullStem !in LoadedSamples(packet, directory)
  {
  }

  /** The sample map's keys are exactly the remapped stems, so a placeholder sound loads `null250`. */
  lemma PlaceholderLoadsReplacement(packet: Packet, directory: string, sfxId: SfxId, soundIndex: nat)
    requires sfxId in packet.sfxs && soundIndex < |packet.sfxs[sfxId].sounds|
    requires packet.sfxs[sfxId].sounds[soundIndex].fileStem == NullStem
    ensures LoadedSamples(packet, directory)[NullReplacement] == SampleHandle(SamplePath(directory, NullReplacement))
  {
    assert NullReplacement == SampleKey(packet.sfxs[sfxId].sounds[soundIndex].fileStem);
    assert NullReplacement in StemsOf(packet, packet.sfxs.Keys);
  }
}
