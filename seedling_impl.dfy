/**
 * The random-looping playback controller.  A request entity (a
 * `SoundEffectPlayer` keyed by a `SoundEffectKey`, or a `SpatialSoundEffect`)
 * is resolved to an effect; one sound is chosen and played by a marker child
 * entity whose player removes itself when the sample ends.  That removal
 * resolves the effect again and replaces the finished child with a new one,
 * which keeps the effect playing.
 *
 * The entity world is a map from entity ids to their components; commands
 * take effect when a handler returns.  The host's read-only resources (the
 * packet collection, the loaded packets, the mixer configuration, and the
 * linear-to-decibel conversion) are a value the handlers consult, and the
 * shared random generator is an oracle passed to each handler.
 */
module SeedlingImpl {
  import opened Wrappers
  import opened Sfx
  import opened SoundEffects
  import opened Asset
  import opened SoundEffect
  import opened Mixer
  import opened SoundExtension

  type Entity = nat

  /** The components of one entity that the controller reads or writes. */
  datatype Components = Components(
    player: Option<SoundEffectKey>,            // SoundEffectPlayer: a request by key
    spatial: Option<SpatialSoundEffect>,       // SpatialSoundEffect: a positioned request
    packetHandle: Option<PacketHandle>,        // PacketAssetHandle
    soundEffectId: Option<SfxId>,              // SoundEffectId
    randomLooping: bool,                       // RandomLoopingSoundEffect
    marker: bool,                              // RandomLoopingSoundPlayerMarker
    childOf: Option<Entity>,                   // ChildOf
    samplePlayer: Option<SamplePlayer>,
    playbackSettings: Option<PlaybackSettings>,
    spatialNode: bool)                         // a spatial effect node and a Transform

  /** The resources the handlers read and never write. */
  datatype Resources = Resources(
    packets: SoundEffectPacketAssetCollection,
    packetAssets: map<PacketHandle, PacketAsset>,
    soundConfig: Volumes,
    toDecibels: real -> real)

  /**
   * What the shared random generator yields during one handler run: the raw
   * value that picks a sound, and the jittered playback rate.
   */
  datatype Draws = Draws(sound: nat, playbackRate: real)

  /** Why a handler stopped without playing anything; each is logged, none is fatal. */
  datatype Failure =
    | RequestMissing     // the event's entity does not hold the request component
    | PacketMissing      // no packet under the key's path
    | PacketNotLoaded    // the packet asset is not loaded
    | EffectMissing      // no effect under the id
    | NoSounds           // the effect has no sounds
    | SampleMissing      // no sample for the chosen sound
    | NotLoopingChild    // the entity is not a marker child
    | ParentNotLooping   // its parent is gone or not a random-looping request

  /** A handler's outcome; `Panicked` stands for the abort on an unsupported effect type. */
  datatype Status = Spawned(child: Entity) | Aborted(failure: Failure) | Panicked

  /** Everything needed to spawn a player child. */
  datatype SoundPlayerData = SoundPlayerData(samplePlayer: SamplePlayer, playbackSettings: PlaybackSettings)

  datatype World = World(entities: map<Entity, Components>, next: Entity)

  /**
   * Fresh entities are allocated from `next`: no entity or parent reference
   * is at or past it.  No entity is its own parent.
   */
  ghost predicate WellFormed(w: World)
  {
    forall e :: e in w.entities ==>
      && e < w.next
      && (w.entities[e].childOf.Some? ==> w.entities[e].childOf.value < w.next && w.entities[e].childOf.value != e)
  }

  /**
   * The live players of `parent`: its marker children that still hold a
   * sample player.  A finished child loses its `SamplePlayer` and is no
   * longer one of them, even while the entity stays.
   */
  function LivePlayers(entities: map<Entity, Components>, parent: Entity): set<Entity>
  {
    set c | c in entities && entities[c].marker && entities[c].childOf == Some(parent) && entities[c].samplePlayer.Some?
  }

  /** Every random-looping request has at most one live player. */
  ghost predicate AtMostOnePlayerEach(w: World)
  {
    forall p :: p in w.entities && w.entities[p].randomLooping ==> |LivePlayers(w.entities, p)| <= 1
  }

  /**
   * The player and settings for `sound` from `packet`, or nothing when the
   * packet has no sample for it.
   */
  function LoadSound(res: Resources, draws: Draws, packet: PacketAsset, sound: Sound): (r: Option<SoundPlayerData>)
    ensures r.Some? <==> packet.AudioSampleHandle(sound).Some?
    ensures r.Some? ==> r.value.samplePlayer.sample == packet.AudioSampleHandle(sound).value
    ensures r.Some? ==> r.value.samplePlayer.volume == res.soundConfig.SoundEffectVolume(res.toDecibels(sound.linearVolume))
    ensures r.Some? ==> (r.value.samplePlayer.repeatMode == RepeatEndlessly <==> sound.looped)
    ensures r.Some? ==> r.value.playbackSettings.speed == draws.playbackRate
  {
    match packet.AudioSampleHandle(sound)
    case None => None
    case Some(source) =>
      var (samplePlayer, playbackSettings) :=
        AudioSampleSettings(sound, res.soundConfig, res.toDecibels, draws.playbackRate, source);
      Some(SoundPlayerData(samplePlayer, playbackSettings))
  }

  /** The effect `sfxId` of the packet behind `handle`. */
  function ResolveHandle(res: Resources, handle: PacketHandle, sfxId: SfxId): (r: Result<Sfx, Failure>)
    ensures r.Success? <==> handle in res.packetAssets && sfxId in res.packetAssets[handle].source.sfxs
    ensures r.Success? ==> r.value == res.packetAssets[handle].source.sfxs[sfxId]
    ensures r.Failure? ==> r.error == (if handle in res.packetAssets then EffectMissing else PacketNotLoaded)
  {
    if handle !in res.packetAssets then Failure(PacketNotLoaded)
    else match res.packetAssets[handle].SoundEffect(sfxId)
      case None => Failure(EffectMissing)
      case Some(sfx) => Success(sfx)
  }

  /**
   * `data` plays the sound the draw picks from `sfx`: that sound's sample from
   * `packet`, at the sound-effect volume mixed with the sound's own, repeating
   * exactly when the sound loops, at the drawn rate, and removing itself when
   * the sample ends.
   */
  predicate IsChosenPlayer(res: Resources, draws: Draws, packet: PacketAsset, sfx: Sfx, data: SoundPlayerData)
  {
    && RandomSound(sfx, draws.sound).Some?
    && var s := RandomSound(sfx, draws.sound).value;
       && packet.AudioSampleHandle(s).Some?
       && data.samplePlayer == SamplePlayer(packet.AudioSampleHandle(s).value,
                                            res.soundConfig.global + res.soundConfig.soundEffect + res.toDecibels(s.linearVolume),
                                            if s.looped then RepeatEndlessly else PlayOnce)
       && data.playbackSettings == PlaybackSettings(draws.playbackRate, Remove)
  }

  /**
   * Chooses a sound and loads it, with the player set to remove itself when
   * the sample ends.
   */
  function SelectPlayer(res: Resources, draws: Draws, packet: PacketAsset, sfx: Sfx): (r: Result<SoundPlayerData, Failure>)
    ensures |sfx.sounds| == 0 ==> r == Failure(NoSounds)
    ensures r.Failure? ==> r.error in {NoSounds, SampleMissing}
    ensures |sfx.sounds| > 0 && r.Failure? ==> r.error == SampleMissing
    ensures r.Success? ==> r.value.playbackSettings.onComplete == Remove
    ensures r.Success? <==> exists s :: s in sfx.sounds && RandomSound(sfx, draws.sound) == Some(s) && packet.AudioSampleHandle(s).Some?
    ensures r.Success? ==> IsChosenPlayer(res, draws, packet, sfx, r.value)
  {
    match RandomSound(sfx, draws.sound)
    case None => Failure(NoSounds)
    case Some(sound) =>
      match LoadSound(res, draws, packet, sound)
      case None => Failure(SampleMissing)
      case Some(data) =>
        Success(data.(playbackSettings := data.playbackSettings.WithOnComplete(Remove)))
  }

  /** The components a request gains when it starts playing. */
  function Tagged(c: Components, handle: PacketHandle, sfxId: SfxId): Components
  {
    c.(packetHandle := Some(handle), soundEffectId := Some(sfxId), randomLooping := true)
  }

  /** A new player child of `parent`. */
  function MarkerChild(parent: Entity, data: SoundPlayerData, spatial: bool): Components
  {
    Components(None, None, None, None, false, true, Some(parent),
               Some(data.samplePlayer), Some(data.playbackSettings), spatial)
  }

  /** Starting a resolved random-looping effect on `e`. */
  function AfterPlay(w: World, res: Resources, draws: Draws, handle: PacketHandle, packet: PacketAsset,
                     sfx: Sfx, e: Entity, spatial: bool): (r: (World, Status))
    ensures r.1.Spawned? || r.1.Aborted?
    ensures r.1.Aborted? ==> r.0 == w
    ensures r.1.Spawned? ==> r.1.child == w.next && r.0.next == w.next + 1
  {
    match SelectPlayer(res, draws, packet, sfx)
    case Failure(f) => (w, Aborted(f))
    case Success(data) =>
      var tagged := if e in w.entities then w.entities[e := Tagged(w.entities[e], handle, sfx.id)] else w.entities;
      (World(tagged[w.next := MarkerChild(e, data, spatial)], w.next + 1), Spawned(w.next))
  }

  /** The handler for a `SoundEffectPlayer` added to `e`. */
  function AfterSoundEffectPlayerAdded(w: World, res: Resources, draws: Draws, e: Entity): (r: (World, Status))
    ensures e !in w.entities || w.entities[e].player.None? ==> r.1 == Aborted(RequestMissing)
    ensures !r.1.Spawned? ==> r.0 == w
    ensures r.1.Spawned? ==> && r.1.child == w.next && r.0.next == w.next + 1
                             && r.1.child in r.0.entities && !r.0.entities[r.1.child].spatialNode
  {
    if e !in w.entities || w.entities[e].player.None? then (w, Aborted(RequestMissing))
    else
      var key := w.entities[e].player.value;
      match res.packets.Get(key.PacketPath())
      case None => (w, Aborted(PacketMissing))
      case Some(handle) =>
        match ResolveHandle(res, handle, key.SoundEffectId())
        case Failure(f) => (w, Aborted(f))
        case Success(sfx) =>
          if !sfx.typ.RandomLooping? then (w, Panicked)
          else AfterPlay(w, res, draws, handle, res.packetAssets[handle], sfx, e, false)
  }

  /** The handler for a `SpatialSoundEffect` added to `e`. */
  function AfterSpatialSoundEffectAdded(w: World, res: Resources, draws: Draws, e: Entity): (r: (World, Status))
    ensures e !in w.entities || w.entities[e].spatial.None? ==> r.1 == Aborted(RequestMissing)
    ensures !r.1.Spawned? ==> r.0 == w
    ensures r.1.Spawned? ==> && r.1.child == w.next && r.0.next == w.next + 1
                             && r.1.child in r.0.entities && r.0.entities[r.1.child].spatialNode
  {
    if e !in w.entities || w.entities[e].spatial.None? then (w, Aborted(RequestMissing))
    else
      var request := w.entities[e].spatial.value;
      match ResolveHandle(res, request.packet, request.id)
      case Failure(f) => (w, Aborted(f))
      case Success(sfx) =>
        if !sfx.typ.RandomLooping? then (w, Panicked)
        else AfterPlay(w, res, draws, request.packet, res.packetAssets[request.packet], sfx, e, true)
  }

  /** Whether `e` is a marker child whose parent is a started random-looping request. */
  predicate IsLoopingChild(w: World, e: Entity)
  {
    && e in w.entities && w.entities[e].marker && w.entities[e].childOf.Some?
    && var p := w.entities[e].childOf.value;
       p in w.entities && w.entities[p].randomLooping
       && w.entities[p].packetHandle.Some? && w.entities[p].soundEffectId.Some?
  }

  /** The world once `e`'s sample player is gone: the completion that fires the removal handler. */
  function WithoutSamplePlayer(w: World, e: Entity): World
  {
    if e in w.entities then w.(entities := w.entities[e := w.entities[e].(samplePlayer := None)]) else w
  }

  /**
   * The removal of `e`'s sample player, and the handler that observes it.
   * The player is gone whatever the handler does; a handler that stops early
   * leaves the finished child without one.
   */
  function AfterSamplePlayerRemoved(w: World, res: Resources, draws: Draws, e: Entity): (r: (World, Status))
    ensures r.1.Spawned? || r.1.Aborted?
    ensures r.1.Aborted? ==> r.0.next == w.next
    ensures r.1.Spawned? ==> r.1.child == w.next && r.0.next == w.next + 1
  {
    var finished := WithoutSamplePlayer(w, e);
    if e !in w.entities || !w.entities[e].marker || w.entities[e].childOf.None? then (finished, Aborted(NotLoopingChild))
    else if !IsLoopingChild(w, e) then (finished, Aborted(ParentNotLooping))
    else
      var p := w.entities[e].childOf.value;
      var parent := w.entities[p];
      match ResolveHandle(res, parent.packetHandle.value, parent.soundEffectId.value)
      case Failure(f) => (finished, Aborted(f))
      case Success(sfx) =>
        match SelectPlayer(res, draws, res.packetAssets[parent.packetHandle.value], sfx)
        case Failure(f) => (finished, Aborted(f))
        case Success(data) =>
          (World((w.entities - {e})[w.next := MarkerChild(p, data, parent.spatial.Some?)], w.next + 1), Spawned(w.next))
  }

  /** The entity world and the resources, as the handlers see them. */
  class SoundEffectWorld {
    var entities: map<Entity, Components>
    var nextEntity: Entity
    var resources: Resources

    function State(): World
      reads this
    {
      World(entities, nextEntity)
    }

    ghost predicate Valid()
      reads this
    {
      WellFormed(State())
    }

    constructor (resources: Resources)
      ensures Valid() && State() == World(map[], 0) && this.resources == resources
    {
      entities := map[];
      nextEntity := 0;
      this.resources := resources;
    }

    /** Adds the components of a started request to `e`; nothing happens if `e` is gone. */
    method TryInsertTags(e: Entity, handle: PacketHandle, sfxId: SfxId)
      requires Valid()
      modifies this`entities
      ensures Valid()
      ensures entities == if e in old(entities) then old(entities)[e := Tagged(old(entities)[e], handle, sfxId)]
                          else old(entities)
    {
      if e in entities {
        entities := entities[e := Tagged(entities[e], handle, sfxId)];
      }
    }

    /** Spawns a new player child of `parent`. */
    method SpawnRandomLoopingSoundPlayerChild(parent: Entity, data: SoundPlayerData, spatial: bool)
      returns (child: Entity)
      requires Valid() && parent < nextEntity
      modifies this`entities, this`nextEntity
      ensures Valid()
      ensures child == old(nextEntity) && child !in old(entities) && nextEntity == child + 1
      ensures entities == old(entities)[child := MarkerChild(parent, data, spatial)]
    {
      child := nextEntity;
      entities := entities[child := MarkerChild(parent, data, spatial)];
      nextEntity := nextEntity + 1;
    }

    /** Spawns a request entity holding a `SoundEffectPlayer` for `key`. */
    method SpawnSoundEffectPlayer(key: SoundEffectKey) returns (e: Entity)
      requires Valid()
      modifies this`entities, this`nextEntity
      ensures Valid()
      ensures e == old(nextEntity) && e !in old(entities) && nextEntity == e + 1
      ensures entities == old(entities)[e := Components(Some(key), None, None, None, false, false, None, None, None, false)]
    {
      e := nextEntity;
      entities := entities[e := Components(Some(key), None, None, None, false, false, None, None, None, false)];
      nextEntity := nextEntity + 1;
    }

    /** Spawns a request entity holding a `SpatialSoundEffect`. */
    method SpawnSpatialSoundEffect(request: SpatialSoundEffect) returns (e: Entity)
      requires Valid()
      modifies this`entities, this`nextEntity
      ensures Valid()
      ensures e == old(nextEntity) && e !in old(entities) && nextEntity == e + 1
      ensures entities == old(entities)[e := Components(None, Some(request), None, None, false, false, None, None, None, false)]
    {
      e := nextEntity;
      entities := entities[e := Components(None, Some(request), None, None, false, false, None, None, None, false)];
      nextEntity := nextEntity + 1;
    }

    /** Drops `e`'s sample player, if `e` is there. */
    method RemoveSamplePlayer(e: Entity)
      requires Valid()
      modifies this`entities
      ensures Valid()
      ensures State() == WithoutSamplePlayer(old(State()), e)
    {
      if e in entities {
        entities := entities[e := entities[e].(samplePlayer := None)];
      }
    }

    /** Despawns `e`, if it is still there. */
    method TryDespawn(e: Entity)
      requires Valid()
      modifies this`entities
      ensures Valid()
      ensures entities == old(entities) - {e}
    {
      entities := entities - {e};
    }

    /** Plays a resolved random-looping effect on `e`: tags `e` and spawns one player child. */
    method PlayRandomLoopingSoundEffect(draws: Draws, handle: PacketHandle, packet: PacketAsset, sfx: Sfx,
                                        e: Entity, spatial: bool) returns (status: Status)
      requires Valid() && e < nextEntity
      modifies this`entities, this`nextEntity
      ensures Valid()
      ensures (State(), status) == AfterPlay(old(State()), resources, draws, handle, packet, sfx, e, spatial)
    {
      if |sfx.sounds| == 0 {
        return Aborted(NoSounds);
      }
      var sound := RandomSound(sfx, draws.sound);
      if sound.None? {
        return Aborted(NoSounds);
      }
      var data := LoadSound(resources, draws, packet, sound.value);
      if data.None? {
        return Aborted(SampleMissing);
      }
      var playbackSettings := data.value.playbackSettings.WithOnComplete(Remove);
      TryInsertTags(e, handle, sfx.id);
      var child := SpawnRandomLoopingSoundPlayerChild(e, data.value.(playbackSettings := playbackSettings), spatial);
      status := Spawned(child);
    }

    /** Reacts to a `SoundEffectPlayer` added to `e`. */
    method OnSoundEffectPlayerAdded(draws: Draws, e: Entity) returns (status: Status)
      requires Valid()
      modifies this`entities, this`nextEntity
      ensures Valid()
      ensures (State(), status) == AfterSoundEffectPlayerAdded(old(State()), resources, draws, e)
    {
      if e !in entities || entities[e].player.None? {
        return Aborted(RequestMissing);
      }
      var key := entities[e].player.value;
      var packetPath, soundEffectId := key.PacketPath(), key.SoundEffectId();
      var packetHandle := resources.packets.Get(packetPath);
      if packetHandle.None? {
        return Aborted(PacketMissing);
      }
      if packetHandle.value !in resources.packetAssets {
        return Aborted(PacketNotLoaded);
      }
      var packet := resources.packetAssets[packetHandle.value];
      var soundEffect := packet.SoundEffect(soundEffectId);
      if soundEffect.None? {
        return Aborted(EffectMissing);
      }
      if !soundEffect.value.typ.RandomLooping? {
        return Panicked;
      }
      status := PlayRandomLoopingSoundEffect(draws, packetHandle.value, packet, soundEffect.value, e, false);
    }

    /** Reacts to a `SpatialSoundEffect` added to `e`. */
    method OnSpatialSoundEffectAdded(draws: Draws, e: Entity) returns (status: Status)
      requires Valid()
      modifies this`entities, this`nextEntity
      ensures Valid()
      ensures (State(), status) == AfterSpatialSoundEffectAdded(old(State()), resources, draws, e)
    {
      if e !in entities || entities[e].spatial.None? {
        return Aborted(RequestMissing);
      }
      var request := entities[e].spatial.value;
      var packetHandle := request.packet;
      if packetHandle !in resources.packetAssets {
        return Aborted(PacketNotLoaded);
      }
      var packet := resources.packetAssets[packetHandle];
      var soundEffect := packet.SoundEffect(request.id);
      if soundEffect.None? {
        return Aborted(EffectMissing);
      }
      if !soundEffect.value.typ.RandomLooping? {
        return Panicked;
      }
      status := PlayRandomLoopingSoundEffect(draws, packetHandle, packet, soundEffect.value, e, true);
    }

    /**
     * The removal of `e`'s sample player and the handler reacting to it: the
     * player is gone, and a finished player child is replaced.  The host drops
     * the component after its observers ran; the handler never reads it, so
     * dropping it first leaves the same world.
     */
    method OnRandomLoopingSoundPlayerRemoved(draws: Draws, e: Entity) returns (status: Status)
      requires Valid()
      modifies this`entities, this`nextEntity
      ensures Valid()
      ensures (State(), status) == AfterSamplePlayerRemoved(old(State()), resources, draws, e)
    {
      ghost var before := State();
      var finished := e in entities && entities[e].marker && entities[e].childOf.Some?;
      var parentEntity := if finished then entities[e].childOf.value else 0;
      RemoveSamplePlayer(e);
      if !finished {
        return Aborted(NotLoopingChild);
      }
      if parentEntity !in entities || !entities[parentEntity].randomLooping
         || entities[parentEntity].packetHandle.None? || entities[parentEntity].soundEffectId.None? {
        return Aborted(ParentNotLooping);
      }
      var packetHandle := entities[parentEntity].packetHandle.value;
      var soundEffectId := entities[parentEntity].soundEffectId.value;
      var isSpatial := entities[parentEntity].spatial.Some?;
      if packetHandle !in resources.packetAssets {
        return Aborted(PacketNotLoaded);
      }
      var packet := resources.packetAssets[packetHandle];
      var soundEffect := packet.SoundEffect(soundEffectId);
      if soundEffect.None? {
        return Aborted(EffectMissing);
      }
      var sound := RandomSound(soundEffect.value, draws.sound);
      if sound.None? {
        return Aborted(NoSounds);
      }
      var data := LoadSound(resources, draws, packet, sound.value);
      if data.None? {
        return Aborted(SampleMissing);
      }
      var playbackSettings := data.value.playbackSettings.WithOnComplete(Remove);
      TryDespawn(e);
      assert entities == before.entities - {e};
      var child := SpawnRandomLoopingSoundPlayerChild(parentEntity, data.value.(playbackSettings := playbackSettings), isSpatial);
      status := Spawned(child);
    }
  }
}
