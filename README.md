# Sound-effect playback core, modelled in Dafny

This project models the sound-effect playback core of the `sound_effect` and
`sound_config` crates, and proves properties about it. The core has five parts:

- **Key resolution** (`SoundEffects`). A closed table of named effects maps each
  `SoundEffectKey` to a packet path and an effect id. The `Custom` variant passes
  the caller's values through. `ButtonPressed` is the default key.
- **Packet store** (`Sfx`, `Asset`, `SoundEffect`). A loaded `PacketAsset` holds:
  - the decoded packet;
  - a map from sample file stems to sample handles.

  Its accessors look up an effect by id, a sound by index and a sample by stem.
  The placeholder stem `!Null` is remapped to `null250`. The loader builds the
  sample map from every sound of every effect, using the same remap, in a
  sample directory chosen from the per-load settings or the loader's default.
  The packet collection maps packet paths to packet handles.
- **Volume mixer** (`Mixer`). `SoundConfig` is a class. Its mute switch keeps the
  global volume it replaced in `originalGlobalVolumeDecibels`. Each category
  volume is global + category + base, in decibels. The methods are verified
  against value-level functions on `Volumes`, and the lemmas about the mute
  state machine are proved on those functions.
- **Playback parameters** (`SoundExtension`). `AudioSampleSettings` turns a chosen
  sound into a sample player and playback settings: the mixed volume, the
  looping flag and the speed.
- **Random-looping controller** (`SeedlingImpl`, `SeedlingLemmas`). The handlers
  are methods of the class `SoundEffectWorld`, which owns:
  - a map from entity ids to the components the controller uses;
  - the next fresh entity id.

  Request entities are spawned with `SpawnSoundEffectPlayer` or
  `SpawnSpatialSoundEffect`, which stand for the host spawning an entity
  with that component.

  There are three handlers:
  - a `SoundEffectPlayer` added (a request by key);
  - a `SpatialSoundEffect` added;
  - a marker child's `SamplePlayer` removed (its sample finished).

  A player child is created with `OnComplete::Remove`, so when its sample
  ends it loses its `SamplePlayer`, and that removal fires the third handler.
  The model applies the removal as part of that event. A request's live
  players are its marker children that still hold a `SamplePlayer`. When the
  handler stops early, the finished child stays without one, and the request
  has one live player fewer.

  Each method is proved equal to a pure transition function (`AfterPlay`,
  `AfterSoundEffectPlayerAdded`, `AfterSpatialSoundEffectAdded`,
  `AfterSamplePlayerRemoved`). The lemmas about the request lifecycle are
  proved on those functions:
  - why a request fails;
  - that a started request gets exactly one live player, which plays the sound the draw picks;
  - that a finished child is replaced by exactly one new live player of the same parent;
  - that a failed replacement leaves the request with one live player fewer;
  - that a removal keeps every request at one live player at most, and so does starting a request that has no live player yet;
  - that for a playable effect, any number of completions in a row leaves no gap.

  Nothing in the handlers keeps a request to one player. An entity that holds
  both a `SoundEffectPlayer` and a `SpatialSoundEffect` is started by both
  "added" handlers (`crates/sound_effect/src/bevy_seedling_impl.rs:58-60`).
  It ends with two live players (`SeedlingLemmas.BothRequestsStartTwoPlayers`).

Foreign computations are inputs:
- the shared random generator is a `Draws` value per handler run. It yields the raw draw that `Sfx.RandomSound` reduces to a sound index, and the jittered playback rate;
- the linear-to-decibel conversion is the `toDecibels` function in `Resources`;
- the audio library's silence level is the constant `Mixer.Silence` (-60 dB). No proof depends on its value.

Two behaviours of the code are worth knowing:

- `mute` (`crates/sound_config/src/lib.rs:50-53`) does not check whether the
  configuration is already muted. It overwrites the saved volume, so muting
  twice loses the volume saved first (`Mixer.MuteTwiceLosesVolume`).
- An unsupported effect type makes the two "added" handlers panic
  (`crates/sound_effect/src/bevy_seedling_impl.rs:176,437`). The model gives
  the status `Panicked` and leaves the world unchanged. The removal handler
  does not check the effect type at all, and neither does the model.

## Model

| member | source | states |
|---|---|---|
| SoundEffects.DefaultKey | crates/sound_effect/src/sound_effects.rs:19-23 | the default key resolves to the `INTAFACE.H` packet of the sound directory and effect id 0 |
| SoundEffects.CustomKey | crates/sound_effect/src/sound_effects.rs:26-44 | `custom(p, i)` resolves to exactly path `p` and id `i` |
| SoundEffects.SoundEffectKey.PacketPath | crates/sound_effect/src/sound_effects.rs:25-30 | a custom key resolves to its own packet path; every named key resolves to one of the ten packets of its table row (BATALL.H, BATGEN.H, BATUND.H, BATWARGH.H, CAVERN.H, FIREWORK.H, GLUE.H, INTAFACE.H, NIGHT.H, TWITTER.H in `DARKOMEN/SOUND/H/`) |
| SoundEffects.SoundEffectKey.SoundEffectId | crates/sound_effect/src/sound_effects.rs:32-37 | a custom key resolves to its own id; every named key resolves to the id of its table row, all of them at most 34 |
| SoundEffects.NamedKeyInvertsTable | crates/sound_effect/src/sound_effects.rs:49-95 | looking up a named key's (path, id) pair in the table gives back that key |
| SoundEffects.NamedKeysInjective | crates/sound_effect/src/sound_effects.rs:49-95 | no two named keys share a (path, id) pair |
| SoundEffects.NamedPacketPathPrefix | crates/sound_effect/src/sound_effects.rs:49-95 | every named key's packet path starts with `DARKOMEN/SOUND/H/` and is longer than it |
| SoundEffects.NamedPacketPathSuffix | crates/sound_effect/src/sound_effects.rs:49-95 | every named key's packet path ends with `.H` |
| Sfx.RandomSound | crates/sound_effect/src/bevy_seedling_impl.rs:227-230 | the random choice yields nothing exactly when the effect has no sounds, and otherwise one of the effect's sounds |
| SoundEffect.SoundEffectPacketAssetCollection.Get | crates/sound_effect/src/lib.rs:105-109 | a lookup succeeds exactly when the path is in the collection and then yields its handle; it changes nothing |
| SoundEffect.NewSpatialSoundEffect | crates/sound_effect/src/lib.rs:138-142 | the component stores the packet handle and effect id unchanged |
| Asset.SampleKey | crates/sound_effect/src/asset.rs:157-163 | the stem `!Null` maps to `null250` and every other stem to itself, so a key is never `!Null` |
| Asset.PacketAsset.DisplayName | crates/sound_effect/src/asset.rs:68-70 | the display name is the packet's name |
| Asset.PacketAsset.SoundEffect | crates/sound_effect/src/asset.rs:72-74 | yields the effect stored under the id exactly when the id is present |
| Asset.PacketAsset.SoundEffectSound | crates/sound_effect/src/asset.rs:76-78 | yields the sound at the index exactly when the index is in range |
| Asset.PacketAsset.AudioSampleHandle | crates/sound_effect/src/asset.rs:80-88 | looks up `null250` for the `!Null` stem and the stem itself otherwise; it succeeds exactly when that key is in the sample map |
| Asset.SoundDirectory | crates/sound_effect/src/asset.rs:139-143 | the settings' sound path, unless it is empty, in which case the loader's default |
| Asset.Load | crates/sound_effect/src/asset.rs:125-180 | the asset keeps the packet, and its sample map has exactly one entry per remapped stem of every sound of every effect, loaded from that stem in the chosen directory |
| Asset.LoadedPacketResolvesEverySound | crates/sound_effect/src/asset.rs:145-174 | after loading, the sample lookup of every sound of every effect succeeds, with the sample of its remapped stem |
| Asset.PlaceholderNeverLoaded | crates/sound_effect/src/asset.rs:157-174 | `!Null` is never a key of a loaded sample map |
| Asset.PlaceholderLoadsReplacement | crates/sound_effect/src/asset.rs:157-174 | a packet with a `!Null` sound gets the `null250` sample from the sound directory |
| Mixer.Volumes.MusicVolume | crates/sound_config/src/lib.rs:63-76 | music volume = global + music + base |
| Mixer.Volumes.EffectiveVolume | crates/sound_config/src/lib.rs:123-126 | a category volume is mixed by adding the global volume to it |
| Mixer.Volumes.SoundEffectVolume | crates/sound_config/src/lib.rs:78-91 | sound-effect volume = global + sound-effect + base |
| Mixer.Volumes.VoiceOverVolume | crates/sound_config/src/lib.rs:93-106 | voice-over volume = global + voice-over + base |
| Mixer.Volumes.DialogueVolume | crates/sound_config/src/lib.rs:108-126 | dialogue volume = global + dialogue + base |
| Mixer.Volumes.Muted | crates/sound_config/src/lib.rs:50-53 | muting saves the current global volume, whatever was saved before, sets the global volume to silence and keeps every category |
| Mixer.Volumes.Unmuted | crates/sound_config/src/lib.rs:55-61 | unmuting restores the saved global volume and clears the saved volume; with nothing saved it changes nothing; categories unchanged |
| Mixer.Volumes.ToggledMute | crates/sound_config/src/lib.rs:42-48 | a toggle flips the muted state and keeps every category |
| Mixer.SoundConfig.constructor | crates/sound_config/src/lib.rs:24-39 | the default configuration has every volume at 0 dB and nothing saved |
| Mixer.SoundConfig.ToggleMute | crates/sound_config/src/lib.rs:42-48 | unmutes when a volume is saved and mutes otherwise |
| Mixer.SoundConfig.Mute | crates/sound_config/src/lib.rs:50-53 | the new configuration is the muted value of the old one |
| Mixer.SoundConfig.Unmute | crates/sound_config/src/lib.rs:55-61 | the new configuration is the unmuted value of the old one |
| Mixer.MuteThenUnmuteRestores | crates/sound_config/src/lib.rs:50-61 | from an unmuted configuration, mute then unmute gives it back exactly |
| Mixer.ToggleTwiceRestores | crates/sound_config/src/lib.rs:42-61 | from an unmuted configuration, two toggles give it back exactly |
| Mixer.ToggleTwiceWhileMuted | crates/sound_config/src/lib.rs:42-61 | from a muted configuration, two toggles keep the saved volume and leave the global volume at silence |
| Mixer.MuteTwiceLosesVolume | crates/sound_config/src/lib.rs:50-53 | mute; mute; unmute leaves the global volume at silence, and a second mute changes the state when the volume was not already silence |
| Mixer.CategoriesIndependent | crates/sound_config/src/lib.rs:63-126 | changing one category's volume leaves the result of every other category unchanged |
| SoundExtension.AudioSampleSettings | crates/sound_effect/src/sound_extension.rs:20-43 | the player plays the given sample at global + sound-effect + the sound's volume in decibels; it repeats exactly when the sound is looped; the speed is the drawn playback rate; the completion behaviour is the default |
| SeedlingImpl.LoadSound | crates/sound_effect/src/bevy_seedling_impl.rs:188-207 | a player exists exactly when the packet has the sound's sample; it has that sample, the mixed volume, the sound's looping flag and the drawn rate |
| SeedlingImpl.ResolveHandle | crates/sound_effect/src/bevy_seedling_impl.rs:154-161 | resolution succeeds exactly when the packet is loaded and has the effect; the failure says which lookup failed |
| SeedlingImpl.SelectPlayer | crates/sound_effect/src/bevy_seedling_impl.rs:222-235 | an effect without sounds fails with `NoSounds`, and one with sounds can fail only with `SampleMissing`. Success means the drawn sound's sample exists. The player then plays that sample, at global + sound-effect + the sound's volume in decibels, repeating exactly when the sound loops, at the drawn rate, and removes itself when the sample ends |
| SeedlingImpl.AfterPlay | crates/sound_effect/src/bevy_seedling_impl.rs:210-259 | starting an effect never panics: it spawns a child, taking the next fresh entity id, or aborts and changes nothing |
| SeedlingImpl.AfterSoundEffectPlayerAdded | crates/sound_effect/src/bevy_seedling_impl.rs:124-178 | a request that is gone or holds no `SoundEffectPlayer` aborts with `RequestMissing`; anything but a start leaves the world unchanged; a start spawns the next fresh entity as a non-spatial child |
| SeedlingImpl.AfterSpatialSoundEffectAdded | crates/sound_effect/src/bevy_seedling_impl.rs:390-439 | a request that is gone or holds no `SpatialSoundEffect` aborts with `RequestMissing`; anything but a start leaves the world unchanged; a start spawns the next fresh entity as a spatial child |
| SeedlingImpl.AfterSamplePlayerRemoved | crates/sound_effect/src/bevy_seedling_impl.rs:326-387 | the completion and its handler never panic: they spawn a child, taking the next fresh entity id, or abort without allocating one |
| SeedlingImpl.SoundEffectWorld.TryInsertTags | crates/sound_effect/src/bevy_seedling_impl.rs:237-247 | a live request gains its packet handle, effect id and random-looping tag; a despawned one is left alone |
| SeedlingImpl.SoundEffectWorld.SpawnRandomLoopingSoundPlayerChild | crates/sound_effect/src/bevy_seedling_impl.rs:276-314 | exactly one fresh marker child of the parent is added, holding the player and settings, with a spatial node exactly when asked |
| SeedlingImpl.SoundEffectWorld.SpawnSoundEffectPlayer | crates/sound_effect/src/bevy_seedling_impl.rs:76-85 | adds exactly one fresh entity, holding only a `SoundEffectPlayer` for the key |
| SeedlingImpl.SoundEffectWorld.SpawnSpatialSoundEffect | crates/sound_effect/src/lib.rs:133-142 | adds exactly one fresh entity, holding only the `SpatialSoundEffect` |
| SeedlingImpl.SoundEffectWorld.RemoveSamplePlayer | crates/sound_effect/src/bevy_seedling_impl.rs:235-235 | the entity loses its sample player when the sample ends, as `OnComplete::Remove` asks; nothing else changes |
| SeedlingImpl.SoundEffectWorld.TryDespawn | crates/sound_effect/src/bevy_seedling_impl.rs:374-374 | the entity is gone afterwards, whether or not it existed |
| SeedlingImpl.SoundEffectWorld.PlayRandomLoopingSoundEffect | crates/sound_effect/src/bevy_seedling_impl.rs:210-259 | the new world and status are those of `AfterPlay` |
| SeedlingImpl.SoundEffectWorld.OnSoundEffectPlayerAdded | crates/sound_effect/src/bevy_seedling_impl.rs:124-178 | the new world and status are those of `AfterSoundEffectPlayerAdded` |
| SeedlingImpl.SoundEffectWorld.OnSpatialSoundEffectAdded | crates/sound_effect/src/bevy_seedling_impl.rs:390-439 | the new world and status are those of `AfterSpatialSoundEffectAdded` |
| SeedlingImpl.SoundEffectWorld.OnRandomLoopingSoundPlayerRemoved | crates/sound_effect/src/bevy_seedling_impl.rs:326-387 | drops the finished child's sample player, then reacts; the new world and status are those of `AfterSamplePlayerRemoved` |
| SeedlingLemmas.PlayableSelects | crates/sound_effect/src/bevy_seedling_impl.rs:222-233 | an effect with sounds, every one of which has a sample, yields a player whatever the draw |
| SeedlingLemmas.LoadedEffectPlayable | crates/sound_effect/src/asset.rs:145-174 | every effect with sounds in a loaded packet is playable |
| SeedlingLemmas.PlayAddsOneChild | crates/sound_effect/src/bevy_seedling_impl.rs:210-259 | starting succeeds exactly when a player is selected. On success the request is tagged and gains exactly one fresh live player, spatial exactly when asked. That player plays the drawn sound's sample at the mixed volume, loops as the sound does, runs at the drawn rate and is removed on completion, and the child holds only that marker bundle. Every other entity keeps all its components. On failure nothing changes |
| SeedlingLemmas.PlayerAddedOutcome | crates/sound_effect/src/bevy_seedling_impl.rs:124-178 | each failed lookup aborts with its own reason and changes nothing. The handler panics exactly when the effect is not random-looping. A playable random-looping effect always starts, with one new non-spatial child |
| SeedlingLemmas.SpatialAddedOutcome | crates/sound_effect/src/bevy_seedling_impl.rs:390-439 | the same for a spatial request, whose new child is spatial |
| SeedlingLemmas.LivePlayersAfterSwap | crates/sound_effect/src/bevy_seedling_impl.rs:374-384 | despawning a child of a parent and spawning a fresh live player of it swaps one for the other among the parent's live players, keeping their number when the despawned child was live |
| SeedlingLemmas.OtherLivePlayersAfterSwap | crates/sound_effect/src/bevy_seedling_impl.rs:374-384 | that swap leaves every other entity's live players as they were |
| SeedlingLemmas.LivePlayersWithoutSamplePlayer | crates/sound_effect/src/bevy_seedling_impl.rs:235-235 | losing its sample player takes that entity, and only it, out of every request's live players |
| SeedlingLemmas.RemovalFailureSilencesChild | crates/sound_effect/src/bevy_seedling_impl.rs:342-370 | a completion whose handler does not spawn only takes the finished child's sample player; a removed entity that is not a looping child is never replaced |
| SeedlingLemmas.FailedContinuationLosesPlayer | crates/sound_effect/src/bevy_seedling_impl.rs:356-370 | when a live looping child's effect can no longer be resolved or loaded, its request has one live player fewer and nothing replaces it |
| SeedlingLemmas.RemovalReplacesChild | crates/sound_effect/src/bevy_seedling_impl.rs:326-387 | a successful replacement means the parent's effect was resolved again. The finished child is despawned and one fresh live player of the same parent is added. It plays the sound the draw picks from the parent's effect, is spatial exactly when the parent is a spatial request, and is removed on completion. Every other entity is unchanged, and the parent keeps its number of live players |
| SeedlingLemmas.RemovalLeavesOtherParents | crates/sound_effect/src/bevy_seedling_impl.rs:374-384 | whatever the outcome, a completion leaves the live players of every entity other than the finished child's parent as they were |
| SeedlingLemmas.RemovalOfPlayableSucceeds | crates/sound_effect/src/bevy_seedling_impl.rs:356-370 | a looping child of a playable effect is always replaced; only resolution failures stop the loop |
| SeedlingLemmas.RemovalKeepsOnePlayer | crates/sound_effect/src/bevy_seedling_impl.rs:326-387 | if every request has at most one live player, it still does after the completion of an entity that held a sample player |
| SeedlingLemmas.PlayKeepsOnePlayer | crates/sound_effect/src/bevy_seedling_impl.rs:210-259 | starting a request that has no live player yet keeps every request at one live player at most |
| SeedlingLemmas.BothRequestsStartTwoPlayers | crates/sound_effect/src/bevy_seedling_impl.rs:58-60 | an entity holding both a `SoundEffectPlayer` and a `SpatialSoundEffect` that resolve to playable random-looping effects ends with two live players, so the one-player bound fails |
| SeedlingLemmas.ContinuationStep | crates/sound_effect/src/bevy_seedling_impl.rs:326-387 | one completion of a live, playable child spawns a live, playable child of the same parent, with the parent's live-player count unchanged |
| SeedlingLemmas.ContinuationIsGapFree | crates/sound_effect/src/bevy_seedling_impl.rs:323-387 | for a playable effect, N completions in a row spawn N replacements, each taking the next fresh entity id, and the request ends with as many live players as it started with |

## Left out

- Reading and decoding the packet file is not modelled. `Asset.Load` starts from the decoded packet, and its I/O and decode errors are not modelled.
- Asynchronous loading is not modelled. The sample handles are values built from the directory and the stem; how the path is rendered as a string, with the `wav` extension, is not modelled.
- The plugin wiring is not modelled: system registration, the observers, the asset collection loading and `Mode.deferred`. Each handler is a method called with its event's entity.
- When the host fires a removal event is not modelled. `ContinuationIsGapFree` assumes the completions arrive one after another.
- Commands are applied when a handler returns. Whether a parent still exists when `with_children` runs is not modelled. A spawned child is added to the world either way.
- The host's own `OnComplete::Remove` handling is stood in for by `RemoveSamplePlayer`. A `SamplePlayer` removed for any other reason fires the same handler, in the code and in the model.
- Despawning an entity's descendants (`try_despawn`) is not modelled. A marker child has no children the controller tracks.
- The random generator is an oracle, and so is `random_playback_rate`, whose jitter parameters and sample-rate input are dropped. So is the linear-to-decibel conversion of `Volume`.
- The spatial effect node's settings (`SpatialSoundEffectSettings::create_node`) and the `Transform` are not modelled. A spatial child is marked only by its `spatialNode` flag.
- Entity `Name`s (the `entity_names` feature), logging and tracing spans are not modelled.
- Mixer.Volumes.MusicVolume: single-precision rounding of the decibel sums is not modelled, because decibels are reals. The same holds for SoundEffectVolume, VoiceOverVolume, DialogueVolume and SoundExtension.AudioSampleSettings.
- Sfx.RandomSound: the packet decoder's `random_sound` is not part of this model. The draw is reduced modulo the number of sounds. Every in-range index is some draw's residue, so the model covers every choice the generator can make. Its distribution is not modelled.
