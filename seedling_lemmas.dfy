/**
 * What the controller's handlers promise, proved about the transition
 * functions the handler methods are verified against.
 */
module SeedlingLemmas {
  import opened Wrappers
  import opened Sfx
  import opened Asset
  import opened SoundExtension
  import opened SeedlingImpl

  /** Every sound of the effect has a sample, and there is at least one sound. */
  predicate Playable(packet: PacketAsset, sfx: Sfx)
  {
    |sfx.sounds| > 0 && forall s :: s in sfx.sounds ==> packet.AudioSampleHandle(s).Some?
  }

  /** A playable effect always yields a player, whatever the random generator draws. */
  lemma PlayableSelects(res: Resources, draws: Draws, packet: PacketAsset, sfx: Sfx)
    requires Playable(packet, sfx)
    ensures SelectPlayer(res, draws, packet, sfx).Success?
  {
    var s := RandomSound(sfx, draws.sound).value;
    assert packet.AudioSampleHandle(s).Some?;
  }

  /** Every effect of a loaded packet that has sounds is playable. */
  lemma LoadedEffectPlayable(asset: PacketAsset, directory: string, sfxId: SfxId)
    requires asset.audioSamples == LoadedSamples(asset.source, directory)
    requires sfxId in asset.source.sfxs && |asset.source.sfxs[sfxId].sounds| > 0
    ensures Playable(asset, asset.source.sfxs[sfxId])
  {
    var sounds := asset.source.sfxs[sfxId].sounds;
    forall s | s in sounds
      ensures asset.AudioSampleHandle(s).Some?
    {
      var i :| 0 <= i < |sounds| && sounds[i] == s;
      LoadedPacketResolvesEverySound(asset, directory, sfxId, i);
    }
  }

  /** The child component plays the sound the draw picks from `sfx`. */
  predicate PlaysChosenSound(res: Resources, draws: Draws, packet: PacketAsset, sfx: Sfx, c: Components)
  {
    && c.samplePlayer.Some? && c.playbackSettings.Some?
    && IsChosenPlayer(res, draws, packet, sfx, SoundPlayerData(c.samplePlayer.value, c.playbackSettings.value))
  }

  /**
   * A started effect tags the request and gives it exactly one new live
   * player, which plays the chosen sound, spatial exactly when asked; no
   * other entity's players change.  On failure nothing changes.
   */
  lemma {:induction false} PlayAddsOneChild(w: World, res: Resources, draws: Draws, handle: PacketHandle,
                                            packet: PacketAsset, sfx: Sfx, e: Entity, spatial: bool)
    requires WellFormed(w) && e in w.entities
    ensures var (w', status) := AfterPlay(w, res, draws, handle, packet, sfx, e, spatial);
      && WellFormed(w')
      && (status.Spawned? <==> SelectPlayer(res, draws, packet, sfx).Success?)
      && (!status.Spawned? ==> w' == w)
      && (status.Spawned? ==>
            && status.child == w.next && status.child !in w.entities
            && w'.entities[e] == Tagged(w.entities[e], handle, sfx.id)
            && w'.entities[status.child].marker
            && w'.entities[status.child].childOf == Some(e)
            && w'.entities[status.child].spatialNode == spatial
            && PlaysChosenSound(res, draws, packet, sfx, w'.entities[status.child])
            && w'.entities.Keys == w.entities.Keys + {status.child}
            && LivePlayers(w'.entities, e) == LivePlayers(w.entities, e) + {status.child}
            && (forall p :: p != e ==> LivePlayers(w'.entities, p) == LivePlayers(w.entities, p))
            && (forall x :: x in w.entities && x != e ==> w'.entities[x] == w.entities[x])
            && w'.entities[status.child] == MarkerChild(e, SelectPlayer(res, draws, packet, sfx).value, spatial))
  {
    var (w', status) := AfterPlay(w, res, draws, handle, packet, sfx, e, spatial);
    if status.Spawned? {
      var child := w.next;
      assert child !in w.entities;
      forall p ensures LivePlayers(w'.entities, p) == LivePlayers(w.entities, p) + (if p == e then {child} else {}) {
        forall c ensures c in LivePlayers(w'.entities, p) <==> c in LivePlayers(w.entities, p) + (if p == e then {child} else {}) {
          if c != child && c in w.entities {
            assert w'.entities[c].marker == w.entities[c].marker && w'.entities[c].childOf == w.entities[c].childOf
                   && w'.entities[c].samplePlayer == w.entities[c].samplePlayer;
          }
        }
      }
    }
  }

  /** A `SoundEffectPlayer` request: when it fails, why, and what success adds. */
  lemma PlayerAddedOutcome(w: World, res: Resources, draws: Draws, e: Entity)
    requires WellFormed(w)
    ensures var (w', status) := AfterSoundEffectPlayerAdded(w, res, draws, e);
      && WellFormed(w')
      && (!status.Spawned? ==> w' == w)
      && (e !in w.entities || w.entities[e].player.None? ==> status == Aborted(RequestMissing))
      && (e in w.entities && w.entities[e].player.Some? ==>
            var key := w.entities[e].player.value;
            && (key.PacketPath() !in res.packets.packets ==> status == Aborted(PacketMissing))
            && (key.PacketPath() in res.packets.packets ==>
                  var handle := res.packets.packets[key.PacketPath()];
                  && (handle !in res.packetAssets ==> status == Aborted(PacketNotLoaded))
                  && (handle in res.packetAssets ==>
                        var packet := res.packetAssets[handle];
                        && (key.SoundEffectId() !in packet.source.sfxs ==> status == Aborted(EffectMissing))
                        && (key.SoundEffectId() in packet.source.sfxs ==>
                              var sfx := packet.source.sfxs[key.SoundEffectId()];
                              && (status == Panicked <==> !sfx.typ.RandomLooping?)
                              && (sfx.typ.RandomLooping? && Playable(packet, sfx) ==> status.Spawned?)
                              && (status.Spawned? ==>
                                    && w'.entities[e] == Tagged(w.entities[e], handle, sfx.id)
                                    && !w'.entities[status.child].spatialNode
                                    && LivePlayers(w'.entities, e) == LivePlayers(w.entities, e) + {status.child}
                                    && status.child !in LivePlayers(w.entities, e))))))
  {
    if e in w.entities && w.entities[e].player.Some? {
      var key := w.entities[e].player.value;
      if key.PacketPath() in res.packets.packets {
        var handle := res.packets.packets[key.PacketPath()];
        if handle in res.packetAssets && key.SoundEffectId() in res.packetAssets[handle].source.sfxs {
          var packet := res.packetAssets[handle];
          var sfx := packet.source.sfxs[key.SoundEffectId()];
          if sfx.typ.RandomLooping? {
            PlayAddsOneChild(w, res, draws, handle, packet, sfx, e, false);
            if Playable(packet, sfx) {
              PlayableSelects(res, draws, packet, sfx);
            }
          }
        }
      }
    }
  }

  /** A `SpatialSoundEffect` request: when it fails, why, and what success adds. */
  lemma SpatialAddedOutcome(w: World, res: Resources, draws: Draws, e: Entity)
    requires WellFormed(w)
    ensures var (w', status) := AfterSpatialSoundEffectAdded(w, res, draws, e);
      && WellFormed(w')
      && (!status.Spawned? ==> w' == w)
      && (e !in w.entities || w.entities[e].spatial.None? ==> status == Aborted(RequestMissing))
      && (e in w.entities && w.entities[e].spatial.Some? ==>
            var request := w.entities[e].spatial.value;
            && (request.packet !in res.packetAssets ==> status == Aborted(PacketNotLoaded))
            && (request.packet in res.packetAssets ==>
                  var packet := res.packetAssets[request.packet];
                  && (request.id !in packet.source.sfxs ==> status == Aborted(EffectMissing))
                  && (request.id in packet.source.sfxs ==>
                        var sfx := packet.source.sfxs[request.id];
                        && (status == Panicked <==> !sfx.typ.RandomLooping?)
                        && (sfx.typ.RandomLooping? && Playable(packet, sfx) ==> status.Spawned?)
                        && (status.Spawned? ==>
                              && w'.entities[e] == Tagged(w.entities[e], request.packet, sfx.id)
                              && w'.entities[status.child].spatialNode
                              && LivePlayers(w'.entities, e) == LivePlayers(w.entities, e) + {status.child}
                              && status.child !in LivePlayers(w.entities, e)))))
  {
    if e in w.entities && w.entities[e].spatial.Some? {
      var request := w.entities[e].spatial.value;
      if request.packet in res.packetAssets && request.id in res.packetAssets[request.packet].source.sfxs {
        var packet := res.packetAssets[request.packet];
        var sfx := packet.source.sfxs[request.id];
        if sfx.typ.RandomLooping? {
          PlayAddsOneChild(w, res, draws, request.packet, packet, sfx, e, true);
          if Playable(packet, sfx) {
            PlayableSelects(res, draws, packet, sfx);
          }
        }
      }
    }
  }

  /** A packet handle and effect id that resolve to a playable random-looping effect. */
  predicate StartsPlayable(res: Resources, handle: PacketHandle, sfxId: SfxId)
  {
    && handle in res.packetAssets && sfxId in res.packetAssets[handle].source.sfxs
    && res.packetAssets[handle].source.sfxs[sfxId].typ.RandomLooping?
    && Playable(res.packetAssets[handle], res.packetAssets[handle].source.sfxs[sfxId])
  }

  /**
   * An entity that holds both a `SoundEffectPlayer` and a
   * `SpatialSoundEffect` is started by both handlers, one after the other,
   * and ends with two live players: nothing keeps one request to one player.
   */
  lemma BothRequestsStartTwoPlayers(w: World, res: Resources, d1: Draws, d2: Draws, e: Entity)
    requires WellFormed(w) && e in w.entities && LivePlayers(w.entities, e) == {}
    requires w.entities[e].player.Some? && w.entities[e].spatial.Some?
    requires var key := w.entities[e].player.value;
      key.PacketPath() in res.packets.packets && StartsPlayable(res, res.packets.packets[key.PacketPath()], key.SoundEffectId())
    requires StartsPlayable(res, w.entities[e].spatial.value.packet, w.entities[e].spatial.value.id)
    ensures var w1 := AfterSoundEffectPlayerAdded(w, res, d1, e).0;
      var w2 := AfterSpatialSoundEffectAdded(w1, res, d2, e).0;
      && e in w2.entities && w2.entities[e].randomLooping
      && |LivePlayers(w2.entities, e)| == 2
      && !AtMostOnePlayerEach(w2)
  {
    var (w1, s1) := AfterSoundEffectPlayerAdded(w, res, d1, e);
    PlayerAddedOutcome(w, res, d1, e);
    var (w2, s2) := AfterSpatialSoundEffectAdded(w1, res, d2, e);
    SpatialAddedOutcome(w1, res, d2, e);
    assert LivePlayers(w2.entities, e) == {s1.child, s2.child};
  }

  lemma ReplaceKeepsCount(s: set<Entity>, old_: Entity, new_: Entity)
    requires old_ in s && new_ !in s
    ensures |s - {old_} + {new_}| == |s|
  {
    assert |s - {old_}| == |s| - 1;
  }

  /** Despawning `e` and spawning a fresh live player of `p`, seen at one entity `x` and one parent `q`. */
  lemma SwapMembership(entities: map<Entity, Components>, e: Entity, child: Entity, c: Components,
                       p: Entity, q: Entity, x: Entity)
    requires child !in entities && c.marker && c.childOf == Some(p) && c.samplePlayer.Some?
    ensures x in LivePlayers((entities - {e})[child := c], q)
            <==> x in LivePlayers(entities, q) - {e} + (if q == p then {child} else {})
  {
    if x != child && x != e && x in entities {
      assert ((entities - {e})[child := c])[x] == entities[x];
    }
  }

  /** Despawning one live player of `p` and spawning a fresh one keeps `p`'s number of live players. */
  lemma LivePlayersAfterSwap(entities: map<Entity, Components>, e: Entity, child: Entity, c: Components, p: Entity)
    requires child !in entities && c.marker && c.childOf == Some(p) && c.samplePlayer.Some?
    ensures LivePlayers((entities - {e})[child := c], p) == LivePlayers(entities, p) - {e} + {child}
    ensures e in LivePlayers(entities, p) ==> |LivePlayers((entities - {e})[child := c], p)| == |LivePlayers(entities, p)|
  {
    forall x ensures x in LivePlayers((entities - {e})[child := c], p)
                     <==> x in LivePlayers(entities, p) - {e} + {child} {
      SwapMembership(entities, e, child, c, p, p, x);
    }
    if e in LivePlayers(entities, p) {
      ReplaceKeepsCount(LivePlayers(entities, p), e, child);
    }
  }

  /** That swap leaves the live players of every parent other than `e`'s and `p` alone. */
  lemma OtherLivePlayersAfterSwap(entities: map<Entity, Components>, e: Entity, child: Entity, c: Components,
                                  p: Entity, q: Entity)
    requires child !in entities && c.marker && c.childOf == Some(p) && c.samplePlayer.Some?
    requires e in entities && entities[e].childOf == Some(p) && q != p
    ensures LivePlayers((entities - {e})[child := c], q) == LivePlayers(entities, q)
  {
    forall x ensures x in LivePlayers((entities - {e})[child := c], q) <==> x in LivePlayers(entities, q) {
      SwapMembership(entities, e, child, c, p, q, x);
    }
  }

  /** Losing its sample player takes `e`, and only `e`, out of the live players. */
  lemma LivePlayersWithoutSamplePlayer(w: World, e: Entity, q: Entity)
    ensures LivePlayers(WithoutSamplePlayer(w, e).entities, q) == LivePlayers(w.entities, q) - {e}
  {
    var entities' := WithoutSamplePlayer(w, e).entities;
    forall x ensures x in LivePlayers(entities', q) <==> x in LivePlayers(w.entities, q) - {e} {
      if x != e && x in w.entities {
        assert entities'[x] == w.entities[x];
      }
    }
  }

  /**
   * The entity holds the sample player whose removal fires the handler: the
   * removal event only exists for such an entity.
   */
  predicate HoldsSamplePlayer(w: World, e: Entity)
  {
    e in w.entities && w.entities[e].samplePlayer.Some?
  }

  /**
   * A completion whose handler stops early leaves the finished child without
   * a sample player and changes nothing else; the handler only replaces a
   * looping child.
   */
  lemma RemovalFailureSilencesChild(w: World, res: Resources, draws: Draws, e: Entity)
    ensures var (w', status) := AfterSamplePlayerRemoved(w, res, draws, e);
      && (!status.Spawned? ==> w' == WithoutSamplePlayer(w, e))
      && (!IsLoopingChild(w, e) ==> !status.Spawned?)
  {
  }

  /**
   * When a looping child's effect can no longer be resolved or loaded, its
   * request loses that player and nothing replaces it: the request falls
   * silent.
   */
  lemma FailedContinuationLosesPlayer(w: World, res: Resources, draws: Draws, e: Entity)
    requires IsLoopingChild(w, e) && HoldsSamplePlayer(w, e)
    requires !AfterSamplePlayerRemoved(w, res, draws, e).1.Spawned?
    ensures var p := w.entities[e].childOf.value;
      var w' := AfterSamplePlayerRemoved(w, res, draws, e).0;
      && LivePlayers(w'.entities, p) == LivePlayers(w.entities, p) - {e}
      && |LivePlayers(w'.entities, p)| == |LivePlayers(w.entities, p)| - 1
  {
    var p := w.entities[e].childOf.value;
    LivePlayersWithoutSamplePlayer(w, e, p);
    assert e in LivePlayers(w.entities, p);
  }

  /**
   * A finished player child is replaced: the child is despawned and exactly
   * one new live player of the same parent is spawned, playing the sound the
   * draw picks from the parent's effect, spatial exactly when the parent is
   * a spatial request.  No other entity changes, and the parent keeps as
   * many live players as it had.
   */
  lemma {:induction false} RemovalReplacesChild(w: World, res: Resources, draws: Draws, e: Entity)
    requires WellFormed(w)
    requires AfterSamplePlayerRemoved(w, res, draws, e).1.Spawned?
    ensures var (w', status) := AfterSamplePlayerRemoved(w, res, draws, e);
      var p := w.entities[e].childOf.value;
      var handle := w.entities[p].packetHandle.value;
      var sfxId := w.entities[p].soundEffectId.value;
      && WellFormed(w')
      && IsLoopingChild(w, e)
      && handle in res.packetAssets && sfxId in res.packetAssets[handle].source.sfxs
      && status.child == w.next && status.child !in w.entities
      && w'.entities.Keys == w.entities.Keys - {e} + {status.child}
      && (forall x :: x in w.entities && x != e ==> w'.entities[x] == w.entities[x])
      && w'.entities[status.child].marker
      && w'.entities[status.child].childOf == Some(p)
      && w'.entities[status.child].spatialNode == w.entities[p].spatial.Some?
      && PlaysChosenSound(res, draws, res.packetAssets[handle], res.packetAssets[handle].source.sfxs[sfxId],
                          w'.entities[status.child])
      && LivePlayers(w'.entities, p) == LivePlayers(w.entities, p) - {e} + {status.child}
      && (HoldsSamplePlayer(w, e) ==> |LivePlayers(w'.entities, p)| == |LivePlayers(w.entities, p)|)
  {
    var (w', status) := AfterSamplePlayerRemoved(w, res, draws, e);
    var p := w.entities[e].childOf.value;
    assert w.next !in w.entities;
    LivePlayersAfterSwap(w.entities, e, w.next, w'.entities[w.next], p);
  }

  /** A removal leaves the live players of every entity other than the finished child's parent alone. */
  lemma RemovalLeavesOtherParents(w: World, res: Resources, draws: Draws, e: Entity, q: Entity)
    requires WellFormed(w)
    requires !(e in w.entities && w.entities[e].childOf == Some(q))
    ensures LivePlayers(AfterSamplePlayerRemoved(w, res, draws, e).0.entities, q) == LivePlayers(w.entities, q)
  {
    var (w', status) := AfterSamplePlayerRemoved(w, res, draws, e);
    if status.Spawned? {
      assert w.next !in w.entities;
      OtherLivePlayersAfterSwap(w.entities, e, w.next, w'.entities[w.next], w.entities[e].childOf.value, q);
    } else {
      LivePlayersWithoutSamplePlayer(w, e, q);
      assert e !in LivePlayers(w.entities, q);
    }
  }

  /** A looping child of a playable effect is always replaced. */
  lemma RemovalOfPlayableSucceeds(w: World, res: Resources, draws: Draws, e: Entity)
    requires PlayableChild(w, res, e)
    ensures AfterSamplePlayerRemoved(w, res, draws, e).1.Spawned?
  {
    var parent := w.entities[w.entities[e].childOf.value];
    var packet := res.packetAssets[parent.packetHandle.value];
    PlayableSelects(res, draws, packet, packet.source.sfxs[parent.soundEffectId.value]);
  }

  /** The removal of a live player keeps every request at one live player at most. */
  lemma RemovalKeepsOnePlayer(w: World, res: Resources, draws: Draws, e: Entity)
    requires WellFormed(w) && AtMostOnePlayerEach(w) && HoldsSamplePlayer(w, e)
    ensures AtMostOnePlayerEach(AfterSamplePlayerRemoved(w, res, draws, e).0)
  {
    var (w', status) := AfterSamplePlayerRemoved(w, res, draws, e);
    forall q | q in w'.entities && w'.entities[q].randomLooping
      ensures |LivePlayers(w'.entities, q)| <= 1
    {
      assert q in w.entities && w.entities[q].randomLooping;
      if w.entities[e].childOf != Some(q) {
        RemovalLeavesOtherParents(w, res, draws, e, q);
      } else if status.Spawned? {
        RemovalReplacesChild(w, res, draws, e);
      } else {
        LivePlayersWithoutSamplePlayer(w, e, q);
      }
    }
  }

  /** Starting a request that has no live player yet keeps every request at one live player at most. */
  lemma PlayKeepsOnePlayer(w: World, res: Resources, draws: Draws, handle: PacketHandle,
                           packet: PacketAsset, sfx: Sfx, e: Entity, spatial: bool)
    requires WellFormed(w) && AtMostOnePlayerEach(w) && e in w.entities
    requires LivePlayers(w.entities, e) == {}
    ensures AtMostOnePlayerEach(AfterPlay(w, res, draws, handle, packet, sfx, e, spatial).0)
  {
    var (w', status) := AfterPlay(w, res, draws, handle, packet, sfx, e, spatial);
    PlayAddsOneChild(w, res, draws, handle, packet, sfx, e, spatial);
    if status.Spawned? {
      forall q | q in w'.entities && w'.entities[q].randomLooping
        ensures |LivePlayers(w'.entities, q)| <= 1
      {
        if q != e {
          assert q in w.entities && w.entities[q].randomLooping;
        }
      }
    }
  }

  /**
   * Completion signals delivered one after another, each to the child the
   * previous one spawned; the result is the world afterwards, the last
   * child, and how many replacements were spawned.  Each replacement takes
   * the next fresh entity id, so the last child is the newest entity.
   */
  function CompleteRepeatedly(w: World, res: Resources, e: Entity, draws: seq<Draws>): (r: (World, Entity, nat))
    ensures r.2 <= |draws|
    ensures r.0.next == w.next + r.2
    ensures r.2 == 0 ==> r.1 == e
    ensures r.2 > 0 ==> r.1 == r.0.next - 1
    decreases |draws|
  {
    if |draws| == 0 then (w, e, 0)
    else
      var (w1, status) := AfterSamplePlayerRemoved(w, res, draws[0], e);
      if !status.Spawned? then (w1, e, 0)
      else
        var (w2, last, n) := CompleteRepeatedly(w1, res, status.child, draws[1..]);
        (w2, last, n + 1)
  }

  /** `e` is a live looping child whose parent's effect is playable. */
  predicate PlayableChild(w: World, res: Resources, e: Entity)
  {
    && IsLoopingChild(w, e) && HoldsSamplePlayer(w, e)
    && var parent := w.entities[w.entities[e].childOf.value];
       && parent.packetHandle.value in res.packetAssets
       && var packet := res.packetAssets[parent.packetHandle.value];
          parent.soundEffectId.value in packet.source.sfxs
          && Playable(packet, packet.source.sfxs[parent.soundEffectId.value])
  }

  /** One completion of a playable child spawns a playable child of the same parent. */
  lemma ContinuationStep(w: World, res: Resources, draws: Draws, e: Entity)
    requires WellFormed(w) && PlayableChild(w, res, e)
    ensures var p := w.entities[e].childOf.value;
      var (w', status) := AfterSamplePlayerRemoved(w, res, draws, e);
      && status.Spawned? && WellFormed(w')
      && PlayableChild(w', res, status.child) && w'.entities[status.child].childOf == Some(p)
      && |LivePlayers(w'.entities, p)| == |LivePlayers(w.entities, p)|
  {
    var p := w.entities[e].childOf.value;
    var (w', status) := AfterSamplePlayerRemoved(w, res, draws, e);
    RemovalOfPlayableSucceeds(w, res, draws, e);
    RemovalReplacesChild(w, res, draws, e);
    assert w'.entities[p] == w.entities[p];
  }

  /**
   * Continuous looping: for a playable effect, N completion signals spawn N
   * replacements, and the request ends with exactly as many live players as
   * it started with.
   */
  lemma {:induction false} ContinuationIsGapFree(w: World, res: Resources, e: Entity, draws: seq<Draws>)
    requires WellFormed(w) && PlayableChild(w, res, e)
    ensures var p := w.entities[e].childOf.value;
      var (w', last, n) := CompleteRepeatedly(w, res, e, draws);
      && n == |draws|
      && PlayableChild(w', res, last) && w'.entities[last].childOf == Some(p)
      && |LivePlayers(w'.entities, p)| == |LivePlayers(w.entities, p)|
    decreases |draws|
  {
    if |draws| > 0 {
      var (w1, status) := AfterSamplePlayerRemoved(w, res, draws[0], e);
      ContinuationStep(w, res, draws[0], e);
      ContinuationIsGapFree(w1, res, status.child, draws[1..]);
    }
  }
}
