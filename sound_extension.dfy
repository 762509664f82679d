/**
 * Turning a chosen sound into sample-player settings: the mixed volume, the
 * looping flag and the playback speed.  `SamplePlayer` and
 * `PlaybackSettings` are the audio library's components, reduced to the
 * fields this code sets.
 */
module SoundExtension {
  import opened Sfx
  import opened Asset
  import opened Mixer

  datatype RepeatMode = PlayOnce | RepeatEndlessly

  /** A sample to play, its volume in decibels and whether it repeats. */
  datatype SamplePlayer = SamplePlayer(sample: SampleHandle, volume: real, repeatMode: RepeatMode)
  {
    static function New(sample: SampleHandle): SamplePlayer
    {
      SamplePlayer(sample, 0.0, PlayOnce)
    }

    function WithVolume(volume: real): SamplePlayer
    {
      this.(volume := volume)
    }

    function Looping(): SamplePlayer
    {
      this.(repeatMode := RepeatEndlessly)
    }
  }

  /** What happens to the player's entity when its sample finishes. */
  datatype OnComplete = Preserve | Remove | Despawn

  datatype PlaybackSettings = PlaybackSettings(speed: real, onComplete: OnComplete)
  {
    static function Default(): PlaybackSettings
    {
      PlaybackSettings(1.0, Despawn)
    }

    function WithSpeed(speed: real): PlaybackSettings
    {
      this.(speed := speed)
    }

    function WithOnComplete(onComplete: OnComplete): PlaybackSettings
    {
      this.(onComplete := onComplete)
    }
  }

  /**
   * The player and settings for `sound`, playing `source`.  The two foreign
   * computations are inputs: `toDecibels` converts the sound's linear volume,
   * and `playbackRate` is the jittered rate the random generator yields for
   * the output sample rate.
   */
  function AudioSampleSettings(
    sound: Sound, soundConfig: Volumes, toDecibels: real -> real, playbackRate: real, source: SampleHandle)
    : (r: (SamplePlayer, PlaybackSettings))
    ensures r.0.sample == source
    ensures r.0.volume == soundConfig.global + soundConfig.soundEffect + toDecibels(sound.linearVolume)
    ensures r.0.repeatMode == RepeatEndlessly <==> sound.looped
    ensures r.1.speed == playbackRate
    ensures r.1.onComplete == PlaybackSettings.Default().onComplete
  {
    var player := SamplePlayer.New(source).WithVolume(soundConfig.SoundEffectVolume(toDecibels(sound.linearVolume)));
    var player := if sound.looped then player.Looping() else player;
    (player, PlaybackSettings.Default().WithSpeed(playbackRate))
  }
}
