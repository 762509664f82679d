/**
 * The volume mixer: a global volume and four category volumes, all in
 * decibels, combined by addition, and a mute switch that keeps the global
 * volume it replaced.
 */
module Mixer {
  import opened Wrappers

  /**
   * The audio library's silence level, in decibels.  No property proved here
   * depends on its value.
   */
  const Silence: real := -60.0

  /**
   * The value of a `SoundConfig`.  Decibels are reals: single-precision
   * rounding of the sums is not modelled.
   */
  datatype Volumes = Volumes(
    global: real,
    originalGlobal: Option<real>,
    music: real,
    soundEffect: real,
    voiceOver: real,
    dialogue: real)
  {
    predicate IsMuted()
    {
      originalGlobal.Some?
    }

    /** The global volume added to a category volume. */
    function EffectiveVolume(volumeDecibels: real): (r: real)
      ensures r == global + volumeDecibels
    {
      global + volumeDecibels
    }

    function MusicVolume(base: real): (r: real)
      ensures r == global + music + base
    {
      EffectiveVolume(music) + base
    }

    function SoundEffectVolume(base: real): (r: real)
      ensures r == global + soundEffect + base
    {
      EffectiveVolume(soundEffect) + base
    }

    function VoiceOverVolume(base: real): (r: real)
      ensures r == global + voiceOver + base
    {
      EffectiveVolume(voiceOver) + base
    }

    function DialogueVolume(base: real): (r: real)
      ensures r == global + dialogue + base
    {
      EffectiveVolume(dialogue) + base
    }

    /** What `mute` leaves: the global volume saved, whatever was saved before, and silence. */
    function Muted(): (v: Volumes)
      ensures v.IsMuted() && v.originalGlobal == Some(global) && v.global == Silence
      ensures SameCategories(v, this)
    {
      this.(originalGlobal := Some(global), global := Silence)
    }

    /** What `unmute` leaves: the saved global volume restored, or nothing changed. */
    function Unmuted(): (v: Volumes)
      ensures !v.IsMuted()
      ensures !IsMuted() ==> v == this
      ensures IsMuted() ==> v.global == originalGlobal.value
      ensures SameCategories(v, this)
    {
      match originalGlobal
      case None => this
      case Some(original) => this.(global := original, originalGlobal := None)
    }

    /** What `toggle_mute` leaves. */
    function ToggledMute(): (v: Volumes)
      ensures v.IsMuted() <==> !IsMuted()
      ensures SameCategories(v, this)
    {
      if IsMuted() then Unmuted() else Muted()
    }
  }

  /** The four category volumes agree. */
  predicate SameCategories(a: Volumes, b: Volumes)
  {
    a.music == b.music && a.soundEffect == b.soundEffect
    && a.voiceOver == b.voiceOver && a.dialogue == b.dialogue
  }

  /** The mixer configuration, updated in place by the mute switch. */
  class SoundConfig {
    var globalVolumeDecibels: real
    var originalGlobalVolumeDecibels: Option<real>
    var musicVolumeDecibels: real
    var soundEffectVolumeDecibels: real
    var voiceOverVolumeDecibels: real
    var dialogueVolumeDecibels: real

    function Value(): Volumes
      reads this
    {
      Volumes(globalVolumeDecibels, originalGlobalVolumeDecibels, musicVolumeDecibels,
              soundEffectVolumeDecibels, voiceOverVolumeDecibels, dialogueVolumeDecibels)
    }

    /** The default configuration: every volume 0 dB, not muted. */
    constructor ()
      ensures Value() == Volumes(0.0, None, 0.0, 0.0, 0.0, 0.0)
    {
      globalVolumeDecibels := 0.0;
      originalGlobalVolumeDecibels := None;
      musicVolumeDecibels := 0.0;
      soundEffectVolumeDecibels := 0.0;
      voiceOverVolumeDecibels := 0.0;
      dialogueVolumeDecibels := 0.0;
    }

    method ToggleMute()
      modifies this
      ensures Value() == old(Value()).ToggledMute()
    {
      if originalGlobalVolumeDecibels.Some? {
        Unmute();
      } else {
        Mute();
      }
    }

    /** Saves the global volume and silences it; an earlier saved volume is overwritten. */
    method Mute()
      modifies this
      ensures Value() == old(Value()).Muted()
    {
      originalGlobalVolumeDecibels := Some(globalVolumeDecibels);
      globalVolumeDecibels := Silence;
    }

    /** Restores the saved global volume, if one is saved. */
    method Unmute()
      modifies this
      ensures Value() == old(Value()).Unmuted()
    {
      if originalGlobalVolumeDecibels.None? {
        return;
      }
      globalVolumeDecibels := originalGlobalVolumeDecibels.value;
      originalGlobalVolumeDecibels := None;
    }
  }

  /** From an unmuted configuration, muting then unmuting gives it back exactly. */
  lemma MuteThenUnmuteRestores(v: Volumes)
    requires !v.IsMuted()
    ensures v.Muted().Unmuted() == v
  {
  }

  /** From an unmuted configuration, two toggles give it back exactly. */
  lemma ToggleTwiceRestores(v: Volumes)
    requires !v.IsMuted()
    ensures v.ToggledMute().ToggledMute() == v
  {
  }

  /** From a muted configuration, two toggles keep the saved volume and leave the global volume silent. */
  lemma ToggleTwiceWhileMuted(v: Volumes)
    requires v.IsMuted()
    ensures v.ToggledMute().ToggledMute() == v.(global := Silence)
  {
  }

  /**
   * Muting twice loses the volume: the second call saves the silence level
   * over the saved volume, so unmuting afterwards stays silent.
   */
  lemma MuteTwiceLosesVolume(v: Volumes)
    ensures v.Muted().Muted().Unmuted().global == Silence
    ensures v.global != Silence ==> v.Muted().Muted() != v.Muted()
  {
  }

  /** Setting one category's volume leaves every other category's volume where it was. */
  lemma CategoriesIndependent(v: Volumes, db: real, base: real)
    ensures v.(music := db).SoundEffectVolume(base) == v.SoundEffectVolume(base)
    ensures v.(music := db).VoiceOverVolume(base) == v.VoiceOverVolume(base)
    ensures v.(music := db).DialogueVolume(base) == v.DialogueVolume(base)
    ensures v.(soundEffect := db).MusicVolume(base) == v.MusicVolume(base)
    ensures v.(soundEffect := db).VoiceOverVolume(base) == v.VoiceOverVolume(base)
    ensures v.(soundEffect := db).DialogueVolume(base) == v.DialogueVolume(base)
    ensures v.(voiceOver := db).MusicVolume(base) == v.MusicVolume(base)
    ensures v.(voiceOver := db).SoundEffectVolume(base) == v.SoundEffectVolume(base)
    ensures v.(voiceOver := db).DialogueVolume(base) == v.DialogueVolume(base)
    ensures v.(dialogue := db).MusicVolume(base) == v.MusicVolume(base)
    ensures v.(dialogue := db).SoundEffectVolume(base) == v.SoundEffectVolume(base)
    ensures v.(dialogue := db).VoiceOverVolume(base) == v.VoiceOverVolume(base)
  {
  }
}
