/**
 * The mini player docked at the bottom of the screen: shown while an episode is current,
 * with a play/pause toggle, a volume slider, a mute button and a volume icon.
 */
module MiniPlayer {
  import opened Wrappers
  import opened Types
  import opened Playback

  /** Nothing is rendered without a current episode. */
  predicate IsVisible(current: Option<Episode>) {
    current.Some?
  }

  /** The three volume icons. */
  datatype VolumeIcon = Mute | Down | Up

  /** getVolumeIcon. */
  function GetVolumeIcon(volume: real): (icon: VolumeIcon)
    ensures icon == Mute <==> volume == 0.0
    ensures icon == Down <==> volume != 0.0 && volume < 0.5
    ensures icon == Up <==> volume >= 0.5
  {
    if volume == 0.0 then Mute else if volume < 0.5 then Down else Up
  }

  /** The volume the mute button sets: silence when anything is audible, else full volume. */
  function MuteTarget(volume: real): (r: real)
    ensures r == 0.0 <==> volume > 0.0
    ensures r == 1.0 <==> volume <= 0.0
  {
    if volume > 0.0 then 0.0 else 1.0
  }

  /** Muting twice restores full volume, not the volume before: 0.3 comes back as 1. */
  lemma MuteTwice(volume: real)
    requires volume > 0.0
    ensures MuteTarget(MuteTarget(volume)) == 1.0
    ensures GetVolumeIcon(MuteTarget(volume)) == Mute
    ensures GetVolumeIcon(MuteTarget(MuteTarget(volume))) == Up
  {
  }

  /** The slider's 0..100 scale mapped onto the store's 0..1 volume. */
  function SliderVolume(value: real): (v: real)
    ensures 0.0 <= value <= 100.0 ==> 0.0 <= v <= 1.0
    ensures v * 100.0 == value
  {
    value / 100.0
  }

  /** A slider at 0 shows the mute icon, below 50 the low icon, otherwise the high one. */
  lemma SliderIcon(value: real)
    ensures GetVolumeIcon(SliderVolume(value)) == Mute <==> value == 0.0
    ensures GetVolumeIcon(SliderVolume(value)) == Up <==> value >= 50.0
  {
  }

  /** Play/pause toggle: pauses if the store says it is playing, plays otherwise. */
  method HandleTogglePlayback(store: AudioStore)
    modifies store`playbackState, store.audioElement
    ensures old(store.audioElement) == null ==> store.playbackState == old(store.playbackState)
    ensures old(store.audioElement) != null ==>
              store.playbackState == old(store.playbackState).(isPlaying := !old(store.playbackState.isPlaying),
                                                               isPaused := old(store.playbackState.isPlaying)) &&
              store.audioElement.View() == old(store.audioElement.View()).(paused := old(store.playbackState.isPlaying))
  {
    if store.playbackState.isPlaying {
      store.Pause();
    } else {
      store.Play();
    }
  }

  /** Volume slider. */
  method HandleVolumeChange(store: AudioStore, value: real)
    modifies store`playbackState, store.audioElement
    ensures old(store.audioElement) == null ==> store.playbackState == old(store.playbackState)
    ensures old(store.audioElement) != null ==>
              store.playbackState == old(store.playbackState).(volume := SliderVolume(value)) &&
              store.audioElement.View() == old(store.audioElement.View()).(volume := SliderVolume(value))
  {
    store.SetVolume(SliderVolume(value));
  }

  /** Mute button. */
  method HandleVolumeMute(store: AudioStore)
    modifies store`playbackState, store.audioElement
    ensures old(store.audioElement) == null ==> store.playbackState == old(store.playbackState)
    ensures old(store.audioElement) != null ==>
              store.playbackState == old(store.playbackState).(volume := MuteTarget(old(store.playbackState.volume))) &&
              store.audioElement.View() == old(store.audioElement.View()).(volume := MuteTarget(old(store.playbackState.volume)))
  {
    store.SetVolume(MuteTarget(store.playbackState.volume));
  }
}
