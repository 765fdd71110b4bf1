/**
 * The playback window of the two editor components, src/components/NewVideoEditor/index.tsx
 * and src/components/VideoEditor/index.tsx, which hold the same three effects: a
 * slider change seeks to the window start, playback outside the window seeks back
 * to its start, and removing the file restores the defaults.
 */
module PlaybackWindow {
  import opened Wrappers
  import opened SliderTime
  import opened VideoStore

  /** `sliderValues`: the two handles of the range slider, in percent of the duration. */
  datatype SliderValues = SliderValues(min: real, max: real)

  /** The part of the player's state the effects read. */
  datatype PlayerState = PlayerState(currentTime: real, duration: real)

  /**
   * The window's first second: the left handle as whole seconds, within the video
   * when the handle is on the slider.
   */
  function MinTime(slider: SliderValues, state: PlayerState): (t: int)
    ensures t as real - 0.5 <= state.duration * slider.min / 100.0 < t as real + 0.5
    ensures 0.0 <= state.duration && 0.0 <= slider.min <= 100.0 ==> 0 <= t <= Round(state.duration)
  {
    var t := SliderValueToVideoTime(state.duration, slider.min);
    if 0.0 <= state.duration && 0.0 <= slider.min <= 100.0 then SliderTimeBounds(state.duration, slider.min); t
    else t
  }

  /**
   * The window's last second: the right handle as whole seconds, never before the
   * first when the handles are in order.
   */
  function MaxTime(slider: SliderValues, state: PlayerState): (t: int)
    ensures t as real - 0.5 <= state.duration * slider.max / 100.0 < t as real + 0.5
    ensures 0.0 <= state.duration && slider.min <= slider.max ==> MinTime(slider, state) <= t
  {
    var t := SliderValueToVideoTime(state.duration, slider.max);
    if 0.0 <= state.duration && slider.min <= slider.max then SliderTimeMonotone(state.duration, slider.min, slider.max); t
    else t
  }

  /** The seek the slider effect issues, if any: the window start, once a player and its state exist. */
  function SliderSeek(slider: SliderValues, state: Option<PlayerState>, hasPlayer: bool): (r: Option<int>)
    ensures r.Some? <==> state.Some? && hasPlayer
    ensures r.Some? ==> r.value == MinTime(slider, state.value)
  {
    if state.Some? && hasPlayer then Some(MinTime(slider, state.value)) else None
  }

  /**
   * The seeks the player-state effect issues, in order: one when playback is
   * before the window, one more when it is past the window (the loop).
   */
  function LoopSeeks(slider: SliderValues, state: Option<PlayerState>, hasPlayer: bool): (r: seq<int>)
    ensures !(state.Some? && hasPlayer) ==> r == []
    ensures forall i :: 0 <= i < |r| ==> r[i] == MinTime(slider, state.value)
    ensures state.Some? && hasPlayer ==>
      var s := state.value;
      (|r| > 0 <==> s.currentTime < MinTime(slider, s) as real || s.currentTime > MaxTime(slider, s) as real)
  {
    if state.Some? && hasPlayer then
      var s := state.value;
      var minTime := MinTime(slider, s);
      var maxTime := MaxTime(slider, s);
      (if s.currentTime < minTime as real then [minTime] else []) +
      (if s.currentTime > maxTime as real then [minTime] else [])
    else []
  }

  /**
   * With handles in order and a non-negative duration, playback before the window
   * and playback past it each cause exactly one seek to the window start, and
   * playback inside it none.
   */
  lemma {:induction false} LoopSeeksInOrderedWindow(slider: SliderValues, s: PlayerState)
    requires slider.min <= slider.max && 0.0 <= s.duration
    ensures var r := LoopSeeks(slider, Some(s), true);
      (s.currentTime < MinTime(slider, s) as real ==> r == [MinTime(slider, s)]) &&
      (s.currentTime > MaxTime(slider, s) as real ==> r == [MinTime(slider, s)]) &&
      (MinTime(slider, s) as real <= s.currentTime <= MaxTime(slider, s) as real ==> r == [])
  {
    SliderTimeMonotone(s.duration, slider.min, slider.max);
  }

  class Editor {
    var videoFile: Option<FileHandle>
    var playerState: Option<PlayerState>
    var hasPlayer: bool
    var sliderValues: SliderValues
    var gifUrl: Option<string>

    /** The `useState` initial values: no file, player or state, the whole video selected. */
    constructor ()
      ensures videoFile.None? && playerState.None? && !hasPlayer && gifUrl.None?
      ensures sliderValues == SliderValues(0.0, 100.0)
    {
      videoFile, playerState, hasPlayer, gifUrl := None, None, false, None;
      sliderValues := SliderValues(0.0, 100.0);
    }

    /** `onPlayerChange`: stores the player the video component hands over, `player` saying whether it is one or null. */
    method OnPlayerChange(player: bool)
      modifies this`hasPlayer
      ensures hasPlayer == player
    {
      hasPlayer := player;
    }

    /** Slider `onChange`, then the effect on `sliderValues`; `seek` is the call to `videoPlayer.seek`. */
    method OnSliderChange(values: SliderValues) returns (seek: Option<int>)
      modifies this`sliderValues
      ensures sliderValues == values
      ensures seek == SliderSeek(values, playerState, hasPlayer)
    {
      sliderValues := values;
      if playerState.Some? && hasPlayer {
        seek := Some(SliderValueToVideoTime(playerState.value.duration, sliderValues.min));
      } else {
        seek := None;
      }
    }

    /** Player `onChange`, then the effect on `videoPlayerState`; `seeks` are the `videoPlayer.seek` calls. */
    method OnPlayerStateChange(state: PlayerState) returns (seeks: seq<int>)
      modifies this`playerState
      ensures playerState == Some(state)
      ensures seeks == LoopSeeks(sliderValues, playerState, hasPlayer)
    {
      playerState := Some(state);
      seeks := [];
      if hasPlayer {
        var minTime := SliderValueToVideoTime(state.duration, sliderValues.min);
        var maxTime := SliderValueToVideoTime(state.duration, sliderValues.max);
        if state.currentTime < minTime as real {
          seeks := seeks + [minTime];
        }
        if state.currentTime > maxTime as real {
          seeks := seeks + [minTime];
        }
      }
    }

    /**
     * Upload `onChange` / `onRemove`, then the effect on `videoFile`: without a file
     * the player state and GIF URL are cleared and the slider is reset to [0, 100].
     */
    method OnVideoFileChange(file: Option<FileHandle>)
      modifies this`videoFile, this`playerState, this`sliderValues, this`gifUrl
      ensures videoFile == file
      ensures file.None? ==> playerState.None? && sliderValues == SliderValues(0.0, 100.0) && gifUrl.None?
      ensures file.None? ==> SliderSeek(sliderValues, playerState, hasPlayer).None?
      ensures file.Some? ==>
        playerState == old(playerState) && sliderValues == old(sliderValues) && gifUrl == old(gifUrl)
    {
      videoFile := file;
      if file.None? {
        playerState := None;
        sliderValues := SliderValues(0.0, 100.0);
        gifUrl := None;
      }
    }
  }
}
