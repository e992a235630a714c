/** One row of the items list (ui/Zaia/src/components/RowItem.js): its own
    small player, the comment box, "mark for reading" and the done flag.

    The row's handlers see the `item` prop of the render they belong to,
    so each operation takes that item as a parameter. `toggleMark` and
    `toggleDone` are the screen's, and change the screen's list. A row
    never calls its `onSoundPlay` prop. */
module RowItem {
  import opened Common
  import opened ApiService
  import opened Audio
  import opened ItemsScreen

  const ErrorPlaying := "Error playing sound"

  /** The row's state variables. */
  datatype RowState = RowState(note: string, sound: Option<SoundId>, isLoading: bool, error: Option<string>,
                               position: int, duration: int, isPlaying: bool)

  /** The row with the client, the player and the screen's list. */
  datatype RowWorld = RowWorld(row: RowState, env: Env, player: Player, data: seq<Item>)

  /** The row's `playSound()`. With a sound already held it only resumes.
      Otherwise it downloads and decodes, and plays with a callback that
      finishes the item. When the download gives nothing, the handler calls
      `release` on the null state variable and throws, so its error message
      is never set. */
  function RowPlayResult(d: Deps, w: RowWorld, item: Item): (r: RowWorld)
    ensures w.row.sound.Some? ==>
              r == w.(row := w.row.(isPlaying := true), player := PlayResult(w.player, w.row.sound.value, LogOnly))
    ensures r.data == w.data
    ensures w.row.sound.None? ==>
              r.env == DownloadResult(d.config, w.env, item.audioName).1 && !r.row.isLoading
    ensures w.row.sound.None? && DownloadResult(d.config, w.env, item.audioName).0.None? ==>
              r.row == w.row.(isLoading := false, error := None) && r.player == w.player
    ensures w.row.sound.None? && r.row.sound.None? ==> r.player.playing == w.player.playing
    ensures w.row.sound.None? && r.row.sound.Some? ==>
              r.row == w.row.(isLoading := false, error := None, sound := r.row.sound, duration := r.row.duration,
                              isPlaying := true) &&
              (Valid(w.player) ==> r.row.sound.value !in w.player.live) &&
              r.row.sound.value in r.player.playing && r.row.sound.value in r.player.onEnd &&
              r.player.onEnd[r.row.sound.value] == FinishRow(item)
    ensures w.row.sound.None? && DownloadResult(d.config, w.env, item.audioName).0.Some? ==>
              (r.row.sound.None? <==> !d.decodes(DownloadResult(d.config, w.env, item.audioName).0.value)) &&
              (r.row.sound.None? ==> r.row == w.row.(isLoading := false, error := Some(ErrorPlaying)))
    ensures Valid(w.player) ==> Valid(r.player)
  {
    match w.row.sound
    case Some(id) => w.(row := w.row.(isPlaying := true), player := PlayResult(w.player, id, LogOnly))
    case None =>
      var (path, env1) := DownloadResult(d.config, w.env, item.audioName);
      var w1 := w.(row := w.row.(isLoading := false, error := None), env := env1);
      if path.None? then w1 else RowOpenResult(d, w1, item, path.value)
  }

  /** The decode callback of the row's `playSound()`: decode the downloaded
      file and play it with a callback that finishes the item. */
  function RowOpenResult(d: Deps, w: RowWorld, item: Item, path: string): RowWorld
  {
    var (loaded, p1) := OpenResult(d.decodes, d.lengthOf, w.player, path);
    match loaded
    case None => w.(row := w.row.(error := Some(ErrorPlaying)), player := p1)
    case Some((id, length)) =>
      w.(row := w.row.(sound := Some(id), duration := length, isPlaying := true),
         player := PlayResult(p1, id, FinishRow(item)))
  }

  /** The row's `saveFinished()`: `update_done` on the item's stem, and on
      success the screen's `toggleDone` on its id. */
  function RowSaveFinishedResult(d: Deps, w: RowWorld, item: Item): (r: RowWorld)
    ensures r.row == w.row && r.player == w.player
    ensures r.env == StatusResult(d.config, w.env, "update_done/", Put, UpdateDoneBody(Stem(item))).1
    ensures r.data == if StatusResult(d.config, w.env, "update_done/", Put, UpdateDoneBody(Stem(item))).0
                      then FlipDone(w.data, item.id) else w.data
  {
    var (ok, env1) := StatusResult(d.config, w.env, "update_done/", Put, UpdateDoneBody(Stem(item)));
    w.(env := env1, data := if ok then FlipDone(w.data, item.id) else w.data)
  }

  /** The end of a track the row started: the error is set only when
      playback failed; the sound is released and the item finished either
      way. The row keeps the released sound and still shows it playing. */
  function RowTrackEndResult(d: Deps, w: RowWorld, id: SoundId, success: bool): (r: RowWorld)
    requires Valid(w.player) && id in w.player.playing && w.player.onEnd[id].FinishRow?
    ensures r.row == w.row.(error := if success then w.row.error else Some(ErrorPlaying))
    ensures id !in r.player.live && id !in r.player.playing && Valid(r.player)
    ensures r == RowSaveFinishedResult(d, r.(env := w.env, data := w.data), w.player.onEnd[id].item)
  {
    var (action, p1) := FinishResult(w.player, id);
    var row1 := w.row.(error := if success then w.row.error else Some(ErrorPlaying));
    RowSaveFinishedResult(d, RowWorld(row1, w.env, ReleaseResult(p1, id), w.data), action.item)
  }

  /** A row that finishes an item already marked done un-marks it: the
      screen's `toggleDone` flips the flag instead of setting it. */
  lemma RowFinishFlipsDone(d: Deps, w: RowWorld, id: SoundId, success: bool, k: int)
    requires Valid(w.player) && id in w.player.playing && w.player.onEnd[id].FinishRow?
    requires StatusResult(d.config, w.env, "update_done/", Put, UpdateDoneBody(Stem(w.player.onEnd[id].item))).0
    requires 0 <= k < |w.data| && w.data[k].id == w.player.onEnd[id].item.id && IsSet(w.data[k].done)
    ensures RowTrackEndResult(d, w, id, success).data[k].done == Some(false)
  {
  }

  /** The row's `pauseSound()`. */
  function RowPauseResult(w: RowWorld): (r: RowWorld)
    ensures w.row.sound.None? ==> r == w
    ensures w.row.sound.Some? ==>
              r == w.(row := w.row.(isPlaying := false), player := Audio.PauseResult(w.player, w.row.sound.value))
  {
    match w.row.sound
    case None => w
    case Some(id) => w.(row := w.row.(isPlaying := false), player := Audio.PauseResult(w.player, id))
  }

  /** The row's `closeAudio()`. */
  function RowCloseResult(w: RowWorld): (r: RowWorld)
    ensures w.row.sound.None? ==> r == w
    ensures w.row.sound.Some? ==>
              r.row == w.row.(isPlaying := false, sound := None, position := 0, duration := 0) &&
              r.env == w.env && r.data == w.data &&
              w.row.sound.value !in r.player.live && w.row.sound.value !in r.player.playing
    ensures Valid(w.player) ==> Valid(r.player)
  {
    match w.row.sound
    case None => w
    case Some(id) =>
      w.(row := w.row.(isPlaying := false, sound := None, position := 0, duration := 0),
         player := ReleaseResult(Audio.PauseResult(w.player, id), id))
  }

  /** The row's `resumePlayback()`: plays again with a callback that only
      logs, so a resumed track no longer finishes its item. */
  function RowResumeResult(w: RowWorld): (r: RowWorld)
    ensures w.row.sound.None? ==> r == w
    ensures w.row.sound.Some? ==>
              r == w.(row := w.row.(isPlaying := true), player := PlayResult(w.player, w.row.sound.value, LogOnly))
  {
    match w.row.sound
    case None => w
    case Some(id) => w.(row := w.row.(isPlaying := true), player := PlayResult(w.player, id, LogOnly))
  }

  /** The row's `handleSliderChange(value)`. */
  function RowSliderResult(w: RowWorld, value: int): (r: RowWorld)
    ensures w.row.sound.None? ==> r == w
    ensures w.row.sound.Some? ==>
              r == w.(row := w.row.(position := value), player := SeekResult(w.player, w.row.sound.value, value))
  {
    match w.row.sound
    case None => w
    case Some(id) => w.(row := w.row.(position := value), player := SeekResult(w.player, id, value))
  }

  /** Closing the row twice is closing it once. */
  lemma RowCloseIdempotent(w: RowWorld)
    ensures RowCloseResult(RowCloseResult(w)) == RowCloseResult(w)
  {
  }

  /** The comment list `saveCommentWasPressed` sends: the item's comments
      and then the note, stamped with the current time in seconds. */
  function NewComments(item: Item, note: string, now: int): (r: seq<Comment>)
    ensures |r| == |item.comments| + 1 && r[..|item.comments|] == item.comments
    ensures r[|item.comments|] == Comment(note, now)
  {
    item.comments + [Comment(note, now)]
  }

  /** `saveCommentWasPressed()`: on success the note is cleared. */
  function SaveCommentResult(d: Deps, w: RowWorld, item: Item, now: int): (r: RowWorld)
    ensures r.player == w.player && r.data == w.data
    ensures var (ok, env1) := StatusResult(d.config, w.env, "update_comment/", Put,
                                           SaveCommentBody(Stem(item), NewComments(item, w.row.note, now)));
            r.env == env1 && r.row == if ok then w.row.(note := "") else w.row
  {
    var comments := NewComments(item, w.row.note, now);
    var (ok, env1) := StatusResult(d.config, w.env, "update_comment/", Put, SaveCommentBody(Stem(item), comments));
    w.(env := env1, row := if ok then w.row.(note := "") else w.row)
  }

  /** `mark_unmark()`: sends the negation of the item's mark (an absent
      field counts as unmarked) and on success toggles it on the screen. */
  function MarkUnmarkResult(d: Deps, w: RowWorld, item: Item): (r: RowWorld)
    ensures r.row == w.row && r.player == w.player
    ensures var (ok, env1) := StatusResult(d.config, w.env, "mark_for_reading/", Put,
                                           UpdateMarkedBody(Stem(item), !IsSet(item.isMarked)));
            r.env == env1 && r.data == if ok then FlipMark(w.data, item.id) else w.data
  {
    var marked := IsSet(item.isMarked);
    var (ok, env1) := StatusResult(d.config, w.env, "mark_for_reading/", Put, UpdateMarkedBody(Stem(item), !marked));
    w.(env := env1, data := if ok then FlipMark(w.data, item.id) else w.data)
  }

  /** When the screen's copy of the item agrees with the row's, a
      successful mark sets the screen's flag to the value sent. */
  lemma MarkAgreesWithRequest(d: Deps, w: RowWorld, item: Item, k: int)
    requires 0 <= k < |w.data| && w.data[k] == item
    requires StatusResult(d.config, w.env, "mark_for_reading/", Put,
                          UpdateMarkedBody(Stem(item), !IsSet(item.isMarked))).0
    ensures MarkUnmarkResult(d, w, item).data[k].isMarked == Some(!IsSet(item.isMarked))
  {
  }

  /** The row component. `screen` owns the list the row's callbacks
      change. */
  class Row {
    const api: Client
    const audio: AudioEngine
    const screen: Screen
    var note: string
    var sound: Option<SoundId>
    var isLoading: bool
    var error: Option<string>
    var currentPosition: int
    var duration: int
    var isPlaying: bool

    constructor(api: Client, audio: AudioEngine, screen: Screen)
      ensures this.api == api && this.audio == audio && this.screen == screen
      ensures View() == RowState("", None, false, None, 0, 0, false)
    {
      this.api := api;
      this.audio := audio;
      this.screen := screen;
      note, sound, isLoading, error := "", None, false, None;
      currentPosition, duration, isPlaying := 0, 0, false;
    }

    function Collaborators(): Deps
    {
      Deps(api.config, audio.decodes, audio.lengthOf)
    }

    function View(): RowState
      reads this
    {
      RowState(note, sound, isLoading, error, currentPosition, duration, isPlaying)
    }

    function State(): RowWorld
      reads this, api, audio, screen
    {
      RowWorld(View(), api.State(), audio.State(), screen.data)
    }

    /** The screen's state other than its list. */
    function ScreenRest(): ScreenState
      reads screen
    {
      screen.View().(data := [])
    }

    /** The note typed in the comment box. */
    method SetNote(text: string)
      modifies this
      ensures View() == old(View()).(note := text)
    {
      note := text;
    }

    /** `playSound()`. */
    method PlaySound(item: Item)
      modifies this, api, audio
      ensures State() == RowPlayResult(Collaborators(), old(State()), item)
    {
      if sound.Some? {
        ResumePlayback();
        return;
      }
      isLoading, error := true, None;
      var path := api.DownloadMp3(item.audioName);
      isLoading := false;
      if path.None? {
        return;
      }
      PlayDownloaded(item, path.value);
    }

    /** The decode callback of `playSound()`. */
    method PlayDownloaded(item: Item, path: string)
      modifies this, audio
      ensures State() == RowOpenResult(Collaborators(), old(State()), item, path)
    {
      var loaded := audio.Open(path);
      if loaded.None? {
        error := Some(ErrorPlaying);
        return;
      }
      sound, duration, isPlaying := Some(loaded.value.0), loaded.value.1, true;
      audio.Play(loaded.value.0, FinishRow(item));
    }

    /** The row's `saveFinished()`. */
    method SaveFinished(item: Item)
      modifies this, api, screen
      ensures State() == RowSaveFinishedResult(Collaborators(), old(State()), item)
      ensures ScreenRest() == old(ScreenRest())
    {
      var ok := api.UpdateDone(Stem(item));
      if ok {
        screen.ToggleDone(item.id);
      }
    }

    /** The end of a track this row started. */
    method TrackEnded(id: SoundId, success: bool)
      requires Valid(audio.State()) && id in audio.playing && audio.onEnd[id].FinishRow?
      modifies this, api, audio, screen
      ensures State() == RowTrackEndResult(Collaborators(), old(State()), id, success)
      ensures ScreenRest() == old(ScreenRest())
    {
      var action := audio.Finish(id);
      if !success {
        error := Some(ErrorPlaying);
      }
      audio.Release(id);
      SaveFinished(action.item);
    }

    /** `pauseSound()`. */
    method PauseSound()
      modifies this, audio
      ensures State() == RowPauseResult(old(State()))
    {
      if sound.Some? {
        audio.Pause(sound.value);
        isPlaying := false;
      }
    }

    /** `closeAudio()`. */
    method CloseAudio()
      modifies this, audio
      ensures State() == RowCloseResult(old(State()))
    {
      if sound.Some? {
        audio.Pause(sound.value);
        audio.Release(sound.value);
        isPlaying, sound, currentPosition, duration := false, None, 0, 0;
      }
    }

    /** `resumePlayback()`. */
    method ResumePlayback()
      modifies this, audio
      ensures State() == RowResumeResult(old(State()))
    {
      if sound.Some? {
        audio.Play(sound.value, LogOnly);
        isPlaying := true;
      }
    }

    /** `handleSliderChange(value)`. */
    method HandleSliderChange(value: int)
      modifies this, audio
      ensures State() == RowSliderResult(old(State()), value)
    {
      if sound.Some? {
        audio.SetCurrentTime(sound.value, value);
        currentPosition := value;
      }
    }

    /** `saveCommentWasPressed()`; `now` is `Date.now()/1000`. */
    method SaveCommentWasPressed(item: Item, now: int)
      modifies this, api
      ensures State() == SaveCommentResult(Collaborators(), old(State()), item, now)
    {
      var ok := api.SaveComment(Stem(item), NewComments(item, note, now));
      if ok {
        note := "";
      }
    }

    /** `mark_unmark()`. */
    method MarkUnmark(item: Item)
      modifies this, api, screen
      ensures State() == MarkUnmarkResult(Collaborators(), old(State()), item)
      ensures ScreenRest() == old(ScreenRest())
    {
      var marked := IsSet(item.isMarked);
      var ok := api.UpdateMarked(Stem(item), !marked);
      if ok {
        screen.ToggleMark(item.id);
      }
    }
  }
}
