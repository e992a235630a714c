/** The items screen of the mobile client (ui/Zaia/src/screens/ItemsScreen.js):
    the list of a topic's items, "play all" over that list, and the shared
    player controls.

    "Play all" runs `playSound(i)`, which calls itself on `i + 1` to skip a
    done item, after a failed download or decode, and when a track ends. The
    recursion reads the list as it was when the queue was started (the
    closure's `data`), so the model carries that snapshot as `queue`.
    `playSound` is an async function called without `await`: after a
    failure, the call on `i + 1` runs up to its first `await` (where it sets
    `playAllDisabled`) before the failing call clears the flag. The pending
    clear is the loop's `owed` flag. */
module ItemsScreen {
  import opened Common
  import opened ApiService
  import opened Audio

  /** The id the screen sends for an item: its audio file name up to the
      first '.'. */
  function Stem(item: Item): string
  {
    BeforeFirst(item.audioName, '.')
  }

  /** The screen's state variables. */
  datatype ScreenState = ScreenState(data: seq<Item>, loading: bool, currentSound: Option<SoundId>, isPlaying: bool,
                           position: int, duration: int, currentIndex: int, playAllDisabled: bool,
                           soundLoading: bool)

  /** The screen together with the client state and the native player. */
  datatype World = World(screen: ScreenState, env: Env, player: Player)

  /** The collaborators' fixed behaviour: the server and paths, and which
      files decode with what duration. */
  datatype Deps = Deps(config: Config, decodes: string -> bool, lengthOf: string -> nat)

  /** `data.map(item => stem(item) == id ? {...item, done: true} : item)`. */
  function MarkDone(data: seq<Item>, id: string): (r: seq<Item>)
    ensures |r| == |data|
    ensures forall i :: 0 <= i < |data| && Stem(data[i]) == id ==> r[i] == data[i].(done := Some(true))
    ensures forall i :: 0 <= i < |data| && Stem(data[i]) != id ==> r[i] == data[i]
  {
    if data == [] then []
    else [if Stem(data[0]) == id then data[0].(done := Some(true)) else data[0]] + MarkDone(data[1..], id)
  }

  /** `saveFinished(id)`: `update_done(id)`, and on success every item with
      that stem is marked done in the screen's current list. */
  function SaveFinishedResult(d: Deps, w: World, id: string): (r: World)
    ensures r.player == w.player
    ensures r.screen == w.screen.(data := r.screen.data)
    ensures r.env == StatusResult(d.config, w.env, "update_done/", Put, UpdateDoneBody(id)).1
    ensures StatusResult(d.config, w.env, "update_done/", Put, UpdateDoneBody(id)).0 ==>
              r.screen.data == MarkDone(w.screen.data, id)
    ensures !StatusResult(d.config, w.env, "update_done/", Put, UpdateDoneBody(id)).0 ==>
              r.screen.data == w.screen.data
  {
    var (ok, env1) := StatusResult(d.config, w.env, "update_done/", Put, UpdateDoneBody(id));
    World(w.screen.(data := if ok then MarkDone(w.screen.data, id) else w.screen.data), env1, w.player)
  }

  /** The queue is playing item `j` of `queue`: the screen holds the sound,
      shows it playing, and the sound's end callback advances from `j`. */
  predicate PlayingAt(w: World, queue: seq<Item>, j: int)
  {
    w.screen.currentSound.Some? && w.screen.isPlaying && w.screen.currentIndex == j &&
    0 <= j < |queue| && !IsSet(queue[j].done) &&
    w.screen.currentSound.value in w.player.playing &&
    w.screen.currentSound.value in w.player.onEnd &&
    w.player.onEnd[w.screen.currentSound.value] == AdvanceQueue(j, queue)
  }

  /** The player fields of the screen other than the "play all" flags. */
  function Controls(s: ScreenState): (Option<SoundId>, bool, int, int)
  {
    (s.currentSound, s.isPlaying, s.currentIndex, s.duration)
  }

  /** A call of `playSound` on `item` in world `w` fails: the download
      gives no file, or the file it gives does not decode. */
  predicate Fails(d: Deps, w: World, item: Item)
  {
    var path := DownloadResult(d.config, w.env, item.audioName).0;
    path.None? || !d.decodes(path.value)
  }

  /** One call of `playSound(i)` on an item that is not done, up to the
      point where it either starts the sound or hands over to `i + 1`; the
      flag says it failed. The call sets `playAllDisabled`, and an owed clear
      from a failed earlier call lands right after. */
  function PlayStep(d: Deps, w: World, queue: seq<Item>, i: nat, owed: bool): (out: (World, bool))
    requires i < |queue|
    ensures out.0.screen == w.screen.(playAllDisabled := !owed, soundLoading := false) ||
            (!out.1 && out.0.screen == w.screen.(playAllDisabled := !owed, soundLoading := false,
                                                 currentSound := out.0.screen.currentSound,
                                                 duration := out.0.screen.duration, isPlaying := true,
                                                 currentIndex := i))
    ensures DownloadResult(d.config, w.env, queue[i].audioName).0.None? ==> out.1
    ensures out.1 <==> Fails(d, w, queue[i])
    ensures out.1 ==> out.0 == World(w.screen.(playAllDisabled := !owed, soundLoading := false),
                                     DownloadResult(d.config, w.env, queue[i].audioName).1, w.player)
    ensures out.0.env == DownloadResult(d.config, w.env, queue[i].audioName).1
    ensures out.1 ==> Controls(out.0.screen) == Controls(w.screen)
    ensures !out.1 && !IsSet(queue[i].done) ==> PlayingAt(out.0, queue, i)
    ensures Valid(w.player) ==> Valid(out.0.player)
    ensures w.player.playing <= out.0.player.playing && w.player.live <= out.0.player.live
    ensures w.player.nextId <= out.0.player.nextId
    ensures forall x :: x in out.0.player.live && x !in w.player.live ==> x >= w.player.nextId
  {
    var (path, env1) := DownloadResult(d.config, w.env, queue[i].audioName);
    var s1 := w.screen.(playAllDisabled := !owed, soundLoading := false);
    if path.None? then (World(s1, env1, w.player), true)
    else LoadStep(d, World(s1, env1, w.player), queue, i, path.value)
  }

  /** The part of a call of `playSound(i)` after a successful download:
      decode the file, and on success make it the current sound and play it
      with the callback that advances the queue. */
  function LoadStep(d: Deps, w: World, queue: seq<Item>, i: nat, path: string): (out: (World, bool))
    requires i < |queue|
    ensures out.0.env == w.env
    ensures out.1 <==> !d.decodes(path)
    ensures out.1 ==> out.0 == w
    ensures !out.1 ==> out.0.screen == w.screen.(currentSound := out.0.screen.currentSound,
                                                 duration := out.0.screen.duration, isPlaying := true,
                                                 currentIndex := i)
    ensures !out.1 && !IsSet(queue[i].done) ==> PlayingAt(out.0, queue, i)
    ensures Valid(w.player) ==> Valid(out.0.player)
    ensures w.player.playing <= out.0.player.playing && w.player.live <= out.0.player.live
    ensures w.player.nextId <= out.0.player.nextId
    ensures forall x :: x in out.0.player.live && x !in w.player.live ==> x >= w.player.nextId
  {
    var (loaded, p1) := OpenResult(d.decodes, d.lengthOf, w.player, path);
    if loaded.None? then (w.(player := p1), true)
    else
      var id := loaded.value.0;
      (World(w.screen.(currentSound := Some(id), duration := loaded.value.1, isPlaying := true, currentIndex := i),
             w.env, PlayResult(p1, id, AdvanceQueue(i, queue))), false)
  }

  /** `playSound(i)` over `queue`, up to the point where a sound starts
      playing or the queue is exhausted; `owed` is a clear of
      `playAllDisabled` still to land from a failed earlier call. */
  function PlayFrom(d: Deps, w: World, queue: seq<Item>, i: nat, owed: bool): (r: World)
    ensures r.screen.data == w.screen.data && r.screen.loading == w.screen.loading &&
            r.screen.position == w.screen.position
    ensures i >= |queue| && !owed ==> r == w
    ensures Valid(w.player) ==> Valid(r.player)
    ensures w.player.playing <= r.player.playing && w.player.live <= r.player.live
    ensures w.player.nextId <= r.player.nextId
    ensures forall x :: x in r.player.live && x !in w.player.live ==> x >= w.player.nextId
    ensures w.env.sent <= r.env.sent
    decreases |queue| - i
  {
    if i >= |queue| then
      if owed then w.(screen := w.screen.(playAllDisabled := false)) else w
    else if IsSet(queue[i].done) then
      PlayFrom(d, w, queue, i + 1, owed)
    else
      var (w1, failed) := PlayStep(d, w, queue, i, owed);
      if failed then PlayFrom(d, w1, queue, i + 1, true) else w1
  }

  /** How a run ends: over items that are all done it only lands the owed
      clear; otherwise it leaves one of the items from `i` on playing, or
      the controls as they were. */
  lemma {:induction false} PlayFromEnds(d: Deps, w: World, queue: seq<Item>, i: nat, owed: bool)
    ensures var r := PlayFrom(d, w, queue, i, owed);
            ((forall j :: i <= j < |queue| ==> IsSet(queue[j].done)) ==>
               r == (if owed then w.(screen := w.screen.(playAllDisabled := false)) else w)) &&
            ((exists j :: i <= j < |queue| && PlayingAt(r, queue, j)) || Controls(r.screen) == Controls(w.screen))
    decreases |queue| - i
  {
    if i < |queue| {
      if IsSet(queue[i].done) {
        PlayFromEnds(d, w, queue, i + 1, owed);
      } else {
        var (w1, failed) := PlayStep(d, w, queue, i, owed);
        if failed {
          PlayFromEnds(d, w1, queue, i + 1, true);
        }
      }
    }
  }

  /** `{...item, is_marked: !item.is_marked}`: an absent field reads as false. */
  function Flip(b: Option<bool>): Option<bool>
  {
    Some(!IsSet(b))
  }

  /** `toggleMark(id)`: flips `is_marked` on the items with that `_id`. */
  function FlipMark(data: seq<Item>, id: string): (r: seq<Item>)
    ensures |r| == |data|
    ensures forall i :: 0 <= i < |data| ==>
              r[i] == if data[i].id == id then data[i].(isMarked := Some(!IsSet(data[i].isMarked))) else data[i]
  {
    if data == [] then []
    else [if data[0].id == id then data[0].(isMarked := Flip(data[0].isMarked)) else data[0]] + FlipMark(data[1..], id)
  }

  /** `toggleDone(id)`: flips `done` on the items with that `_id`. */
  function FlipDone(data: seq<Item>, id: string): (r: seq<Item>)
    ensures |r| == |data|
    ensures forall i :: 0 <= i < |data| ==>
              r[i] == if data[i].id == id then data[i].(done := Some(!IsSet(data[i].done))) else data[i]
  {
    if data == [] then []
    else [if data[0].id == id then data[0].(done := Flip(data[0].done)) else data[0]] + FlipDone(data[1..], id)
  }

  /** Toggling twice restores the list when the matching items carry the
      field. */
  lemma FlipTwice(data: seq<Item>, id: string)
    requires forall i :: 0 <= i < |data| && data[i].id == id ==> data[i].isMarked.Some? && data[i].done.Some?
    ensures FlipMark(FlipMark(data, id), id) == data
    ensures FlipDone(FlipDone(data, id), id) == data
  {
    var once, twice := FlipMark(data, id), FlipMark(FlipMark(data, id), id);
    forall i | 0 <= i < |data|
      ensures twice[i] == data[i]
    {
      assert once[i].id == data[i].id;
      if data[i].id == id {
        assert once[i].isMarked == Some(!data[i].isMarked.value);
        assert twice[i] == data[i].(isMarked := Some(data[i].isMarked.value));
      }
    }
    var doneOnce, doneTwice := FlipDone(data, id), FlipDone(FlipDone(data, id), id);
    forall i | 0 <= i < |data|
      ensures doneTwice[i] == data[i]
    {
      assert doneOnce[i].id == data[i].id;
      if data[i].id == id {
        assert doneOnce[i].done == Some(!data[i].done.value);
        assert doneTwice[i] == data[i].(done := Some(data[i].done.value));
      }
    }
  }

  /** An item without `is_marked` comes back from two toggles with the
      field set to false: twice is the identity only on present fields. */
  lemma FlipTwiceAbsent(item: Item)
    requires item.isMarked.None?
    ensures FlipMark(FlipMark([item], item.id), item.id) == [item.(isMarked := Some(false))]
  {
  }

  /** `closeAudio()`. */
  function CloseAudioResult(w: World): (r: World)
    ensures w.screen.currentSound.None? ==> r == w
    ensures w.screen.currentSound.Some? ==>
              r.screen == w.screen.(isPlaying := false, currentSound := None, position := 0, duration := 0,
                                    playAllDisabled := false) &&
              r.env == w.env &&
              w.screen.currentSound.value !in r.player.live && w.screen.currentSound.value !in r.player.playing &&
              r.player.live == w.player.live - {w.screen.currentSound.value}
    ensures Valid(w.player) ==> Valid(r.player)
  {
    match w.screen.currentSound
    case None => w
    case Some(id) =>
      World(w.screen.(isPlaying := false, currentSound := None, position := 0, duration := 0, playAllDisabled := false),
            w.env, ReleaseResult(Audio.PauseResult(w.player, id), id))
  }

  /** Closing twice is closing once. */
  lemma CloseIdempotent(w: World)
    ensures CloseAudioResult(CloseAudioResult(w)) == CloseAudioResult(w)
  {
  }

  /** `pausePlayback()`. */
  function PausePlaybackResult(w: World): (r: World)
    ensures w.screen.currentSound.None? ==> r == w
    ensures w.screen.currentSound.Some? ==>
              r.screen == w.screen.(isPlaying := false) && r.env == w.env &&
              r.player == Audio.PauseResult(w.player, w.screen.currentSound.value)
  {
    match w.screen.currentSound
    case None => w
    case Some(id) => w.(screen := w.screen.(isPlaying := false), player := Audio.PauseResult(w.player, id))
  }

  /** `resumePlayback()`: plays again with a callback that only logs. */
  function ResumePlaybackResult(w: World): (r: World)
    ensures w.screen.currentSound.None? ==> r == w
    ensures w.screen.currentSound.Some? ==>
              r.screen == w.screen.(isPlaying := true) && r.env == w.env &&
              r.player == PlayResult(w.player, w.screen.currentSound.value, LogOnly)
  {
    match w.screen.currentSound
    case None => w
    case Some(id) => w.(screen := w.screen.(isPlaying := true), player := PlayResult(w.player, id, LogOnly))
  }

  /** Pausing and resuming a queued track replaces its end callback: when it
      ends, nothing is marked done and the queue does not advance. */
  lemma PauseResumeStopsQueue(w: World, queue: seq<Item>, j: int)
    requires PlayingAt(w, queue, j)
    requires w.screen.currentSound.value in w.player.live
    ensures var r := ResumePlaybackResult(PausePlaybackResult(w));
            r.screen.isPlaying && r.player.onEnd[w.screen.currentSound.value] == LogOnly
  {
  }

  /** `handleSliderChange(value)`. */
  function SliderChangeResult(w: World, value: int): (r: World)
    ensures w.screen.currentSound.None? ==> r == w
    ensures w.screen.currentSound.Some? ==>
              r.screen == w.screen.(position := value) && r.env == w.env &&
              r.player == SeekResult(w.player, w.screen.currentSound.value, value)
  {
    match w.screen.currentSound
    case None => w
    case Some(id) => w.(screen := w.screen.(position := value), player := SeekResult(w.player, id, value))
  }

  /** `playAll()`: stops the current sound (without releasing it) and runs
      the queue from 0 over the current list, from the stop callback. A
      released sound never calls that callback, so then nothing starts. */
  function PlayAllResult(d: Deps, w: World): (r: World)
    ensures w.screen.currentSound.None? ==> r == PlayFrom(d, w, w.screen.data, 0, false)
    ensures w.screen.currentSound.Some? && w.screen.currentSound.value !in w.player.live ==> r == w
    ensures w.screen.currentSound.Some? && w.screen.currentSound.value in w.player.live ==>
              r == PlayFrom(d, w.(player := StopResult(w.player, w.screen.currentSound.value)), w.screen.data, 0, false) &&
              w.screen.currentSound.value in r.player.live
  {
    match w.screen.currentSound
    case None => PlayFrom(d, w, w.screen.data, 0, false)
    case Some(id) =>
      if id in w.player.live then PlayFrom(d, w.(player := StopResult(w.player, id)), w.screen.data, 0, false)
      else w
  }

  /** `playNext()`: marks the current item done, stops the current sound and
      continues from the next index over the current list. With an index
      past the list, reading the item throws and nothing else happens. */
  function PlayNextResult(d: Deps, w: World): (r: World)
    ensures w.screen.currentSound.None? ==> r == w
    ensures w.screen.currentSound.Some? && !(0 <= w.screen.currentIndex < |w.screen.data|) ==> r == w
    ensures w.screen.currentSound.Some? && 0 <= w.screen.currentIndex < |w.screen.data| ==>
              var saved := SaveFinishedResult(d, w, Stem(w.screen.data[w.screen.currentIndex]));
              r == StopAndPlayFromResult(d, saved, w.screen.currentSound.value, w.screen.data,
                                         w.screen.currentIndex + 1)
    ensures w.screen.currentSound.Some? && 0 <= w.screen.currentIndex < |w.screen.data| ==>
              (exists j :: w.screen.currentIndex < j < |w.screen.data| && PlayingAt(r, w.screen.data, j)) ||
              Controls(r.screen) == Controls(w.screen)
  {
    match w.screen.currentSound
    case None => w
    case Some(id) =>
      if !(0 <= w.screen.currentIndex < |w.screen.data|) then w
      else
        var saved := SaveFinishedResult(d, w, Stem(w.screen.data[w.screen.currentIndex]));
        PlayFromEnds(d, saved.(player := StopResult(saved.player, id)), w.screen.data, w.screen.currentIndex + 1, false);
        StopAndPlayFromResult(d, saved, id, w.screen.data, w.screen.currentIndex + 1)
  }

  /** The end of `playNext()`: when the current sound is still loaded it is
      stopped and the queue continues from index `next`. */
  function StopAndPlayFromResult(d: Deps, w: World, id: SoundId, queue: seq<Item>, next: nat): World
  {
    if id in w.player.live then PlayFrom(d, w.(player := StopResult(w.player, id)), queue, next, false) else w
  }

  /** The end of a queued track: the sound is released, its item is marked
      done and the queue continues from the next index; the success flag is
      only logged. */
  function QueueTrackEndResult(d: Deps, w: World, id: SoundId): (r: World)
    requires Valid(w.player) && id in w.player.playing && w.player.onEnd[id].AdvanceQueue?
    ensures id !in r.player.live
    ensures var a := w.player.onEnd[id];
            a.index < |a.queue| ==>
              (exists j :: a.index < j < |a.queue| && PlayingAt(r, a.queue, j)) ||
              Controls(r.screen) == Controls(w.screen)
    ensures Valid(r.player)
  {
    var (action, p1) := FinishResult(w.player, id);
    var w1 := w.(player := ReleaseResult(p1, id));
    if action.index < |action.queue| then
      var w2 := SaveFinishedResult(d, w1, Stem(action.queue[action.index]));
      PlayFromEnds(d, w2, action.queue, action.index + 1, false);
      PlayFrom(d, w2, action.queue, action.index + 1, false)
    else w1
  }

  /** What the end of a queued track does, whatever the success flag: the
      sound is released; when it came from the queue, `update_done` is sent
      for the item's stem first, the screen's list is marked done exactly
      when that request succeeds, and the queue then runs from the next
      index over that saved state. */
  lemma QueueTrackEndSavesAndAdvances(d: Deps, w: World, id: SoundId)
    requires Valid(w.player) && id in w.player.playing && w.player.onEnd[id].AdvanceQueue?
    ensures var a := w.player.onEnd[id];
            var r := QueueTrackEndResult(d, w, id);
            (a.index >= |a.queue| ==> r == w.(player := ReleaseResult(w.player, id))) &&
            (a.index < |a.queue| ==>
               var stem := Stem(a.queue[a.index]);
               var (ok, env1) := StatusResult(d.config, w.env, "update_done/", Put, UpdateDoneBody(stem));
               var saved := World(w.screen.(data := if ok then MarkDone(w.screen.data, stem) else w.screen.data),
                                  env1, ReleaseResult(w.player, id));
               r == PlayFrom(d, saved, a.queue, a.index + 1, false) && r.screen.data == saved.screen.data &&
               env1.sent <= r.env.sent &&
               (Authenticated(w.env) ==>
                  |r.env.sent| > |w.env.sent| &&
                  r.env.sent[|w.env.sent|] ==
                    Request(d.config.apiUrl + "/update_done/", Put,
                            JsonContent[Authorization := Bearer(w.env.store.value.accessToken)],
                            JsonBody(UpdateDoneBody(stem)))))
  {
    var (action, p1) := FinishResult(w.player, id);
    assert ReleaseResult(p1, id) == ReleaseResult(w.player, id);
  }

  /** When every item after the one that ended is done, the run stops with
      `playAllDisabled` as it was: a queue that finishes naturally leaves
      "play all" disabled. */
  lemma QueueEndKeepsDisabled(d: Deps, w: World, id: SoundId)
    requires Valid(w.player) && id in w.player.playing && w.player.onEnd[id].AdvanceQueue?
    requires var a := w.player.onEnd[id];
             a.index < |a.queue| && forall j :: a.index < j < |a.queue| ==> IsSet(a.queue[j].done)
    ensures QueueTrackEndResult(d, w, id).screen.playAllDisabled == w.screen.playAllDisabled
    ensures Controls(QueueTrackEndResult(d, w, id).screen) == Controls(w.screen)
  {
    var (action, p1) := FinishResult(w.player, id);
    var w1 := w.(player := ReleaseResult(p1, id));
    var w2 := SaveFinishedResult(d, w1, Stem(action.queue[action.index]));
    PlayFromEnds(d, w2, action.queue, action.index + 1, false);
  }

  /** A first call on an item that loads makes it the playing item and
      disables "play all". */
  lemma StartDisablesPlayAll(d: Deps, w: World, queue: seq<Item>, i: nat)
    requires i < |queue| && !IsSet(queue[i].done)
    requires DownloadResult(d.config, w.env, queue[i].audioName).0.Some?
    requires d.decodes(DownloadResult(d.config, w.env, queue[i].audioName).0.value)
    ensures PlayingAt(PlayFrom(d, w, queue, i, false), queue, i)
    ensures PlayFrom(d, w, queue, i, false).screen.playAllDisabled
  {
  }

  /** Done items are skipped without a request and without touching the
      screen or the player: the run from `i` is the run from the first
      item at or after `i` that is not done. */
  lemma {:induction false} PlayFromSkipsDone(d: Deps, w: World, queue: seq<Item>, i: nat, j: nat, owed: bool)
    requires i <= j <= |queue|
    requires forall k :: i <= k < j ==> IsSet(queue[k].done)
    ensures PlayFrom(d, w, queue, i, owed) == PlayFrom(d, w, queue, j, owed)
    decreases j - i
  {
    if i < j {
      PlayFromSkipsDone(d, w, queue, i + 1, j, owed);
    }
  }

  /** The queue plays the first item at or after `i` that is not done when
      it downloads and decodes: the only request of the run is that item's
      download, and the item is left playing with its advancing callback. */
  lemma PlayFromStartsFirstPlayable(d: Deps, w: World, queue: seq<Item>, i: nat, j: nat, owed: bool)
    requires i <= j < |queue| && !IsSet(queue[j].done)
    requires forall k :: i <= k < j ==> IsSet(queue[k].done)
    requires DownloadResult(d.config, w.env, queue[j].audioName).0.Some?
    requires d.decodes(DownloadResult(d.config, w.env, queue[j].audioName).0.value)
    ensures var r := PlayFrom(d, w, queue, i, owed);
            PlayingAt(r, queue, j) && r.env == DownloadResult(d.config, w.env, queue[j].audioName).1 &&
            r.screen.playAllDisabled == !owed
  {
    PlayFromSkipsDone(d, w, queue, i, j, owed);
  }

  /** The world and owed clear after calls on items `i` to `j - 1` each of
      which hands over to the next: a done item is skipped untouched, and a
      failing call sets the flags, keeps its download's client state and
      owes a clear. `None` when one of them neither is done nor fails. */
  function PassOver(d: Deps, w: World, queue: seq<Item>, i: nat, j: nat, owed: bool): Option<(World, bool)>
    requires i <= j <= |queue|
    decreases j - i
  {
    if i == j then Some((w, owed))
    else if IsSet(queue[i].done) then PassOver(d, w, queue, i + 1, j, owed)
    else if !Fails(d, w, queue[i]) then None
    else
      var s1 := w.screen.(playAllDisabled := !owed, soundLoading := false);
      PassOver(d, World(s1, DownloadResult(d.config, w.env, queue[i].audioName).1, w.player), queue, i + 1, j, true)
  }

  /** Passing over items owes a clear exactly when one was owed before or
      one of them was not done, and so failed. */
  lemma {:induction false} PassOverOwes(d: Deps, w: World, queue: seq<Item>, i: nat, j: nat, owed: bool)
    requires i <= j <= |queue| && PassOver(d, w, queue, i, j, owed).Some?
    ensures PassOver(d, w, queue, i, j, owed).value.1 <==> owed || exists k :: i <= k < j && !IsSet(queue[k].done)
    decreases j - i
  {
    if i < j {
      if IsSet(queue[i].done) {
        PassOverOwes(d, w, queue, i + 1, j, owed);
      } else {
        var s1 := w.screen.(playAllDisabled := !owed, soundLoading := false);
        PassOverOwes(d, World(s1, DownloadResult(d.config, w.env, queue[i].audioName).1, w.player), queue, i + 1, j, true);
      }
    }
  }

  /** The queue goes on past done items and past failed downloads and
      decodes: the run from `i` is the run from `j` on the world they leave,
      and a clear is owed from there exactly when one was owed before or one
      of them was not done (and so failed). */
  lemma PlayFromPassesOver(d: Deps, w: World, queue: seq<Item>, i: nat, j: nat, owed: bool)
    requires i <= j <= |queue| && PassOver(d, w, queue, i, j, owed).Some?
    ensures var (wj, owedj) := PassOver(d, w, queue, i, j, owed).value;
            PlayFrom(d, w, queue, i, owed) == PlayFrom(d, wj, queue, j, owedj) &&
            (owedj <==> owed || exists k :: i <= k < j && !IsSet(queue[k].done))
  {
    PassOverRun(d, w, queue, i, j, owed);
    PassOverOwes(d, w, queue, i, j, owed);
  }

  /** The induction behind `PlayFromPassesOver`: each passed item is one
      step of `playSound` that hands over to the next. */
  lemma {:induction false} PassOverRun(d: Deps, w: World, queue: seq<Item>, i: nat, j: nat, owed: bool)
    requires i <= j <= |queue| && PassOver(d, w, queue, i, j, owed).Some?
    ensures PlayFrom(d, w, queue, i, owed) ==
            PlayFrom(d, PassOver(d, w, queue, i, j, owed).value.0, queue, j, PassOver(d, w, queue, i, j, owed).value.1)
    decreases j - i
  {
    if i < j && !IsSet(queue[i].done) {
      PassOverRun(d, PlayStep(d, w, queue, i, owed).0, queue, i + 1, j, true);
    } else if i < j {
      PassOverRun(d, w, queue, i + 1, j, owed);
    }
  }

  /** After items that are done or fail, the first item that downloads and
      decodes is left playing with its advancing callback; "play all" is
      enabled exactly when a clear was owed or one of the earlier items
      failed. */
  lemma PlayFromStartsAfterFailures(d: Deps, w: World, queue: seq<Item>, i: nat, j: nat, owed: bool)
    requires i <= j < |queue| && !IsSet(queue[j].done) && PassOver(d, w, queue, i, j, owed).Some?
    requires !Fails(d, PassOver(d, w, queue, i, j, owed).value.0, queue[j])
    ensures var wj := PassOver(d, w, queue, i, j, owed).value.0;
            var r := PlayFrom(d, w, queue, i, owed);
            PlayingAt(r, queue, j) && r.env == DownloadResult(d.config, wj.env, queue[j].audioName).1 &&
            (r.screen.playAllDisabled <==> !owed && forall k :: i <= k < j ==> IsSet(queue[k].done))
  {
    PlayFromPassesOver(d, w, queue, i, j, owed);
  }

  /** When every item from `i` is done or fails, the run ends with the
      player controls of the world they leave and "play all" enabled
      exactly when a clear was owed or one of them failed. */
  lemma PlayFromRunsOut(d: Deps, w: World, queue: seq<Item>, i: nat, owed: bool)
    requires i <= |queue| && PassOver(d, w, queue, i, |queue|, owed).Some?
    ensures var (wn, owedn) := PassOver(d, w, queue, i, |queue|, owed).value;
            var r := PlayFrom(d, w, queue, i, owed);
            r == (if owedn then wn.(screen := wn.screen.(playAllDisabled := false)) else wn) &&
            (owedn <==> owed || exists k :: i <= k < |queue| && !IsSet(queue[k].done))
  {
    PlayFromPassesOver(d, w, queue, i, |queue|, owed);
  }

  /** Once a clear is owed, the run ends with "play all" enabled: every
      later call sets the flag before the owed clear lands, and a failing
      one owes a clear again. */
  lemma {:induction false} OwedClearLands(d: Deps, w: World, queue: seq<Item>, i: nat)
    ensures !PlayFrom(d, w, queue, i, true).screen.playAllDisabled
    decreases |queue| - i
  {
    if i < |queue| {
      if IsSet(queue[i].done) {
        OwedClearLands(d, w, queue, i + 1);
      } else {
        var (w1, failed) := PlayStep(d, w, queue, i, true);
        if failed {
          OwedClearLands(d, w1, queue, i + 1);
        }
      }
    }
  }

  /** After a failed download the next call sets the flag and the failed
      call then clears it: whatever plays next plays with "play all"
      enabled, and a queue that runs out leaves it enabled. */
  lemma FailureEnablesPlayAll(d: Deps, w: World, queue: seq<Item>, i: nat)
    requires i < |queue| && !IsSet(queue[i].done)
    requires DownloadResult(d.config, w.env, queue[i].audioName).0.None?
    ensures !PlayFrom(d, w, queue, i, false).screen.playAllDisabled
  {
    OwedClearLands(d, PlayStep(d, w, queue, i, false).0, queue, i + 1);
  }

  /** `fetchData(...)`: the fetched list replaces the current one only when
      it is not empty. */
  function FetchDataResult(d: Deps, w: World, endpoint: string): (r: World)
    ensures r.player == w.player && !r.screen.loading
    ensures r.screen == w.screen.(data := r.screen.data, loading := false)
    ensures r.env == ItemsResult(d.config, w.env, endpoint).1
    ensures r.screen.data == (if ItemsResult(d.config, w.env, endpoint).0 == [] then w.screen.data
                              else ItemsResult(d.config, w.env, endpoint).0)
  {
    var (items, env1) := ItemsResult(d.config, w.env, endpoint);
    World(w.screen.(data := if |items| > 0 then items else w.screen.data, loading := false), env1, w.player)
  }

  /** `rowItemWasDeleted(index)`: closes the player when the deleted row is
      at or after the current index, and refetches in every case. */
  function RowDeletedResult(d: Deps, w: World, index: int, endpoint: string): (r: World)
    ensures index >= w.screen.currentIndex ==> r == FetchDataResult(d, CloseAudioResult(w), endpoint)
    ensures index < w.screen.currentIndex ==> r == FetchDataResult(d, w, endpoint)
    ensures index >= w.screen.currentIndex ==> r.screen.currentSound.None?
    ensures index >= w.screen.currentIndex && w.screen.currentSound.Some? ==> !r.screen.playAllDisabled
  {
    FetchDataResult(d, if index >= w.screen.currentIndex then CloseAudioResult(w) else w, endpoint)
  }

  /** The screen component with its state variables. `api` and `audio` are
      the service module and the sound library it calls. */
  class Screen {
    const api: Client
    const audio: AudioEngine
    const topic: TopicParam
    const forReading: bool
    const onlyWithComments: bool
    const username: string
    var searchTerm: string
    var data: seq<Item>
    var loading: bool
    var currentSound: Option<SoundId>
    var isPlaying: bool
    var currentPosition: int
    var duration: int
    var currentIndex: int
    var playAllDisabled: bool
    var soundLoading: bool
    /** Set only through the rows' `onSoundPlay` prop, which no row calls. */
    var rowsCurrentSound: Option<SoundId>

    constructor(api: Client, audio: AudioEngine, topic: TopicParam, forReading: bool, onlyWithComments: bool,
                username: string)
      ensures this.api == api && this.audio == audio && this.topic == topic && this.forReading == forReading &&
              this.onlyWithComments == onlyWithComments && this.username == username
      ensures View() == ScreenState([], true, None, false, 0, 0, 0, false, false)
      ensures searchTerm == "" && rowsCurrentSound.None?
    {
      this.api := api;
      this.audio := audio;
      this.topic := topic;
      this.forReading := forReading;
      this.onlyWithComments := onlyWithComments;
      this.username := username;
      searchTerm := "";
      data, loading, currentSound, isPlaying := [], true, None, false;
      currentPosition, duration, currentIndex := 0, 0, 0;
      playAllDisabled, soundLoading, rowsCurrentSound := false, false, None;
    }

    function Collaborators(): Deps
    {
      Deps(api.config, audio.decodes, audio.lengthOf)
    }

    function View(): ScreenState
      reads this
    {
      ScreenState(data, loading, currentSound, isPlaying, currentPosition, duration, currentIndex,
                  playAllDisabled, soundLoading)
    }

    function State(): World
      reads this, api, audio
    {
      World(View(), api.State(), audio.State())
    }

    function ItemsQuery(): string
      reads this
    {
      ItemsEndpoint(topic, searchTerm, forReading, onlyWithComments, username)
    }

    /** `fetchData(topicId, searchTerm, for_reading, only_with_comments)`. */
    method FetchData()
      modifies this, api
      ensures State() == FetchDataResult(Collaborators(), old(State()), old(ItemsQuery()))
      ensures unchanged(this`searchTerm, this`rowsCurrentSound)
    {
      ghost var before := State();
      loading := true;
      ghost var fetched := ItemsResult(api.config, api.State(), ItemsQuery());
      var items := api.FetchItems(topic, searchTerm, forReading, onlyWithComments, username);
      assert (items, api.State()) == fetched;
      if |items| > 0 {
        data := items;
      }
      loading := false;
    }

    /** `saveFinished(id)`. */
    method SaveFinished(id: string)
      modifies this, api
      ensures State() == SaveFinishedResult(Collaborators(), old(State()), id)
      ensures unchanged(this`searchTerm, this`rowsCurrentSound)
    {
      var ok := api.UpdateDone(id);
      if ok {
        data := MarkDone(data, id);
      }
    }

    /** One call of `playSound(i)` on an item that is not done: returns
        whether it failed and hands over to `playSound(i + 1)`. */
    method PlayItem(queue: seq<Item>, i: nat, owed: bool) returns (failed: bool)
      requires i < |queue|
      modifies this, api, audio
      ensures (State(), failed) == PlayStep(Collaborators(), old(State()), queue, i, owed)
      ensures unchanged(this`searchTerm, this`rowsCurrentSound)
    {
      playAllDisabled := true;
      soundLoading := true;
      if owed {
        playAllDisabled := false;
      }
      var path := api.DownloadMp3(queue[i].audioName);
      soundLoading := false;
      if path.None? {
        return true;
      }
      failed := LoadItem(queue, i, path.value);
    }

    /** The decode callback of `playSound(i)`. */
    method LoadItem(queue: seq<Item>, i: nat, path: string) returns (failed: bool)
      requires i < |queue|
      modifies this, audio
      ensures (State(), failed) == LoadStep(Collaborators(), old(State()), queue, i, path)
      ensures unchanged(this`searchTerm, this`rowsCurrentSound, this`playAllDisabled, this`soundLoading)
    {
      var loaded := audio.Open(path);
      if loaded.None? {
        return true;
      }
      currentSound, duration, isPlaying, currentIndex := Some(loaded.value.0), loaded.value.1, true, i;
      audio.Play(loaded.value.0, AdvanceQueue(i, queue));
      return false;
    }

    /** `playSound(index)` over `queue`; the self-calls become iterations
        with a strictly increasing index. */
    method PlaySound(queue: seq<Item>, index: nat)
      modifies this, api, audio
      ensures State() == PlayFrom(Collaborators(), old(State()), queue, index, false)
      ensures unchanged(this`searchTerm, this`rowsCurrentSound)
    {
      var i := index;
      var owed := false;
      while i < |queue|
        invariant PlayFrom(Collaborators(), old(State()), queue, index, false) ==
                  PlayFrom(Collaborators(), State(), queue, i, owed)
        invariant unchanged(this`searchTerm, this`rowsCurrentSound)
        decreases |queue| - i
      {
        if !IsSet(queue[i].done) {
          var failed := PlayItem(queue, i, owed);
          if !failed {
            return;
          }
          owed := true;
        }
        i := i + 1;
      }
      if owed {
        playAllDisabled := false;
      }
    }

    /** `playAll()`; the button is disabled while `playAllDisabled`. */
    method PlayAll()
      requires !playAllDisabled
      modifies this, api, audio
      ensures State() == PlayAllResult(Collaborators(), old(State()))
      ensures unchanged(this`searchTerm, this`rowsCurrentSound)
    {
      if currentSound.Some? {
        if currentSound.value in audio.live {
          audio.Stop(currentSound.value);
          PlaySound(data, 0);
        }
      } else {
        PlaySound(data, 0);
      }
    }

    /** `playNext()`. */
    method PlayNext()
      modifies this, api, audio
      ensures State() == PlayNextResult(Collaborators(), old(State()))
      ensures unchanged(this`searchTerm, this`rowsCurrentSound)
    {
      if currentSound.Some? && 0 <= currentIndex < |data| {
        var queue, id := data, currentSound.value;
        SaveFinished(Stem(data[currentIndex]));
        StopAndPlayFrom(queue, id, currentIndex + 1);
      }
    }

    /** The end of `playNext()`, after the current item was marked done. */
    method StopAndPlayFrom(queue: seq<Item>, id: SoundId, next: nat)
      modifies this, api, audio
      ensures State() == StopAndPlayFromResult(Collaborators(), old(State()), id, queue, next)
      ensures unchanged(this`searchTerm, this`rowsCurrentSound)
    {
      if id in audio.live {
        audio.Stop(id);
        PlaySound(queue, next);
      }
    }

    /** `pausePlayback()`. */
    method PausePlayback()
      modifies this, audio
      ensures State() == PausePlaybackResult(old(State()))
      ensures unchanged(this`searchTerm, this`rowsCurrentSound)
    {
      if currentSound.Some? {
        audio.Pause(currentSound.value);
        isPlaying := false;
      }
    }

    /** `resumePlayback()`. */
    method ResumePlayback()
      modifies this, audio
      ensures State() == ResumePlaybackResult(old(State()))
      ensures unchanged(this`searchTerm, this`rowsCurrentSound)
    {
      if currentSound.Some? {
        audio.Play(currentSound.value, LogOnly);
        isPlaying := true;
      }
    }

    /** `closeAudio()`. */
    method CloseAudio()
      modifies this, audio
      ensures State() == CloseAudioResult(old(State()))
      ensures unchanged(this`searchTerm, this`rowsCurrentSound)
    {
      if currentSound.Some? {
        audio.Pause(currentSound.value);
        audio.Release(currentSound.value);
        isPlaying, currentSound, currentPosition, duration, playAllDisabled := false, None, 0, 0, false;
      }
    }

    /** `handleSliderChange(value)`. */
    method HandleSliderChange(value: int)
      modifies this, audio
      ensures State() == SliderChangeResult(old(State()), value)
      ensures unchanged(this`searchTerm, this`rowsCurrentSound)
    {
      if currentSound.Some? {
        audio.SetCurrentTime(currentSound.value, value);
        currentPosition := value;
      }
    }

    /** `toggleMark(id)`. */
    method ToggleMark(id: string)
      modifies this
      ensures data == FlipMark(old(data), id)
      ensures View() == old(View()).(data := data)
      ensures unchanged(this`searchTerm, this`rowsCurrentSound)
    {
      data := FlipMark(data, id);
    }

    /** `toggleDone(id)`. */
    method ToggleDone(id: string)
      modifies this
      ensures data == FlipDone(old(data), id)
      ensures View() == old(View()).(data := data)
      ensures unchanged(this`searchTerm, this`rowsCurrentSound)
    {
      data := FlipDone(data, id);
    }

    /** `rowItemWasDeleted(index)`. */
    method RowItemWasDeleted(index: int)
      modifies this, api, audio
      ensures State() == RowDeletedResult(Collaborators(), old(State()), index, old(ItemsQuery()))
      ensures unchanged(this`searchTerm, this`rowsCurrentSound)
    {
      if index >= currentIndex {
        CloseAudio();
      }
      FetchData();
    }

    /** The end of a track the queue started: the callback registered by
        `playSound(i)` runs. */
    method QueueTrackEnded(id: SoundId)
      requires Valid(audio.State()) && id in audio.playing && audio.onEnd[id].AdvanceQueue?
      modifies this, api, audio
      ensures State() == QueueTrackEndResult(Collaborators(), old(State()), id)
      ensures unchanged(this`searchTerm, this`rowsCurrentSound)
    {
      var action := audio.Finish(id);
      audio.Release(id);
      if action.index < |action.queue| {
        SaveFinished(Stem(action.queue[action.index]));
        PlaySound(action.queue, action.index + 1);
      }
    }
  }
}
