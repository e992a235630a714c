/** The part of react-native-sound the screens rely on. A sound is loaded
    from a file path and decoded; a failed decode yields no usable sound.
    `play(callback)` registers the callback to run when playback ends and
    replaces any callback registered before. Every operation on a released
    sound does nothing. Positions and durations are whole seconds. */
module Audio {
  import opened Common
  import opened ApiService

  type SoundId = nat

  /** What the callback registered by the last `play` does when playback
      ends: advance the "play all" queue from `index` (over the snapshot
      of the list it was started on), finish a row's item, or only log. */
  datatype EndAction = AdvanceQueue(index: nat, queue: seq<Item>) | FinishRow(item: Item) | LogOnly

  /** The native player: loaded sounds, the ones playing, their end
      callbacks and positions, and the next handle to hand out. */
  datatype Player = Player(live: set<SoundId>, playing: set<SoundId>, onEnd: map<SoundId, EndAction>,
                           position: map<SoundId, int>, nextId: SoundId)

  /** Only loaded sounds play, have callbacks and positions; a playing sound
      has a callback; handles are never reused. */
  ghost predicate Valid(p: Player)
  {
    p.playing <= p.live && p.playing <= p.onEnd.Keys && p.onEnd.Keys <= p.live && p.position.Keys == p.live &&
    forall id :: id in p.live ==> id < p.nextId
  }

  function EmptyPlayer(): (p: Player)
    ensures Valid(p) && p.live == {}
  {
    Player({}, {}, map[], map[], 0)
  }

  /** `new Sound(path, '', callback)`: a fresh loaded sound with its
      duration when the file decodes; nothing otherwise. */
  function OpenResult(decodes: string -> bool, lengthOf: string -> nat, p: Player, path: string)
    : (out: (Option<(SoundId, nat)>, Player))
    ensures out.0.None? <==> !decodes(path)
    ensures out.0.None? ==> out.1 == p
    ensures Valid(p) && out.0.Some? ==> out.0.value.0 !in p.live
    ensures out.0.Some? ==> out.0.value.1 == lengthOf(path) &&
                            out.1.live == p.live + {out.0.value.0} && out.1.playing == p.playing &&
                            out.1.onEnd == p.onEnd
    ensures Valid(p) ==> Valid(out.1)
  {
    if !decodes(path) then (None, p)
    else
      var id := p.nextId;
      (Some((id, lengthOf(path))), p.(live := p.live + {id}, position := p.position[id := 0], nextId := id + 1))
  }

  /** `sound.play(callback)`. */
  function PlayResult(p: Player, id: SoundId, action: EndAction): (q: Player)
    ensures id in p.live ==> q.playing == p.playing + {id} && q.onEnd == p.onEnd[id := action] && q.live == p.live
    ensures id !in p.live ==> q == p
    ensures Valid(p) ==> Valid(q)
  {
    if id in p.live then p.(playing := p.playing + {id}, onEnd := p.onEnd[id := action]) else p
  }

  /** `sound.pause()`: the position is kept. */
  function PauseResult(p: Player, id: SoundId): (q: Player)
    ensures q.playing == p.playing - {id} && q.live == p.live && q.onEnd == p.onEnd && q.position == p.position
    ensures Valid(p) ==> Valid(q)
  {
    p.(playing := p.playing - {id})
  }

  /** `sound.stop()`: playback halts and rewinds; the sound stays loaded. */
  function StopResult(p: Player, id: SoundId): (q: Player)
    ensures q.live == p.live && q.onEnd == p.onEnd
    ensures id in p.live ==> q.playing == p.playing - {id} && q.position == p.position[id := 0]
    ensures id !in p.live ==> q == p
    ensures Valid(p) ==> Valid(q)
  {
    if id in p.live then p.(playing := p.playing - {id}, position := p.position[id := 0]) else p
  }

  /** `sound.release()`. */
  function ReleaseResult(p: Player, id: SoundId): (q: Player)
    ensures q.live == p.live - {id} && q.playing == p.playing - {id} && id !in q.onEnd
    ensures Valid(p) ==> Valid(q)
  {
    p.(live := p.live - {id}, playing := p.playing - {id}, onEnd := p.onEnd - {id}, position := p.position - {id})
  }

  /** `sound.setCurrentTime(t)`. */
  function SeekResult(p: Player, id: SoundId, t: int): (q: Player)
    ensures id in p.live ==> q == p.(position := p.position[id := t])
    ensures id !in p.live ==> q == p
    ensures Valid(p) ==> Valid(q)
  {
    if id in p.live then p.(position := p.position[id := t]) else p
  }

  /** Playback of `id` reaches its end: it stops playing and the callback
      registered by its last `play` is the one to run. */
  function FinishResult(p: Player, id: SoundId): (out: (EndAction, Player))
    requires Valid(p) && id in p.playing
    ensures out.0 == p.onEnd[id]
    ensures out.1.playing == p.playing - {id} && out.1.live == p.live && out.1.onEnd == p.onEnd
    ensures Valid(out.1)
  {
    (p.onEnd[id], p.(playing := p.playing - {id}))
  }

  /** A released sound stays silent: playing it afterwards changes nothing. */
  lemma PlayAfterRelease(p: Player, id: SoundId, action: EndAction)
    ensures PlayResult(ReleaseResult(p, id), id, action) == ReleaseResult(p, id)
  {
  }

  /** A later `play` replaces the end callback of an earlier one: resuming
      with a logging callback drops the callback that advanced the queue. */
  lemma PlayReplacesCallback(p: Player, id: SoundId, first: EndAction, second: EndAction)
    requires id in p.live
    ensures PlayResult(PlayResult(p, id, first), id, second).onEnd[id] == second
  {
  }

  /** The native sound library. `decodes` says which files decode and
      `lengthOf` what `getDuration` reports for them. */
  class AudioEngine {
    const decodes: string -> bool
    const lengthOf: string -> nat
    var live: set<SoundId>
    var playing: set<SoundId>
    var onEnd: map<SoundId, EndAction>
    var position: map<SoundId, int>
    var nextId: SoundId

    constructor(decodes: string -> bool, lengthOf: string -> nat)
      ensures this.decodes == decodes && this.lengthOf == lengthOf && State() == EmptyPlayer()
    {
      this.decodes := decodes;
      this.lengthOf := lengthOf;
      live, playing, onEnd, position, nextId := {}, {}, map[], map[], 0;
    }

    function State(): Player
      reads this
    {
      Player(live, playing, onEnd, position, nextId)
    }

    method Open(path: string) returns (loaded: Option<(SoundId, nat)>)
      modifies this
      ensures (loaded, State()) == OpenResult(decodes, lengthOf, old(State()), path)
    {
      if !decodes(path) {
        return None;
      }
      var id := nextId;
      live := live + {id};
      position := position[id := 0];
      nextId := id + 1;
      return Some((id, lengthOf(path)));
    }

    method Play(id: SoundId, action: EndAction)
      modifies this
      ensures State() == PlayResult(old(State()), id, action)
    {
      if id in live {
        playing := playing + {id};
        onEnd := onEnd[id := action];
      }
    }

    method Pause(id: SoundId)
      modifies this
      ensures State() == PauseResult(old(State()), id)
    {
      playing := playing - {id};
    }

    method Stop(id: SoundId)
      modifies this
      ensures State() == StopResult(old(State()), id)
    {
      if id in live {
        playing := playing - {id};
        position := position[id := 0];
      }
    }

    method Release(id: SoundId)
      modifies this
      ensures State() == ReleaseResult(old(State()), id)
    {
      live := live - {id};
      playing := playing - {id};
      onEnd := onEnd - {id};
      position := position - {id};
    }

    method SetCurrentTime(id: SoundId, t: int)
      modifies this
      ensures State() == SeekResult(old(State()), id, t)
    {
      if id in live {
        position := position[id := t];
      }
    }

    /** Playback of `id` ends; returns the callback to run. */
    method Finish(id: SoundId) returns (action: EndAction)
      requires Valid(State()) && id in playing
      modifies this
      ensures (action, State()) == FinishResult(old(State()), id)
    {
      action := onEnd[id];
      playing := playing - {id};
    }
  }
}
