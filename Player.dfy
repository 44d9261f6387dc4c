/** A guild's queue state: the `MusicPlayer` class with its FIFO of pending songs,
    the `current` slot, the `loop` flag and the id of the latest control message.
    `PlayerState` is its value, and the functions below say what each of its
    operations does to that value. */
module Player {
  import opened Wrappers
  import opened Songs

  /** Ids of messages sent by the bot (the "Now Playing" cards). */
  type MessageId = nat

  datatype PlayerState = PlayerState(
    queue: seq<Song>,
    current: Option<Song>,
    loop: bool,
    nowPlayingMessage: Option<MessageId>)

  /** A player as created on a guild's first use. */
  function Fresh(): PlayerState {
    PlayerState([], None, false, None)
  }

  function Added(st: PlayerState, song: Song): PlayerState {
    st.(queue := st.queue + [song])
  }

  /** `next()`: replay `current` when looping and something is current; otherwise
      dequeue the front song into `current`; otherwise clear `current`. In every
      case `current` ends up equal to what is returned. */
  function Advanced(st: PlayerState): (r: (Option<Song>, PlayerState))
    ensures r.1.current == r.0
    ensures r.1.loop == st.loop && r.1.nowPlayingMessage == st.nowPlayingMessage
    ensures st.loop && st.current.Some? ==> r.0 == st.current && r.1.queue == st.queue
    ensures !(st.loop && st.current.Some?) ==>
      (r.0.Some? <==> st.queue != []) && st.queue == (if r.0.Some? then [r.0.value] else []) + r.1.queue
  {
    if st.loop && st.current.Some? then (st.current, st)
    else if st.queue != [] then (Some(st.queue[0]), st.(queue := st.queue[1..], current := Some(st.queue[0])))
    else (None, st.(current := None))
  }

  function Cleared(st: PlayerState): PlayerState {
    st.(queue := [], current := None)
  }

  function LoopToggled(st: PlayerState): PlayerState {
    st.(loop := !st.loop)
  }

  class MusicPlayer {
    var queue: seq<Song>
    var current: Option<Song>
    var loop: bool
    var nowPlayingMessage: Option<MessageId>

    function State(): PlayerState
      reads this
    {
      PlayerState(queue, current, loop, nowPlayingMessage)
    }

    constructor ()
      ensures State() == Fresh()
    {
      queue := [];
      current := None;
      loop := false;
      nowPlayingMessage := None;
    }

    method Add(song: Song)
      modifies this
      ensures State() == Added(old(State()), song)
    {
      queue := queue + [song];
    }

    method Next() returns (song: Option<Song>)
      modifies this
      ensures (song, State()) == Advanced(old(State()))
    {
      if loop && current.Some? {
        return current;
      }
      if queue != [] {
        current := Some(queue[0]);
        queue := queue[1..];
        return current;
      }
      current := None;
      return None;
    }

    method Clear()
      modifies this
      ensures State() == Cleared(old(State()))
    {
      queue := [];
      current := None;
    }
  }

  // ---------------------------------------------------------------------------
  // Properties of repeated `next()` calls

  /** The songs `k` successive `next()` calls return, and the state they leave. */
  function Drain(st: PlayerState, k: nat): (r: (seq<Option<Song>>, PlayerState))
    ensures |r.0| == k
    decreases k
  {
    if k == 0 then ([], st)
    else
      var (song, st1) := Advanced(st);
      var (rest, last) := Drain(st1, k - 1);
      ([song] + rest, last)
  }

  function Somes(songs: seq<Song>): (r: seq<Option<Song>>)
    ensures |r| == |songs| && forall i :: 0 <= i < |songs| ==> r[i] == Some(songs[i])
  {
    seq(|songs|, i requires 0 <= i < |songs| => Some(songs[i]))
  }

  /** With loop off, draining the queue yields every pending song in insertion
      order and then nothing, leaving the queue empty and nothing current. */
  lemma {:induction false} DrainInOrder(st: PlayerState)
    requires !st.loop
    ensures Drain(st, |st.queue| + 1).0 == Somes(st.queue) + [None]
    ensures Drain(st, |st.queue| + 1).1 == st.(queue := [], current := None)
    decreases |st.queue|
  {
    var (song, st1) := Advanced(st);
    if st.queue == [] {
      assert Drain(st1, 0) == ([], st1);
    } else {
      assert st1.queue == st.queue[1..] && !st1.loop;
      DrainInOrder(st1);
      assert Somes(st.queue) == [Some(st.queue[0])] + Somes(st1.queue);
    }
  }

  /** Adding A, B, C to a fresh player and calling `next()` four times gives
      A, B, C and then nothing. */
  lemma ThreeSongsThenNothing(a: Song, b: Song, c: Song)
    ensures Drain(Added(Added(Added(Fresh(), a), b), c), 4).0 == [Some(a), Some(b), Some(c), None]
  {
    var st := Added(Added(Added(Fresh(), a), b), c);
    assert st.queue == [a, b, c];
    DrainInOrder(st);
  }

  /** With loop on and a song current, every `next()` replays that song and the
      state, pending queue included, never changes. */
  lemma {:induction false} LoopReplays(st: PlayerState, k: nat)
    requires st.loop && st.current.Some?
    ensures Drain(st, k).1 == st
    ensures forall i :: 0 <= i < k ==> Drain(st, k).0[i] == st.current
  {
    if k > 0 {
      LoopReplays(st, k - 1);
      assert Advanced(st) == (st.current, st);
      assert Drain(st, k).0 == [st.current] + Drain(st, k - 1).0;
    }
  }

  /** After `clear()`, `next()` returns nothing even with loop on, because the
      replay needs a current song. */
  lemma ClearThenNext(st: PlayerState)
    ensures Advanced(Cleared(st)).0 == None
    ensures Advanced(Cleared(st)).1 == Cleared(st)
  {
  }

  lemma LoopToggleTwice(st: PlayerState)
    ensures LoopToggled(LoopToggled(st)) == st
    ensures LoopToggled(st).loop != st.loop
  {
  }

  // ---------------------------------------------------------------------------
  // FIFO over any interleaving of `add` and `next`

  datatype Op = AddOp(song: Song) | NextOp

  /** Runs a sequence of `add`/`next` calls, collecting what each `next` returned. */
  function Run(st: PlayerState, ops: seq<Op>): (r: (seq<Option<Song>>, PlayerState))
    ensures r.1.loop == st.loop
    decreases ops
  {
    if ops == [] then ([], st)
    else
      var (out, st1) := match ops[0]
        case AddOp(s) => ([], Added(st, s))
        case NextOp => var (song, st1) := Advanced(st); ([song], st1);
      var (rest, last) := Run(st1, ops[1..]);
      (out + rest, last)
  }

  function Values(outs: seq<Option<Song>>): seq<Song> {
    if outs == [] then []
    else (if outs[0].Some? then [outs[0].value] else []) + Values(outs[1..])
  }

  function AddedSongs(ops: seq<Op>): seq<Song> {
    if ops == [] then []
    else (if ops[0].AddOp? then [ops[0].song] else []) + AddedSongs(ops[1..])
  }

  lemma {:induction false} ValuesAppend(a: seq<Option<Song>>, b: seq<Option<Song>>)
    ensures Values(a + b) == Values(a) + Values(b)
  {
    if a == [] {
      assert a + b == b;
    } else {
      var head := if a[0].Some? then [a[0].value] else [];
      assert (a + b)[0] == a[0];
      assert (a + b)[1..] == a[1..] + b;
      calc {
        Values(a + b);
        head + Values(a[1..] + b);
        { ValuesAppend(a[1..], b); }
        head + (Values(a[1..]) + Values(b));
        (head + Values(a[1..])) + Values(b);
      }
    }
  }

  /** With loop off, whatever `add`/`next` calls are interleaved, the songs returned
      followed by those still pending are exactly the songs ever added, in order. */
  lemma {:induction false} FifoHistory(st: PlayerState, ops: seq<Op>)
    requires !st.loop
    ensures Values(Run(st, ops).0) + Run(st, ops).1.queue == st.queue + AddedSongs(ops)
    decreases ops
  {
    if ops != [] {
      var (out, st1) := match ops[0]
        case AddOp(s) => ([], Added(st, s))
        case NextOp => var (song, st1) := Advanced(st); ([song], st1);
      var (rest, last) := Run(st1, ops[1..]);
      assert Run(st, ops) == (out + rest, last);
      var added := if ops[0].AddOp? then [ops[0].song] else [];
      assert Values(out) + st1.queue == st.queue + added by {
        if out != [] { assert out[1..] == []; }
      }
      calc {
        Values(out + rest) + last.queue;
        { ValuesAppend(out, rest); }
        Values(out) + (Values(rest) + last.queue);
        { FifoHistory(st1, ops[1..]); }
        (Values(out) + st1.queue) + AddedSongs(ops[1..]);
        st.queue + (added + AddedSongs(ops[1..]));
      }
    }
  }
}
