/**
 * The animation of `Sketch` (app.js): a clock `time` and a flag
 * `isPlaying`. Each `render` call while playing advances the clock by a
 * fixed step and writes the horizontal texture offset of both materials,
 * `+time` for the front material and `-time` for the back one.
 *
 * The abstract `State` and the functions `Rendered`, `Played` and
 * `Stopped` specify the operations; class `Sketch` performs them in place
 * and is proved against them.
 */
module Animation {

  /** Clock increment of one `render` call. */
  const Step: real := 0.001

  /** three.js `RepeatWrapping`. */
  const RepeatWrapping: int := 1000

  /** The texture settings that `render` never touches. */
  datatype TextureSettings = TextureSettings(wrapS: int, wrapT: int, repeatX: real, repeatY: real, flipY: bool)

  /**
   * Settings of the front and back textures: the shared set-up, then the
   * back texture mirrored horizontally.
   */
  function ConfigureTextures(): (r: seq<TextureSettings>)
    ensures |r| == 2
    ensures forall t :: t in r ==> t.wrapS == t.wrapT == RepeatWrapping && t.repeatY == 1.0 && !t.flipY
    ensures r[0].repeatX == 1.0 && r[1].repeatX == -r[0].repeatX
    ensures r[1] == r[0].(repeatX := -1.0)
  {
    var shared := TextureSettings(RepeatWrapping, RepeatWrapping, 1.0, 1.0, false);
    [shared, shared.(repeatX := -1.0)]
  }

  /** Horizontal offset each texture gets at set-up, before the first frame. */
  const InitialOffset: real := 0.5

  /** The animation-relevant part of a `Sketch`; `offsets[i]` belongs to material `i`. */
  datatype State = State(time: real, isPlaying: bool, offsets: seq<real>)

  /** The state just before the constructor's own `render` call. */
  const Initial: State := State(0.0, true, [InitialOffset, InitialOffset])

  /** Offsets written by one frame: `+t` for material 0, `-t` for the others. */
  function MaterialOffsets(t: real, n: nat): seq<real> {
    seq(n, i => if i == 0 then t else -t)
  }

  /**
   * Specification of `render`: the flag and the number of materials never
   * change; the clock advances by one step exactly when playing.
   */
  function Rendered(s: State): (r: State)
    ensures r.isPlaying == s.isPlaying && |r.offsets| == |s.offsets|
    ensures r.time == if s.isPlaying then s.time + Step else s.time
  {
    if !s.isPlaying then s
    else
      var t := s.time + Step;
      s.(time := t, offsets := MaterialOffsets(t, |s.offsets|))
  }

  /**
   * Specification of `play`: afterwards the sketch is playing; it acts only
   * when stopped, and then draws one frame from the current clock.
   */
  function Played(s: State): (r: State)
    ensures r.isPlaying
    ensures s.isPlaying ==> r == s
    ensures !s.isPlaying ==> r.time == s.time + Step && |r.offsets| == |s.offsets|
  {
    if s.isPlaying then s else Rendered(s.(isPlaying := true))
  }

  /** Specification of `stop`: clears the flag and keeps clock and offsets. */
  function Stopped(s: State): (r: State)
    ensures !r.isPlaying && r.time == s.time && r.offsets == s.offsets
  {
    s.(isPlaying := false)
  }

  /** Whether a state shows the offsets of its own clock. */
  predicate Synced(s: State) {
    s.offsets == [s.time, -s.time]
  }

  // ---------------------------------------------------------------------
  // Properties of single operations
  // ---------------------------------------------------------------------

  /**
   * `render` when stopped changes nothing; when playing it advances the
   * clock by exactly one step and leaves material 0 at `+time` and every
   * later material at `-time`.
   */
  lemma RenderEffect(s: State)
    ensures !s.isPlaying ==> Rendered(s) == s
    ensures s.isPlaying ==>
              var r := Rendered(s);
              r.isPlaying && r.time == s.time + Step && |r.offsets| == |s.offsets| &&
              (|r.offsets| > 0 ==> r.offsets[0] == r.time) &&
              (forall i :: 0 < i < |r.offsets| ==> r.offsets[i] == -r.time)
  {
  }

  /**
   * `play` while playing changes nothing; after `stop`, `play` sets the
   * flag and renders once, so the clock resumes from where it stopped.
   */
  lemma StopThenPlayResumes(s: State)
    requires Synced(s)
    ensures s.isPlaying ==> Played(s) == s
    ensures Played(Played(s)) == Played(s)
    ensures var r := Played(Stopped(s));
            r.isPlaying && r.time == s.time + Step && Synced(r)
  {
    var r := Played(Stopped(s));
    assert r.offsets == [r.time, -r.time];
  }

  /** The constructor's frame leaves a synced, playing state at one step. */
  lemma FirstFrame()
    ensures Rendered(Initial) == State(Step, true, [Step, -Step])
    ensures Synced(Rendered(Initial))
  {
    assert MaterialOffsets(0.0 + Step, 2) == [Step, -Step];
  }

  // ---------------------------------------------------------------------
  // Runs of operations
  // ---------------------------------------------------------------------

  /** The calls a client can make. */
  datatype Op = Stop | Play | Render

  function Apply(s: State, op: Op): State {
    match op
    case Stop => Stopped(s)
    case Play => Played(s)
    case Render => Rendered(s)
  }

  function Run(s: State, ops: seq<Op>): State
    decreases |ops|
  {
    if ops == [] then s else Run(Apply(s, ops[0]), ops[1..])
  }

  /** Whether `op` in state `s` draws a frame (and so advances the clock). */
  predicate DrawsFrame(s: State, op: Op) {
    (op == Render && s.isPlaying) || (op == Play && !s.isPlaying)
  }

  /** Number of calls in `ops` that draw a frame when run from `s`. */
  function Frames(s: State, ops: seq<Op>): nat
    decreases |ops|
  {
    if ops == [] then 0
    else (if DrawsFrame(s, ops[0]) then 1 else 0) + Frames(Apply(s, ops[0]), ops[1..])
  }

  /** `render` called `n` times in a row. */
  function Renders(s: State, n: nat): State {
    if n == 0 then s else Rendered(Renders(s, n - 1))
  }

  /**
   * Any run of `stop`, `play` and `render` calls keeps the offsets in step
   * with the clock, and the clock advances by exactly one step per frame
   * drawn: never for `play` while playing, never while stopped.
   */
  lemma {:induction false} RunKeepsClock(s: State, ops: seq<Op>)
    requires Synced(s)
    ensures Synced(Run(s, ops))
    ensures Run(s, ops).time == s.time + Step * Frames(s, ops) as real
    decreases |ops|
  {
    if ops != [] {
      var next := Apply(s, ops[0]);
      assert Synced(next) && next.time == s.time + (if DrawsFrame(s, ops[0]) then Step else 0.0) by {
        if ops[0] == Render && s.isPlaying {
          assert next.offsets == [next.time, -next.time];
        } else if ops[0] == Play && !s.isPlaying {
          assert next.offsets == [next.time, -next.time];
        }
      }
      RunKeepsClock(next, ops[1..]);
    }
  }

  /**
   * `n` frames from the initial state (the constructor's own frame
   * included) leave the clock at `n` steps and the offsets at
   * `+n` and `-n` steps.
   */
  lemma {:induction false} TicksFromInitial(n: nat)
    requires n >= 1
    ensures Renders(Initial, n) == State(n as real * Step, true, [n as real * Step, -(n as real * Step)])
  {
    if n == 1 {
      FirstFrame();
    } else {
      TicksFromInitial(n - 1);
      var t := n as real * Step;
      assert (n - 1) as real * Step + Step == t;
      assert MaterialOffsets(t, 2) == [t, -t];
    }
  }

  // ---------------------------------------------------------------------
  // The sketch object
  // ---------------------------------------------------------------------

  class Sketch {
    var time: real
    var isPlaying: bool
    /** `map.offset.x` of `materials[0]` (front) and `materials[1]` (back). */
    const offsets: array<real>
    const textures: seq<TextureSettings>

    /** One offset per material: front and back. */
    ghost predicate HasTwoMaterials()
      reads this
    {
      offsets.Length == 2
    }

    /** The object invariant: the offsets show the current clock. */
    ghost predicate Valid()
      reads this, offsets
    {
      HasTwoMaterials() && Synced(Snapshot())
    }

    /** The abstract state this object represents. */
    function Snapshot(): State
      reads this, offsets
    {
      State(time, isPlaying, offsets[..])
    }

    /**
     * Sets the clock to zero and the flag to playing, configures the
     * textures, then draws the first frame.
     */
    constructor ()
      ensures Valid() && fresh(offsets)
      ensures textures == ConfigureTextures()
      ensures Snapshot() == Rendered(Initial)
    {
      time := 0.0;
      isPlaying := true;
      textures := ConfigureTextures();
      offsets := new real[2](_ => InitialOffset);
      new;
      assert offsets[..] == [InitialOffset, InitialOffset];
      Render();
      FirstFrame();
    }

    method Stop()
      requires Valid()
      modifies this`isPlaying
      ensures Valid()
      ensures Snapshot() == Stopped(old(Snapshot()))
    {
      isPlaying := false;
    }

    method Play()
      requires HasTwoMaterials()
      modifies this, offsets
      ensures HasTwoMaterials()
      ensures old(Valid()) ==> Valid()
      ensures Snapshot() == Played(old(Snapshot()))
    {
      if !isPlaying {
        isPlaying := true;
        Render();
      }
    }

    method Render()
      requires HasTwoMaterials()
      modifies this, offsets
      ensures HasTwoMaterials()
      ensures old(Valid()) || old(isPlaying) ==> Valid()
      ensures Snapshot() == Rendered(old(Snapshot()))
    {
      if !isPlaying {
        return;
      }
      time := time + Step;
      var i := 0;
      while i < offsets.Length
        invariant 0 <= i <= offsets.Length
        invariant forall j :: 0 <= j < i ==> offsets[j] == if j == 0 then time else -time
        modifies offsets
      {
        offsets[i] := time;
        if i > 0 {
          offsets[i] := -time;
        }
        i := i + 1;
      }
      assert offsets[..] == MaterialOffsets(time, offsets.Length) == [time, -time];
    }
  }
}
