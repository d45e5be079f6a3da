/**
 * The progress-bar driver of `startProgressAnimation`. Starting clears the
 * interval the global handle `progressInterval` names (if any), writes a width of
 * 0% and installs a new interval whose callback owns a fresh `progress` of 0. Each
 * time the callback fires it adds a random increment in [1, 5]; once the sum
 * reaches 100 it is clamped to exactly 100 and the interval clears itself. Every
 * firing writes the bar's width as `progress` percent.
 *
 * Timers are modelled by interval ids: `live` holds the intervals the browser will
 * still fire, `Start` is a call of the start function and `Fire(h, k)` is the
 * browser firing interval `h`, with `k` the draw of `getRandomNumber(1, 5)`.
 */
module Progress {
  import opened Wrappers
  import RandomRange

  const Full := 100

  /** One firing of the interval callback on `progress == p` with increment `inc`. */
  function Advance(p: int, inc: int): (r: int)
    ensures r <= Full
    ensures 0 <= p && 0 <= inc ==> 0 <= r
  {
    if p + inc >= Full then Full else p + inc
  }

  /**
   * Below 100, a firing with an increment in [1, 5] strictly increases progress by
   * at most the increment; it adds the whole increment unless it clamps, and it
   * clamps to exactly 100 precisely when the sum reaches 100.
   */
  lemma AdvanceStep(p: int, inc: int)
    requires 0 <= p < Full && 1 <= inc <= 5
    ensures p < Advance(p, inc) <= p + inc
    ensures Advance(p, inc) == p + inc || Advance(p, inc) == Full
    ensures Advance(p, inc) == Full <==> p + inc >= Full
  {
  }

  /** The progress of a tick stream that has applied `incs`, in order, from 0. */
  function Replay(incs: seq<int>): (r: int)
    ensures r <= Full
    ensures (forall i :: 0 <= i < |incs| ==> 0 <= incs[i]) ==> 0 <= r
  {
    if incs == [] then 0 else Advance(Replay(incs[..|incs| - 1]), incs[|incs| - 1])
  }

  predicate AllIncrements(incs: seq<int>) {
    forall i :: 0 <= i < |incs| ==> 1 <= incs[i] <= 5
  }

  /** A prefix of a stream of increments is one too. */
  lemma AllIncrementsPrefix(incs: seq<int>, n: nat)
    requires AllIncrements(incs) && n <= |incs|
    ensures AllIncrements(incs[..n])
  {
    forall i | 0 <= i < n ensures 1 <= incs[..n][i] <= 5 {
      assert incs[..n][i] == incs[i];
    }
  }

  /** Every firing adds at least one, so `n` firings reach at least `n`, or 100. */
  lemma {:induction false} ReplayAtLeastTicks(incs: seq<int>)
    requires AllIncrements(incs)
    ensures Replay(incs) >= if |incs| < Full then |incs| else Full
  {
    if incs != [] {
      var prefix := incs[..|incs| - 1];
      AllIncrementsPrefix(incs, |incs| - 1);
      ReplayAtLeastTicks(prefix);
    }
  }

  /** Every firing adds at most five. */
  lemma {:induction false} ReplayAtMostFivePerTick(incs: seq<int>)
    requires AllIncrements(incs)
    ensures Replay(incs) <= 5 * |incs|
  {
    if incs != [] {
      var prefix := incs[..|incs| - 1];
      AllIncrementsPrefix(incs, |incs| - 1);
      ReplayAtMostFivePerTick(prefix);
    }
  }

  /** True when no firing of `incs` happened after the stream had reached 100. */
  predicate FiredOnlyBelowFull(incs: seq<int>) {
    forall j :: 0 <= j < |incs| ==> Replay(incs[..j]) < Full
  }

  /** A stream that only fires below 100 fires at most 100 times. */
  lemma StreamBound(incs: seq<int>)
    requires AllIncrements(incs) && FiredOnlyBelowFull(incs)
    ensures |incs| <= Full
  {
    if |incs| > Full {
      var prefix := incs[..Full];
      AllIncrementsPrefix(incs, Full);
      ReplayAtLeastTicks(prefix);
    }
  }

  /** `n` increments of five. */
  function Fives(n: nat): (s: seq<int>)
    ensures |s| == n && AllIncrements(s)
  {
    seq(n, _ => 5)
  }

  /** Always drawing five, the stream stands at 5 n, clamped at 100. */
  lemma {:induction false} ReplayFives(n: nat)
    ensures Replay(Fives(n)) == if 5 * n < Full then 5 * n else Full
  {
    if n > 0 {
      assert Fives(n)[..n - 1] == Fives(n - 1);
      ReplayFives(n - 1);
    }
  }

  /** Always drawing five, the stream fills on its twentieth firing and not before. */
  lemma FivesFillOnTwentiethTick()
    ensures FiredOnlyBelowFull(Fives(20))
    ensures Replay(Fives(20)) == Full
  {
    forall j | 0 <= j < 20 ensures Replay(Fives(20)[..j]) < Full {
      assert Fives(20)[..j] == Fives(j);
      ReplayFives(j);
    }
    ReplayFives(20);
  }

  /** The increments a sequence of draws of `getRandomNumber(1, 5)` produces. */
  function Increments(draws: seq<int>): (incs: seq<int>)
    requires forall i :: 0 <= i < |draws| ==> RandomRange.IsDraw(RandomRange.Span(1, 5), draws[i])
    ensures |incs| == |draws| && AllIncrements(incs)
    ensures forall i :: 0 <= i < |draws| ==> incs[i] == RandomRange.RandomNumber(1, 5, draws[i])
  {
    if draws == [] then []
    else Increments(draws[..|draws| - 1]) + [RandomRange.RandomNumber(1, 5, draws[|draws| - 1])]
  }

  /** The progress bar and the interval machinery behind it. */
  class Driver {
    /** `progressInterval`: the id of the last interval created, if any. */
    var handle: Option<nat>
    /** The intervals that have not been cleared, so that the browser still fires. */
    var live: set<nat>
    /** The id the next `setInterval` hands out. */
    var nextId: nat
    /** The `progress` captured by the most recently created interval's callback. */
    var progress: int
    /** The increments that callback has added since it was created. */
    ghost var applied: seq<int>
    /** Every width, in percent, written to the progress bar, in order. */
    ghost var rendered: seq<int>

    ghost predicate Valid()
      reads this
    {
      // at most one tick stream is ever live: the one the handle names
      (live <= if handle.Some? then {handle.value} else {}) &&
      (handle.Some? ==> handle.value < nextId) &&
      (handle.None? ==> applied == [] && rendered == []) &&
      // progress is what the live stream's increments add up to, clamped
      AllIncrements(applied) &&
      progress == Replay(applied) &&
      0 <= progress <= Full &&
      // the stream fired only below 100, and it stops exactly when it is full
      FiredOnlyBelowFull(applied) &&
      (handle.Some? ==> (live != {} <==> progress < Full)) &&
      // every width written is a percentage, and the bar shows the current progress
      (forall i :: 0 <= i < |rendered| ==> 0 <= rendered[i] <= Full) &&
      (handle.Some? ==> |rendered| > 0 && rendered[|rendered| - 1] == progress)
    }

    /** True while an interval is installed that the browser will still fire. */
    predicate Running()
      reads this
    {
      handle.Some? && handle.value in live
    }

    /** The page as loaded: no interval yet, nothing written. */
    constructor ()
      ensures Valid() && !Running()
      ensures handle == None && live == {} && progress == 0 && rendered == []
    {
      handle := None;
      live := {};
      nextId := 1;
      progress := 0;
      applied := [];
      rendered := [];
    }

    /**
     * startProgressAnimation(): clears the interval the handle names, writes 0%,
     * and installs a new interval `h`, the only live one, with progress 0.
     */
    method Start() returns (h: nat)
      requires Valid()
      modifies this
      ensures Valid() && Running()
      ensures h == old(nextId) && h !in old(live)
      ensures handle == Some(h) && live == {h} && nextId == h + 1
      ensures progress == 0 && applied == []
      ensures rendered == old(rendered) + [0]
    {
      if handle.Some? {
        live := live - {handle.value};
      }
      rendered := rendered + [0];
      progress := 0;
      applied := [];
      h := nextId;
      nextId := nextId + 1;
      live := live + {h};
      handle := Some(h);
    }

    /**
     * The browser fires interval `h` with draw `k`. A cleared interval never fires,
     * so nothing changes. A live one is the current stream: it adds the increment,
     * clamps at 100 and clears itself there, and writes the new width.
     */
    method Fire(h: nat, k: int) returns (fired: bool)
      requires Valid()
      requires RandomRange.IsDraw(RandomRange.Span(1, 5), k)
      modifies this
      ensures Valid()
      ensures fired == (h in old(live))
      ensures !fired ==> unchanged(this)
      ensures fired ==> old(Running()) && handle == old(handle) == Some(h)
      ensures fired ==> applied == old(applied) + [RandomRange.RandomNumber(1, 5, k)]
      ensures fired ==> progress == Advance(old(progress), RandomRange.RandomNumber(1, 5, k))
      ensures fired ==> old(progress) < progress <= Full
      ensures fired ==> (Running() <==> progress < Full)
      ensures fired ==> rendered == old(rendered) + [progress]
      ensures nextId == old(nextId) && live <= old(live) && |applied| <= Full
    {
      fired := h in live;
      if !fired {
        StreamBound(applied);
        return;
      }
      var inc := RandomRange.RandomNumber(1, 5, k);
      AdvanceStep(progress, inc);
      ghost var before := applied;
      progress := Advance(progress, inc);
      applied := applied + [inc];
      assert applied[..|applied| - 1] == before;
      assert FiredOnlyBelowFull(applied) by {
        forall j | 0 <= j < |applied| ensures Replay(applied[..j]) < Full {
          assert applied[..j] == before[..j] || j == |before|;
        }
      }
      if progress == Full {
        live := live - {handle.value};
      }
      rendered := rendered + [progress];
      StreamBound(applied);
    }
  }

  /**
   * The browser firing the current interval with successive draws, until it clears
   * itself or the draws run out: stopping early means the bar is full.
   */
  method RunInterval(d: Driver, draws: seq<int>) returns (ticks: nat)
    requires d.Valid() && d.Running()
    requires forall i :: 0 <= i < |draws| ==> RandomRange.IsDraw(RandomRange.Span(1, 5), draws[i])
    modifies d
    ensures d.Valid() && d.handle == old(d.handle)
    ensures ticks <= |draws|
    ensures d.applied == old(d.applied) + Increments(draws[..ticks])
    ensures ticks < |draws| ==> !d.Running() && d.progress == Full
    ensures d.nextId == old(d.nextId)
    ensures |d.rendered| == |old(d.rendered)| + ticks && d.rendered[..|old(d.rendered)|] == old(d.rendered)
  {
    ticks := 0;
    var h := d.handle.value;
    while ticks < |draws| && d.Running()
      invariant d.Valid() && d.handle == old(d.handle) == Some(h)
      invariant ticks <= |draws|
      invariant d.applied == old(d.applied) + Increments(draws[..ticks])
      invariant d.nextId == old(d.nextId)
      invariant |d.rendered| == |old(d.rendered)| + ticks
      invariant d.rendered[..|old(d.rendered)|] == old(d.rendered)
      decreases |draws| - ticks
    {
      var fired := d.Fire(h, draws[ticks]);
      assert draws[..ticks + 1][..ticks] == draws[..ticks];
      ticks := ticks + 1;
    }
  }

  /**
   * Drawing five every time, a fresh start fills the bar on exactly the twentieth
   * firing; a twenty-first firing of that interval does not happen.
   */
  method FillWithFives(d: Driver) returns (ticks: nat)
    requires d.Valid()
    modifies d
    ensures d.Valid() && !d.Running()
    ensures ticks == 20 && d.applied == Fives(ticks) && d.progress == Full
  {
    var h := d.Start();
    var draws := seq(25, _ => 4);
    ticks := RunInterval(d, draws);
    FoursGiveFives(draws, ticks);
    assert d.applied == Fives(ticks);
    FivesStopAtTwenty(ticks, |draws|);
    var fired := d.Fire(h, 4);
    assert !fired;
  }

  /** A stream of fives that fired only below 100 and then stopped early fired 20 times. */
  lemma FivesStopAtTwenty(n: nat, bound: nat)
    requires n <= bound && FiredOnlyBelowFull(Fives(n))
    requires n < bound ==> Replay(Fives(n)) == Full
    requires bound > 20
    ensures n <= 20 && (n < bound ==> n == 20)
  {
    ReplayFives(n);
    if n > 20 {
      assert Fives(n)[..20] == Fives(20);
      ReplayFives(20);
    }
  }

  /** Draws of 4 are increments of 5. */
  lemma FoursGiveFives(draws: seq<int>, n: nat)
    requires n <= |draws| && forall i :: 0 <= i < |draws| ==> draws[i] == 4
    ensures Increments(draws[..n]) == Fives(n)
  {
  }

  /**
   * Starting again while running replaces the stream: the old interval never fires
   * again, and only the new one advances the bar, from 0.
   */
  method RestartReplacesStream(d: Driver) returns (first: nat, second: nat)
    requires d.Valid()
    modifies d
    ensures d.Valid() && d.live == {second} && first != second
    ensures d.progress == 1 && d.applied == [1]
  {
    first := d.Start();
    var _ := d.Fire(first, 4);
    second := d.Start();
    var stale := d.Fire(first, 4);
    assert !stale;
    var current := d.Fire(second, 0);
  }
}
