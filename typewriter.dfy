/**
 * The typewriter hook: a target string `base` and a displayed string
 * `display` that a repeating interval grows by one character per period
 * until it equals `base`.
 *
 * Time is discrete: the interval callback that fires k * TimePerKey
 * milliseconds after the effect started is tick number k (k >= 1).
 */
module UseTypewriter {

  /** Milliseconds between two interval callbacks. */
  const TimePerKey: nat := 500

  /**
   * A JavaScript string is a sequence of UTF-16 code units: `length`,
   * `substring` and `===` all work on code units, not on characters.
   */
  newtype CodeUnit = x: int | 0 <= x < 0x1_0000

  type JsString = seq<CodeUnit>

  predicate IsHighSurrogate(u: CodeUnit) { 0xD800 <= u < 0xDC00 }

  predicate IsLowSurrogate(u: CodeUnit) { 0xDC00 <= u < 0xE000 }

  /**
   * The UTF-16 encoding of one Unicode scalar value: one code unit inside
   * the Basic Multilingual Plane, a surrogate pair outside it.
   */
  function EncodeScalar(c: char): (r: JsString)
    ensures |r| == if c as int < 0x1_0000 then 1 else 2
    ensures |r| == 1 ==> r[0] as int == c as int
    ensures |r| == 2 ==> IsHighSurrogate(r[0]) && IsLowSurrogate(r[1])
    ensures |r| == 2 ==> (r[0] as int - 0xD800) * 0x400 + (r[1] as int - 0xDC00) + 0x1_0000 == c as int
  {
    if c as int < 0x1_0000 then [c as int as CodeUnit]
    else
      var v := c as int - 0x1_0000;
      [(0xD800 + v / 0x400) as CodeUnit, (0xDC00 + v % 0x400) as CodeUnit]
  }

  function Min(a: int, b: int): int { if a <= b then a else b }

  function Max(a: int, b: int): int { if a <= b then b else a }

  /**
   * JavaScript's `s.substring(0, end)` for a non-negative `end`: an end
   * past the string is clamped to its length.
   */
  function Substring(s: JsString, end: nat): (r: JsString)
    ensures r <= s
    ensures |r| == Min(end, |s|)
  {
    s[..Min(end, |s|)]
  }

  /**
   * One reveal cycle, the state one run of the effect works on: the local
   * copy of the display and whether its interval is still alive.
   */
  datatype Cycle = Cycle(display: JsString, running: bool)

  /** What the effect sets up: an empty display and a live interval. */
  const Start: Cycle := Cycle([], true)

  /**
   * One interval period. A cleared interval never fires again; a live one
   * takes one more character of `base` and clears itself once the display
   * has caught up with `base`.
   */
  function Step(base: JsString, c: Cycle): (r: Cycle)
    ensures !c.running ==> r == c
    ensures c.running ==> r.display <= base && (r.running <==> r.display != base)
    ensures c.running && c.display < base ==> |r.display| == |c.display| + 1
  {
    if !c.running then c
    else
      var d := Substring(base, |c.display| + 1);
      Cycle(d, d != base)
  }

  /** The cycle after `n` interval periods of the effect run for `base`. */
  function Run(base: JsString, n: nat): (r: Cycle)
    ensures r.display <= base
  {
    if n == 0 then Start else Step(base, Run(base, n - 1))
  }

  /**
   * Number of ticks after which the interval is cleared: one per character,
   * and one tick for the empty string (that tick computes "" and stops).
   */
  function TicksToSettle(base: JsString): nat
  {
    Max(1, |base|)
  }

  /**
   * After n ticks the display holds the first min(n, |base|) characters of
   * `base`, and the interval is alive exactly while n < TicksToSettle(base).
   */
  lemma {:induction false} RunClosedForm(base: JsString, n: nat)
    ensures Run(base, n) == Cycle(Substring(base, n), n < TicksToSettle(base))
  {
    if n > 0 {
      RunClosedForm(base, n - 1);
    }
  }

  /**
   * The interval stays alive during the first TicksToSettle(base) ticks and
   * the last of them leaves display == base with the interval cleared.
   */
  lemma {:induction false} SettlesAfterExactly(base: JsString)
    ensures forall k: nat :: k < TicksToSettle(base) ==> Run(base, k).running
    ensures Run(base, TicksToSettle(base)) == Cycle(base, false)
  {
    forall k: nat | k < TicksToSettle(base)
      ensures Run(base, k).running
    {
      RunClosedForm(base, k);
    }
    RunClosedForm(base, TicksToSettle(base));
  }

  /** Once settled, no later tick changes anything. */
  lemma {:induction false} NothingChangesAfterSettling(base: JsString, n: nat)
    requires n >= TicksToSettle(base)
    ensures Run(base, n) == Cycle(base, false)
  {
    RunClosedForm(base, n);
  }

  /**
   * The display only grows, by at most one character per tick, and each
   * earlier display is a prefix of each later one.
   */
  lemma {:induction false} DisplayGrows(base: JsString, m: nat, n: nat)
    requires m <= n
    ensures Run(base, m).display <= Run(base, n).display
    ensures |Run(base, n).display| <= |Run(base, m).display| + (n - m)
  {
    RunClosedForm(base, m);
    RunClosedForm(base, n);
  }

  /**
   * A character outside the Basic Multilingual Plane is two code units, so
   * it takes two ticks: the first shows its lone high surrogate and keeps
   * the interval alive, the second shows the whole character and stops.
   */
  lemma {:induction false} AstralCharTakesTwoTicks(c: char)
    requires c as int >= 0x1_0000
    ensures TicksToSettle(EncodeScalar(c)) == 2
    ensures Run(EncodeScalar(c), 1).running
    ensures Run(EncodeScalar(c), 1).display == EncodeScalar(c)[..1]
    ensures IsHighSurrogate(Run(EncodeScalar(c), 1).display[0])
    ensures Run(EncodeScalar(c), 2) == Cycle(EncodeScalar(c), false)
  {
    RunClosedForm(EncodeScalar(c), 1);
    RunClosedForm(EncodeScalar(c), 2);
  }

  /** The cycle `ms` milliseconds after the effect started. */
  function RunAt(base: JsString, ms: nat): Cycle
  {
    Run(base, ms / TimePerKey)
  }

  /**
   * In wall-clock terms: at time ms the first ms / 500 characters are shown,
   * the whole of `base` from |base| * 500 ms on, and the interval is cleared
   * from TicksToSettle(base) * 500 ms on.
   */
  lemma {:induction false} RevealSchedule(base: JsString, ms: nat)
    ensures RunAt(base, ms).display == Substring(base, ms / TimePerKey)
    ensures RunAt(base, ms).display == base <==> ms >= |base| * TimePerKey
    ensures RunAt(base, ms).running <==> ms < TicksToSettle(base) * TimePerKey
  {
    RunClosedForm(base, ms / TimePerKey);
  }

  /**
   * The state of one `useTypewriter` hook instance. `base` and `display`
   * are the two React states, `timerActive` says whether the interval
   * started by the current effect run is alive, and `mounted` whether the
   * component is still mounted. The ghost `ticks` counts the interval
   * periods since the effect last ran.
   */
  class Typewriter {
    var base: JsString
    var display: JsString
    var timerActive: bool
    var mounted: bool
    ghost var ticks: nat

    ghost predicate Valid()
      reads this
    {
      && ticks <= TicksToSettle(base)
      && display == Run(base, ticks).display
      && timerActive == (mounted && Run(base, ticks).running)
    }

    /**
     * Mounting the hook with `init` as the initial base: the display starts
     * empty and the effect runs once, starting an interval even when `init`
     * is empty.
     */
    constructor (init: JsString)
      ensures Valid()
      ensures base == init && display == [] && timerActive && mounted
    {
      base := init;
      display := [];
      timerActive := true;
      mounted := true;
      ticks := 0;
    }

    /**
     * The setter returned by the hook. A new value re-runs the effect: the
     * old interval is cleared, the display is reset to "" and a fresh
     * interval starts. Setting the current value again, or setting after
     * unmounting, changes nothing.
     */
    method SetBase(b: JsString)
      requires Valid()
      modifies this
      ensures Valid()
      ensures mounted == old(mounted)
      ensures old(mounted) && b != old(base) ==>
        base == b && display == [] && timerActive && ticks == 0
      ensures !old(mounted) || b == old(base) ==>
        base == old(base) && display == old(display) &&
        timerActive == old(timerActive) && ticks == old(ticks)
    {
      if mounted && b != base {
        base := b;
        display := [];
        timerActive := true;
        ticks := 0;
      }
    }

    /**
     * One interval period elapses. If the interval is alive, the display
     * becomes the next longer prefix of `base` and the interval is cleared
     * once the display equals `base`; otherwise nothing happens.
     */
    method Tick()
      requires Valid()
      modifies this
      ensures Valid()
      ensures base == old(base) && mounted == old(mounted)
      ensures Cycle(display, timerActive) == Step(base, old(Cycle(display, timerActive)))
      ensures display <= base
      ensures old(timerActive) && old(display) != base ==> |display| == old(|display|) + 1
      ensures old(timerActive) ==> (timerActive <==> display != base)
      ensures !old(timerActive) ==> display == old(display) && !timerActive
      ensures ticks == if old(timerActive) then old(ticks) + 1 else old(ticks)
    {
      RunClosedForm(base, ticks);
      if timerActive {
        display := Substring(base, |display| + 1);
        if display == base {
          timerActive := false;
        }
        ticks := ticks + 1;
      }
    }

    /** Unmounting runs the effect's cleanup, which clears the interval. */
    method Unmount()
      requires Valid()
      modifies this
      ensures Valid()
      ensures !mounted && !timerActive
      ensures base == old(base) && display == old(display) && ticks == old(ticks)
    {
      mounted := false;
      timerActive := false;
    }

    /** The hook's return value: the display together with the unchanged base. */
    method Read() returns (shown: JsString, target: JsString)
      requires Valid()
      ensures shown == display && target == base
      ensures shown <= target
      ensures |shown| == Min(ticks, |target|)
    {
      RunClosedForm(base, ticks);
      shown, target := display, base;
    }
  }

  /** "hi" as code units. */
  const Hi: JsString := [0x68, 0x69]

  /** Target "hi": "" at mount, "h" after one tick, "hi" after two, then still. */
  method ScenarioTwoLetters()
  {
    var t := new Typewriter([]);
    t.SetBase(Hi);
    assert t.display == [] && t.timerActive;
    t.Tick();
    assert t.display == [0x68] && t.timerActive;
    t.Tick();
    assert t.display == Hi && !t.timerActive;
    t.Tick();
    assert t.display == Hi;
  }

  /** Retargeting from "ab" to "xyz" after "ab" is shown starts over from "". */
  method ScenarioRetarget()
  {
    var ab: JsString := [0x61, 0x62];
    var xyz: JsString := [0x78, 0x79, 0x7A];
    var t := new Typewriter(ab);
    t.Tick();
    t.Tick();
    assert t.display == ab && !t.timerActive;
    t.SetBase(xyz);
    assert t.display == [] && t.timerActive;
    t.Tick();
    assert t.display == [0x78];
    t.Tick();
    t.Tick();
    assert t.display == xyz && !t.timerActive;
  }

  /** An empty base still starts an interval; its first tick stops it. */
  method ScenarioEmpty()
  {
    var t := new Typewriter([]);
    assert t.timerActive;
    t.Tick();
    assert t.display == [] && !t.timerActive;
  }

  /** "\U{1F600}" is two code units: after one tick only its high surrogate shows. */
  method ScenarioAstral()
  {
    var grin := EncodeScalar('\U{1F600}');
    var t := new Typewriter(grin);
    t.Tick();
    assert |t.display| == 1 && t.timerActive;
    t.Tick();
    assert t.display == grin && !t.timerActive;
  }
}
