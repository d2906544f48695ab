/**
 * The root component: a request status moved by the outcome of the fetch,
 * a typewriter hook holding the fetched flag, and the choice of what to show.
 * The fetch itself is left out; its outcome arrives as a call to
 * OnFetchSuccess or OnFetchFailure.
 */
module AppComponent {
  import opened UseTypewriter

  /** The request status "loading" | "done" | "failed". */
  datatype Status = Loading | Done | Failed

  /** "Loading..." as code units. */
  const LoadingText: JsString := [0x4C, 0x6F, 0x61, 0x64, 0x69, 0x6E, 0x67, 0x2E, 0x2E, 0x2E]

  /** The text of the single paragraph the component renders. */
  function Rendered(status: Status, display: JsString): JsString
  {
    if status == Loading then LoadingText else display
  }

  /**
   * Whatever the status, the rendered text is the loading text or a prefix
   * of the typewriter's target, and once the request has completed it is
   * exactly the revealed part of the target after n ticks.
   */
  lemma {:induction false} RenderedIsLoadingOrPrefix(status: Status, base: JsString, n: nat)
    ensures status == Loading ==> Rendered(status, Run(base, n).display) == LoadingText
    ensures status != Loading ==>
      Rendered(status, Run(base, n).display) <= base &&
      Rendered(status, Run(base, n).display) == Substring(base, n)
  {
    RunClosedForm(base, n);
  }

  class App {
    var reqStatus: Status
    const flag: Typewriter

    ghost predicate Valid()
      reads this, flag
    {
      flag.Valid()
    }

    /** Mounting: status "loading" and a typewriter over the empty string. */
    constructor ()
      ensures Valid() && fresh(flag)
      ensures reqStatus == Loading
      ensures flag.base == [] && flag.display == [] && flag.timerActive && flag.mounted
    {
      reqStatus := Loading;
      flag := new Typewriter([]);
    }

    /**
     * The response body `text` was read: it is handed to the typewriter
     * first, then the status becomes "done". A text different from the
     * current flag restarts the reveal from ""; the same text leaves the
     * reveal where it is.
     */
    method OnFetchSuccess(text: JsString)
      requires Valid()
      modifies this, flag
      ensures Valid()
      ensures reqStatus == Done
      ensures flag.mounted == old(flag.mounted)
      ensures flag.mounted ==> flag.base == text
      ensures old(flag.mounted) && text != old(flag.base) ==>
        flag.base == text && flag.display == [] && flag.timerActive && flag.ticks == 0
      ensures !old(flag.mounted) || text == old(flag.base) ==>
        flag.base == old(flag.base) && flag.display == old(flag.display) &&
        flag.timerActive == old(flag.timerActive) && flag.ticks == old(flag.ticks)
    {
      flag.SetBase(text);
      reqStatus := Done;
    }

    /**
     * The request or the body read was rejected: the status becomes
     * "failed" and the typewriter is untouched.
     */
    method OnFetchFailure()
      requires Valid()
      modifies this
      ensures Valid()
      ensures reqStatus == Failed
      ensures unchanged(flag)
    {
      reqStatus := Failed;
    }

    /**
     * The rendered text: "Loading..." exactly while the request is pending,
     * afterwards the revealed part of the flag, which is a prefix of it.
     */
    function View(): (r: JsString)
      requires Valid()
      reads this, flag
      ensures reqStatus == Loading ==> r == LoadingText
      ensures reqStatus != Loading ==> r == flag.display && r <= flag.base
      ensures reqStatus != Loading ==> |r| == Min(flag.ticks, |flag.base|)
    {
      RunClosedForm(flag.base, flag.ticks);
      Rendered(reqStatus, flag.display)
    }
  }

  /** A successful fetch of "flag{abc}" is fully shown nine ticks later. */
  method ScenarioFetchSuccess()
  {
    var app := new App();
    assert app.View() == LoadingText;
    var text: JsString := [0x66, 0x6C, 0x61, 0x67, 0x7B, 0x61, 0x62, 0x63, 0x7D];  // "flag{abc}"
    app.OnFetchSuccess(text);
    assert app.View() == [];
    var i := 0;
    while i < 9
      invariant 0 <= i <= 9
      invariant app.Valid() && app.reqStatus == Done
      invariant app.flag.base == text && app.flag.mounted
      invariant app.flag.ticks == i
    {
      SettlesAfterExactly(app.flag.base);
      app.flag.Tick();
      i := i + 1;
    }
    assert app.View() == text;
  }

  /** A rejected fetch leaves the display empty and stops showing "Loading...". */
  method ScenarioFetchFailure()
  {
    var app := new App();
    app.OnFetchFailure();
    assert app.View() == [];
    app.flag.Tick();
    assert app.View() == [];
  }
}
