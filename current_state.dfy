/**
 * The state dump's render step: it decides whether the last line of the dump
 * is on screen and records that in `stopScroll`, which the Down key of the
 * state view consults.  The number of lines of the dump is an input.
 */
module CurrentState {
  import opened Wrappers
  import opened Nav
  import opened AppModel
  import App

  /** Rows of the area taken by the frame and the bottom bar. */
  const CHROME_ROWS: nat := 5

  const SUBTRACT_OVERFLOW := "attempt to subtract with overflow"

  /**
   * The new `stopScroll` for a dump of `numLines` lines in an area `height`
   * rows high: whether the scroll offset has reached the offset at which
   * the last line is shown.  The unsigned subtractions fail when the area is
   * shorter than its chrome or the dump shorter than the visible rows.
   */
  function StopScrollRule(verticalScroll: nat, numLines: nat, height: nat): (r: Result<bool, string>)
    ensures r.Ok? <==> CHROME_ROWS <= height && height - CHROME_ROWS <= numLines
    ensures r.Err? ==> r.error == SUBTRACT_OVERFLOW
    ensures r.Ok? ==> (r.value <==> numLines <= verticalScroll + (height - CHROME_ROWS))
  {
    if height < CHROME_ROWS || numLines < height - CHROME_ROWS then Err(SUBTRACT_OVERFLOW)
    else Ok(verticalScroll >= numLines - (height - CHROME_ROWS))
  }

  /** The step on values: only `stopScroll` changes, and only when the rule can be evaluated. */
  function ViewStep(s: AppView, numLines: nat, height: nat): (r: Stepped<AppView>)
    ensures r.outcome.Panic? || r.outcome.Pass?
    ensures r.state.verticalScroll == s.verticalScroll
    ensures r.state == s.(stopScroll := r.state.stopScroll)
  {
    match StopScrollRule(s.verticalScroll, numLines, height)
    case Err(e) => Stepped(s, Panic(e))
    case Ok(stop) => Stepped(s.(stopScroll := stop), Pass)
  }

  /** `view_app_state`, without the drawing: `stop_scroll` set or cleared in place. */
  method ViewAppState(state: App.AppState, numLines: nat, height: nat) returns (outcome: Outcome<string>)
    modifies state
    ensures Stepped(state.View(), outcome) == ViewStep(old(state.View()), numLines, height)
  {
    if height < CHROME_ROWS || numLines < height - CHROME_ROWS {
      outcome := Panic(SUBTRACT_OVERFLOW);
      return;
    }
    if state.verticalScroll >= numLines - (height - CHROME_ROWS) {
      state.stopScroll := true;
    } else if state.stopScroll {
      state.stopScroll := false;
    }
    outcome := Pass;
  }

  /** The offset at which the last line of the dump is on screen. */
  function LastOffset(numLines: nat, height: nat): (offset: nat)
    requires CHROME_ROWS <= height && height - CHROME_ROWS <= numLines
  {
    numLines - (height - CHROME_ROWS)
  }

  /**
   * Rendering before each Down keeps the dump from scrolling past its end:
   * from an offset at most the last one, render then Down stays at most the
   * last one, and from the last one it does not move.
   */
  lemma RenderThenDownStaysInView(s: AppView, numLines: nat, height: nat, env: Env)
    requires s.mode == StateView && CHROME_ROWS <= height && height - CHROME_ROWS <= numLines
    requires s.verticalScroll <= LastOffset(numLines, height)
    ensures var shown := ViewStep(s, numLines, height).state;
            HandleKey(shown, Down, env).state.verticalScroll <= LastOffset(numLines, height)
            && (s.verticalScroll == LastOffset(numLines, height) ==> HandleKey(shown, Down, env).state == shown)
  {
    var shown := ViewStep(s, numLines, height).state;
    assert shown.stopScroll <==> s.verticalScroll == LastOffset(numLines, height);
  }

  /** Without a render in between, Down on the state dump scrolls on without bound. */
  lemma DownWithoutRenderScrolls(s: AppView, env: Env)
    requires s.mode == StateView && !s.stopScroll && s.verticalScroll < USIZE_MAX
    ensures HandleKey(s, Down, env).state.verticalScroll == s.verticalScroll + 1
  {
  }
}
