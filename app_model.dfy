/**
 * The key-driven state machine of the application, on values: what one key
 * press does in each mode, the event loop that stops at quit or at the first
 * error, the startup mode, and the key hints of each mode.  The store
 * fetches, the text input widget and the fuzzy matcher are inputs.
 */
module AppModel {
  import opened Wrappers
  import opened Config
  import opened BotStats
  import opened Search
  import opened Nav
  import BotPage
  import BusSelectPage
  import AppParams

  /** The page the application shows. */
  datatype AppTab = Main | BusSelect | Bot | Queue | BotView | Loading | StateView

  /** `From<usize> for AppTab`: the main menu's entries. */
  function TabFromIndex(i: nat): (t: AppTab)
    ensures i == 0 ==> t == Bot
    ensures i == 1 ==> t == Queue
    ensures i >= 2 ==> t == Main
  {
    if i == 0 then Bot else if i == 1 then Queue else Main
  }

  /** The value of a `BusSelectState`. */
  datatype BusSelection = BusSelection(buses: seq<string>, busSelectedIndex: nat, verticalScroll: nat)

  /** The value of an `AppState`, without the rendering, timing and client fields. */
  datatype AppView = AppView(
    mode: AppTab, busSelect: BusSelection, tabIndex: nat, botPage: BotPage.Page, debugMode: bool,
    selectedBus: Option<string>, buses: map<string, LeoConfig>, loadedConfig: Option<LeoConfig>,
    verticalScroll: nat, stopScroll: bool, exit: bool)

  /**
   * What the world answers during one key step: the statistics fetch (bot id
   * and statistics table), the settings fetch (cron table), the text input's
   * handling of a key, and the fuzzy matcher.
   */
  datatype Env = Env(
    fetchStats: (string, string) -> Result<seq<StatsRecord>, string>,
    fetchSettings: string -> Result<seq<BotPage.BotSettings>, string>,
    edit: (string, Key) -> string,
    score: Scorer)

  const INVALID_KEY := "invalid key pressed"
  const UNWRAP_NONE := "called `Option::unwrap()` on a `None` value"
  const INDEX_OUT_OF_BOUNDS := "index out of bounds"

  /** `return_home`. */
  function ReturnHome(s: AppView): AppView
  {
    s.(tabIndex := 0, mode := Main)
  }

  /** The number of main-menu entries. */
  const TAB_SIZE: nat := 2

  /** `navigate` of the main menu: Up and Down move through the two entries, Enter opens the selected one. */
  function NavigateMenu(s: AppView, key: Key): (r: Stepped<AppView>)
    ensures r.outcome.Panic? == false
    ensures r.outcome.Fail? <==> key != Up && key != Down && key != Enter
    ensures r.outcome.Fail? ==> r.state == s
    ensures (key == Up || key == Down) ==> r.state == s.(tabIndex := r.state.tabIndex) && r.state.tabIndex < TAB_SIZE
    ensures (key == Up || key == Down) && s.tabIndex < TAB_SIZE ==> r.state.tabIndex == 1 - s.tabIndex
    ensures key == Enter ==> r.state == s.(mode := TabFromIndex(s.tabIndex))
  {
    match key
    case Down => Stepped(s.(tabIndex := SatInc(s.tabIndex + TAB_SIZE) % TAB_SIZE), Pass)
    case Up => Stepped(s.(tabIndex := SatDec(s.tabIndex + TAB_SIZE) % TAB_SIZE), Pass)
    case Enter => Stepped(s.(mode := TabFromIndex(s.tabIndex)), Pass)
    case _ => Stepped(s, Fail("invalid key_code"))
  }

  /** The loading page: any key opens the main menu once settings and statistics are loaded. */
  function LoadingKey(s: AppView): (r: Stepped<AppView>)
    ensures r.outcome == Pass
    ensures r.state.mode == Main <==>
            (s.botPage.allBots.Some? && s.botPage.allBots.value != [] && s.botPage.stats != []) || s.mode == Main
    ensures r.state == s || r.state == s.(mode := Main)
  {
    if s.botPage.allBots.Some? && s.botPage.allBots.value != [] && s.botPage.stats != [] then
      Stepped(s.(mode := Main), Pass)
    else Stepped(s, Pass)
  }

  /**
   * Enter on the bot search with results: remember the name, fetch its
   * statistics, clear the search and open its detail view.  The fetch error
   * and the detail error end the step with whatever was already changed.
   */
  function BotEnter(s: AppView, env: Env): (r: Stepped<AppView>)
    requires s.botPage.searchResults != []
  {
    var page := s.botPage;
    if page.currentSelectIndex >= |page.searchResults| then Stepped(s, Panic(INDEX_OUT_OF_BOUNDS))
    else
      var name := page.searchResults[page.currentSelectIndex];
      var named := s.(botPage := page.(selectedBotName := Some(name)));
      match s.loadedConfig
      case None => Stepped(named, Panic(UNWRAP_NONE))
      case Some(config) =>
        match env.fetchStats("bot:" + name, config.leoStats)
        case Err(e) => Stepped(named, Fail(e))
        case Ok(stats) => OpenBot(named, stats)
  }

  /** After a successful fetch: statistics stored, query cleared, and the detail view opened when it can be built. */
  function OpenBot(s: AppView, stats: seq<BotStats.StatsRecord>): (r: Stepped<AppView>)
  {
    var cleared := s.botPage.(stats := stats, search := [], searchResults := []);
    var details := BotPage.GetBotDetails(cleared);
    if details.outcome.Pass? then Stepped(s.(botPage := details.state, mode := BotView), Pass)
    else Stepped(s.(botPage := details.state), details.outcome)
  }

  /** The bot search page: Up and Down move the cursor through the results, Enter opens one, any other key edits the query. */
  function BotKey(s: AppView, key: Key, env: Env): (r: Stepped<AppView>)
  {
    var page := s.botPage;
    var len := |page.searchResults|;
    match key
    case Down =>
      if len > 0 then Stepped(s.(botPage := page.(currentSelectIndex := CycleDown(page.currentSelectIndex, len))), Pass)
      else Stepped(s, Pass)
    case Up =>
      if len > 0 then Stepped(s.(botPage := page.(currentSelectIndex := CycleUp(page.currentSelectIndex, len))), Pass)
      else Stepped(s, Pass)
    case Enter =>
      if len > 0 then BotEnter(s, env) else Stepped(s, Pass)
    case _ =>
      var edited := page.(search := env.edit(page.search, key));
      Stepped(s.(botPage := BotPage.SearchBots(edited, env.score)), Pass)
  }

  /** `load_bot_settings`: fetch the settings of the loaded bus and list their names. */
  function LoadBotSettings(s: AppView, env: Env): (r: Stepped<AppView>)
  {
    match s.loadedConfig
    case None => Stepped(s, Panic(UNWRAP_NONE))
    case Some(config) =>
      match env.fetchSettings(config.leoCron)
      case Err(e) => Stepped(s, Fail(e))
      case Ok(settings) =>
        var loaded := s.botPage.(allBots := Some(settings));
        var named := BotPage.BotNames(loaded);
        Stepped(s.(botPage := named.state), named.outcome)
  }

  /** Enter on the bus list: select the bus, load its configuration and bot settings, open the main menu. */
  function BusEnter(s: AppView, env: Env): (r: Stepped<AppView>)
    requires s.busSelect.buses != []
  {
    var bs := s.busSelect;
    if bs.busSelectedIndex >= |bs.buses| then Stepped(s, Panic(INDEX_OUT_OF_BOUNDS))
    else
      var selected := bs.buses[bs.busSelectedIndex];
      var chosen := s.(selectedBus := Some(selected),
                       loadedConfig := if selected in s.buses then Some(s.buses[selected]) else None);
      var loaded := LoadBotSettings(chosen, env);
      if loaded.outcome.Pass? then Stepped(loaded.state.(mode := Main), Pass) else loaded
  }

  /** The bus list: Up and Down move the cursor and the scroll offset together, Enter selects, other keys are errors. */
  function BusKey(s: AppView, key: Key, env: Env): (r: Stepped<AppView>)
  {
    var bs := s.busSelect;
    var len := |bs.buses|;
    match key
    case Down =>
      if len > 0 then
        Stepped(s.(busSelect := bs.(busSelectedIndex := CycleDown(bs.busSelectedIndex, len),
                                    verticalScroll := SatInc(bs.verticalScroll))), Pass)
      else Stepped(s, Pass)
    case Up =>
      if len > 0 then
        Stepped(s.(busSelect := bs.(busSelectedIndex := CycleUp(bs.busSelectedIndex, len),
                                    verticalScroll := SatDec(bs.verticalScroll))), Pass)
      else Stepped(s, Pass)
    case Enter =>
      if len > 0 then BusEnter(s, env) else Stepped(s, Pass)
    case _ => Stepped(s, Fail(INVALID_KEY))
  }

  /** The bot detail page: Up and Down scroll the view, Tab goes back to the search, other keys are errors. */
  function BotViewKey(s: AppView, key: Key): (r: Stepped<AppView>)
  {
    match s.botPage.selectedBot
    case None => Stepped(s, Fail("cannot navigate a non-existant bot"))
    case Some(view) =>
      match key
      case Up => Stepped(s.(botPage := s.botPage.(selectedBot := Some(BotPage.NavigateView(view, Up).state))), Pass)
      case Down => Stepped(s.(botPage := s.botPage.(selectedBot := Some(BotPage.NavigateView(view, Down).state))), Pass)
      case Tab => Stepped(s.(mode := Bot), Pass)
      case _ => Stepped(s, Fail(INVALID_KEY))
  }

  /** The state dump: Up scrolls back, Down scrolls on unless the end is shown, Tab goes to the main menu. */
  function StateViewKey(s: AppView, key: Key): (r: Stepped<AppView>)
  {
    match key
    case Up => Stepped(s.(verticalScroll := SatDec(s.verticalScroll)), Pass)
    case Down => Stepped(if s.stopScroll then s else s.(verticalScroll := SatInc(s.verticalScroll)), Pass)
    case Tab => Stepped(s.(mode := Main), Pass)
    case _ => Stepped(s, Fail(INVALID_KEY))
  }

  /** The key handling of the current page, for keys that are not global. */
  function ModeKey(s: AppView, key: Key, env: Env): Stepped<AppView>
  {
    match s.mode
    case Loading => LoadingKey(s)
    case Main => NavigateMenu(s, key)
    case Bot => BotKey(s, key, env)
    case BusSelect => BusKey(s, key, env)
    case Queue => Stepped(s, Panic("not yet implemented"))
    case BotView => BotViewKey(s, key)
    case StateView => StateViewKey(s, key)
  }

  /** `handle_key_event`: the global keys first, whatever the page, then the page's own handling. */
  function HandleKey(s: AppView, key: Key, env: Env): (r: Stepped<AppView>)
    ensures key == Char('q') || key == Esc ==> r == Stepped(s.(exit := true), Pass)
    ensures key == Home ==> r == Stepped(s.(tabIndex := 0, mode := Main), Pass)
    ensures key == F(5) ==> r == Stepped(if s.debugMode then s.(mode := StateView) else s, Pass)
  {
    if key == Char('q') || key == Esc then Stepped(s.(exit := true), Pass)
    else if key == Home then Stepped(ReturnHome(s), Pass)
    else if key == F(5) then Stepped(if s.debugMode then s.(mode := StateView) else s, Pass)
    else ModeKey(s, key, env)
  }

  /** `handle_events`: a key press is handled, every other event is ignored. */
  function HandleEvent(s: AppView, ev: Event, env: Env): (r: Stepped<AppView>)
    ensures !ev.KeyPress? ==> r == Stepped(s, Pass)
  {
    if ev.KeyPress? then HandleKey(s, ev.key, env) else Stepped(s, Pass)
  }

  /** One event, with what the world answers while it is handled. */
  datatype Input = Input(event: Event, env: Env)

  /** `run`: events are handled until the exit flag is set, an event fails or panics, or there are no more. */
  function Run(s: AppView, inputs: seq<Input>): Stepped<AppView>
    decreases |inputs|
  {
    if s.exit || inputs == [] then Stepped(s, Pass)
    else
      var r := HandleEvent(s, inputs[0].event, inputs[0].env);
      if r.outcome.Pass? then Run(r.state, inputs[1..]) else r
  }

  // ---------------------------------------------------------------------------
  // Startup

  /** The state `AppState::new` builds around the chosen mode and bus. */
  ghost function Initial(params: AppParams.AppParams, configs: map<string, LeoConfig>, mode: AppTab,
                         selectedBus: Option<string>, loaded: Option<LeoConfig>): AppView
  {
    AppView(mode, BusSelection(BusSelectPage.SortedFrom(configs.Keys), 0, 0), 0, BotPage.EMPTY_PAGE,
            params.debug, selectedBus, configs, loaded, 0, false, false)
  }

  /** The mode choice of `AppState::new`: a given bus must be configured and opens the main menu; without one the bus list opens. */
  ghost function Startup(params: AppParams.AppParams, configs: map<string, LeoConfig>): (r: Result<AppView, string>)
    ensures params.bus.None? ==> r.Ok? && r.value.mode == BusSelect && r.value.loadedConfig.None?
    ensures params.bus.Some? && params.bus.value in configs ==>
            r.Ok? && r.value.mode == Main && r.value.selectedBus == params.bus
            && r.value.loadedConfig == Some(configs[params.bus.value])
    ensures params.bus.Some? && params.bus.value !in configs ==> r.Err?
    ensures r.Ok? ==> r.value.busSelect.buses == BusSelectPage.SortedFrom(configs.Keys) && !r.value.exit
    ensures r.Ok? ==> r.value.debugMode == params.debug
  {
    match params.bus
    case Some(bus) =>
      if bus in configs then Ok(Initial(params, configs, Main, Some(bus), Some(configs[bus])))
      else Err("unable to find " + bus + " in leo config")
    case None => Ok(Initial(params, configs, BusSelect, None, None))
  }

  // ---------------------------------------------------------------------------
  // Key hints

  /** `AppTab::get_keys`: the global hints, the state-view hint in debug mode, then the page's own hints. */
  function GetKeys(mode: AppTab, debugMode: bool): (keys: seq<(string, string)>)
    ensures |keys| == 2 + (if debugMode then 1 else 0) + (if mode == Loading then 0 else 3)
    ensures keys[..2] == [("Home", "Main Menu"), ("Esc|Q", "Quit")]
    ensures ("State View", "F5") in keys <==> debugMode
    ensures ("Tab", "Back") in keys <==> mode == BotView || mode == StateView
    ensures ("Enter", "Select") in keys <==> mode in {Main, Bot, Queue, BusSelect}
  {
    var global := [("Home", "Main Menu"), ("Esc|Q", "Quit")] + (if debugMode then [("State View", "F5")] else []);
    match mode
    case Main | Bot | Queue | BusSelect => global + [("↑", "Up"), ("↓", "Down"), ("Enter", "Select")]
    case BotView | StateView => global + [("↑", "Scroll Up"), ("↓", "Scroll Down"), ("Tab", "Back")]
    case Loading => global
  }
}

module AppLaws {
  import opened Wrappers
  import opened Config
  import opened Search
  import opened Nav
  import opened AppModel
  import BotPage
  import BusSelectPage
  import AppParams

  /**
   * What every reachable state satisfies: the menu cursor is on one of the
   * two entries, the bus cursor on a listed bus (or 0), every listed bus is
   * configured, the loading page is never shown, the state dump only in
   * debug mode, the bot detail page only with a selected bot, and without a
   * loaded configuration there are no bots and no search results, since bots
   * are listed only from the settings of a loaded bus.
   */
  ghost predicate Inv(s: AppView)
  {
    && (s.loadedConfig.None? ==> s.botPage.bots == [] && s.botPage.searchResults == [])
    && s.tabIndex < TAB_SIZE
    && (s.busSelect.busSelectedIndex == 0 || s.busSelect.busSelectedIndex < |s.busSelect.buses|)
    && (forall i :: 0 <= i < |s.busSelect.buses| ==> s.busSelect.buses[i] in s.buses)
    && s.mode != Loading
    && (s.mode == StateView ==> s.debugMode)
    && (s.mode == BotView ==> s.botPage.selectedBot.Some?)
  }

  /** The state `new` builds satisfies the invariant. */
  lemma StartupInv(params: AppParams.AppParams, configs: map<string, LeoConfig>)
    requires Startup(params, configs).Ok?
    ensures Inv(Startup(params, configs).value)
  {
    var names := BusSelectPage.SortedFrom(configs.Keys);
    forall i | 0 <= i < |names| ensures names[i] in configs {
      assert names[i] in BusSelectPage.Elems(names);
    }
  }

  lemma BotEnterInv(s: AppView, env: Env)
    requires Inv(s) && s.mode == Bot && s.botPage.searchResults != []
    ensures Inv(BotEnter(s, env).state)
  {
  }

  lemma BusEnterInv(s: AppView, env: Env)
    requires Inv(s) && s.mode == BusSelect && s.busSelect.buses != []
    ensures Inv(BusEnter(s, env).state)
  {
  }

  lemma BotKeyInv(s: AppView, key: Key, env: Env)
    requires Inv(s) && s.mode == Bot
    ensures Inv(BotKey(s, key, env).state)
  {
    if key == Enter && s.botPage.searchResults != [] { BotEnterInv(s, env); }
  }

  lemma BusKeyInv(s: AppView, key: Key, env: Env)
    requires Inv(s) && s.mode == BusSelect
    ensures Inv(BusKey(s, key, env).state)
  {
    if key == Enter && s.busSelect.buses != [] { BusEnterInv(s, env); }
  }

  lemma ModeKeyInv(s: AppView, key: Key, env: Env)
    requires Inv(s)
    ensures Inv(ModeKey(s, key, env).state)
  {
    match s.mode
    case Bot =>
      BotKeyInv(s, key, env);
      assert ModeKey(s, key, env) == BotKey(s, key, env);
    case BusSelect =>
      BusKeyInv(s, key, env);
      assert ModeKey(s, key, env) == BusKey(s, key, env);
    case Main =>
      MenuKeyInv(s, key);
      assert ModeKey(s, key, env) == NavigateMenu(s, key);
    case Queue =>
      assert ModeKey(s, key, env).state == s;
    case BotView =>
      BotViewKeyInv(s, key);
      assert ModeKey(s, key, env) == BotViewKey(s, key);
    case StateView =>
      StateViewKeyInv(s, key);
      assert ModeKey(s, key, env) == StateViewKey(s, key);
  }

  lemma MenuKeyInv(s: AppView, key: Key)
    requires Inv(s) && s.mode == Main
    ensures Inv(NavigateMenu(s, key).state)
  {
  }

  lemma BotViewKeyInv(s: AppView, key: Key)
    requires Inv(s) && s.mode == BotView
    ensures Inv(BotViewKey(s, key).state)
  {
  }

  lemma StateViewKeyInv(s: AppView, key: Key)
    requires Inv(s) && s.mode == StateView
    ensures Inv(StateViewKey(s, key).state)
  {
  }

  /** Every key step keeps the invariant, whether it passes, fails or panics. */
  lemma HandleKeyInv(s: AppView, key: Key, env: Env)
    requires Inv(s)
    ensures Inv(HandleKey(s, key, env).state)
  {
    if key != Char('q') && key != Esc && key != Home && key != F(5) {
      ModeKeyInv(s, key, env);
    }
  }

  /** The invariant holds after any run of events. */
  lemma {:induction false} RunInv(s: AppView, inputs: seq<Input>)
    requires Inv(s)
    ensures Inv(Run(s, inputs).state)
    decreases |inputs|
  {
    if !s.exit && inputs != [] {
      var r := HandleEvent(s, inputs[0].event, inputs[0].env);
      if inputs[0].event.KeyPress? {
        HandleKeyInv(s, inputs[0].event.key, inputs[0].env);
      }
      if r.outcome.Pass? {
        RunInv(r.state, inputs[1..]);
      }
    }
  }

  /** In a reachable state, the bot detail page always has a bot: its Up, Down and Tab never fail. */
  lemma BotViewKeysPass(s: AppView, key: Key, env: Env)
    requires Inv(s) && s.mode == BotView && (key == Up || key == Down || key == Tab)
    ensures HandleKey(s, key, env).outcome == Pass
  {
  }

  /** In a reachable state, nothing on the bus list panics: the cursor is in range and the selected bus is configured. */
  lemma BusSelectNeverPanics(s: AppView, key: Key, env: Env)
    requires Inv(s) && s.mode == BusSelect
    ensures !HandleKey(s, key, env).outcome.Panic?
  {
  }

  /** Quitting wins on every page: `q` in the middle of a search ends the program instead of being typed. */
  lemma QuitFromAnyPage(s: AppView, env: Env, rest: seq<Input>)
    requires !s.exit
    ensures Run(s, [Input(KeyPress(Char('q')), env)] + rest) == Stepped(s.(exit := true), Pass)
  {
    var inputs := [Input(KeyPress(Char('q')), env)] + rest;
    assert inputs[0].event == KeyPress(Char('q'));
  }

  /** The run stops at the first event that does not pass, with that event's state and outcome. */
  lemma RunStopsAtError(s: AppView, inputs: seq<Input>)
    requires !s.exit && inputs != []
    requires !HandleEvent(s, inputs[0].event, inputs[0].env).outcome.Pass?
    ensures Run(s, inputs) == HandleEvent(s, inputs[0].event, inputs[0].env)
  {
  }

  /** Running two batches of events is running the second from where the first left off, unless the first stopped on an error. */
  lemma {:induction false} RunConcat(s: AppView, a: seq<Input>, b: seq<Input>)
    ensures Run(s, a + b) == (if Run(s, a).outcome.Pass? then Run(Run(s, a).state, b) else Run(s, a))
    decreases |a|
  {
    if a == [] {
      assert a + b == b;
    } else if !s.exit {
      assert (a + b)[0] == a[0] && (a + b)[1..] == a[1..] + b;
      var r := HandleEvent(s, a[0].event, a[0].env);
      if r.outcome.Pass? {
        RunConcat(r.state, a[1..], b);
      }
    }
  }

  /** Once the exit flag is set, no event changes anything. */
  lemma RunAfterExit(s: AppView, inputs: seq<Input>)
    requires s.exit
    ensures Run(s, inputs) == Stepped(s, Pass)
  {
  }

  // ---------------------------------------------------------------------------
  // The pages, one rule at a time

  /** The main menu toggles between its two entries and opens the bot search or the (unimplemented) queue page. */
  lemma MainMenu(s: AppView, key: Key, env: Env)
    requires Inv(s) && s.mode == Main
    ensures key == Up || key == Down ==> HandleKey(s, key, env) == Stepped(s.(tabIndex := 1 - s.tabIndex), Pass)
    ensures key == Enter ==> HandleKey(s, key, env) == Stepped(s.(mode := if s.tabIndex == 0 then Bot else Queue), Pass)
  {
  }

  /** On the queue page, every key but the global ones panics. */
  lemma QueuePageUnimplemented(s: AppView, key: Key, env: Env)
    requires s.mode == Queue && key != Char('q') && key != Esc && key != Home && key != F(5)
    ensures HandleKey(s, key, env).outcome.Panic?
  {
  }

  /** Up and Down on the bot search keep the cursor on a result, and do nothing without results. */
  lemma BotCursor(s: AppView, key: Key, env: Env)
    requires s.mode == Bot && (key == Up || key == Down)
    ensures var r := HandleKey(s, key, env);
            r.outcome == Pass && r.state == s.(botPage := r.state.botPage)
            && r.state.botPage == s.botPage.(currentSelectIndex := r.state.botPage.currentSelectIndex)
            && (s.botPage.searchResults != [] ==> r.state.botPage.currentSelectIndex < |s.botPage.searchResults|)
            && (s.botPage.searchResults == [] ==> r.state == s)
  {
  }

  /** Up and Down on the bus list keep the cursor on a bus and move the scroll offset, saturating. */
  lemma BusCursor(s: AppView, key: Key, env: Env)
    requires s.mode == BusSelect && (key == Up || key == Down)
    ensures var r := HandleKey(s, key, env);
            r.outcome == Pass
            && (s.busSelect.buses != [] ==>
                  r.state == s.(busSelect := r.state.busSelect)
                  && r.state.busSelect.buses == s.busSelect.buses
                  && r.state.busSelect.busSelectedIndex < |s.busSelect.buses|
                  && r.state.busSelect.verticalScroll == (if key == Up then SatDec(s.busSelect.verticalScroll) else SatInc(s.busSelect.verticalScroll)))
            && (s.busSelect.buses == [] ==> r.state == s)
  {
  }

  /** Typed keys edit the query and rerun the search; the cursor is left where it was. */
  lemma BotSearchTyping(s: AppView, key: Key, env: Env)
    requires s.mode == Bot && key !in {Char('q'), Esc, Home, F(5), Up, Down, Enter}
    ensures var r := HandleKey(s, key, env);
            var query := env.edit(s.botPage.search, key);
            r.outcome == Pass
            && r.state == s.(botPage := s.botPage.(search := query, searchResults := Ranked(s.botPage.bots, query, env.score)))
  {
  }

  /**
   * Enter on a search result with a loaded bus: the name is remembered before
   * the fetch, so a failed fetch changes only the name.
   */
  lemma BotEnterFetchFails(s: AppView, env: Env, e: string)
    requires s.mode == Bot && s.botPage.currentSelectIndex < |s.botPage.searchResults|
    requires s.loadedConfig.Some?
    requires env.fetchStats("bot:" + s.botPage.searchResults[s.botPage.currentSelectIndex], s.loadedConfig.value.leoStats) == Err(e)
    ensures HandleKey(s, Enter, env) ==
            Stepped(s.(botPage := s.botPage.(selectedBotName := Some(s.botPage.searchResults[s.botPage.currentSelectIndex]))), Fail(e))
  {
  }

  /**
   * A successful fetch replaces the statistics and clears the search; the
   * detail page opens exactly when the bot's details can be assembled.
   */
  lemma BotEnterFetched(s: AppView, env: Env, stats: seq<BotStats.StatsRecord>)
    requires s.mode == Bot && s.botPage.currentSelectIndex < |s.botPage.searchResults|
    requires s.loadedConfig.Some?
    requires env.fetchStats("bot:" + s.botPage.searchResults[s.botPage.currentSelectIndex], s.loadedConfig.value.leoStats) == Ok(stats)
    ensures var r := HandleKey(s, Enter, env);
            var name := s.botPage.searchResults[s.botPage.currentSelectIndex];
            var cleared := s.botPage.(selectedBotName := Some(name), stats := stats, search := [], searchResults := []);
            && r.state.botPage == BotPage.GetBotDetails(cleared).state
            && r.outcome == BotPage.GetBotDetails(cleared).outcome
            && (r.state.mode == BotView <==> r.outcome.Pass?)
            && (r.outcome.Pass? ==> r.state.botPage.selectedBot.Some?)
  {
  }

  /**
   * The cursor is not reset when a new search shrinks the results, and an
   * Enter with the cursor past the results indexes out of bounds.
   */
  lemma StaleCursorPanics(s: AppView, env: Env)
    requires s.mode == Bot && 0 < |s.botPage.searchResults| <= s.botPage.currentSelectIndex
    ensures HandleKey(s, Enter, env) == Stepped(s, Panic(INDEX_OUT_OF_BOUNDS))
  {
  }

  /**
   * Home on the bus list skips choosing a bus: the main menu opens with no
   * configuration loaded, in a state that is still reachable.
   */
  lemma HomeSkipsBus(s: AppView, env: Env)
    requires Inv(s) && s.mode == BusSelect && s.loadedConfig.None? && !s.exit
    ensures var r := HandleKey(s, Home, env);
            r.outcome == Pass && r.state.mode == Main && r.state.loadedConfig.None? && Inv(r.state)
  {
    HandleKeyInv(s, Home, env);
  }

  /**
   * Without a configuration the bot page cannot reach the missing one: no bots
   * were listed, so no key panics there and Enter has no result to open.
   */
  lemma BotPageWithoutConfigNeverPanics(s: AppView, key: Key, env: Env)
    requires Inv(s) && s.mode == Bot && s.loadedConfig.None?
    ensures !HandleKey(s, key, env).outcome.Panic?
    ensures HandleKey(s, Enter, env) == Stepped(s, Pass)
  {
  }

  /**
   * Enter on the bus list selects the bus under the cursor and loads its
   * configuration; with the bot settings fetched, their names are listed and
   * the main menu opens; a failed fetch keeps the page with the bus selected.
   */
  lemma BusEnterLoads(s: AppView, env: Env)
    requires Inv(s) && s.mode == BusSelect && s.busSelect.buses != []
    ensures var r := HandleKey(s, Enter, env);
            var selected := s.busSelect.buses[s.busSelect.busSelectedIndex];
            var config := s.buses[selected];
            var chosen := s.(selectedBus := Some(selected), loadedConfig := Some(config));
            match env.fetchSettings(config.leoCron)
            case Ok(settings) =>
              r == Stepped(chosen.(mode := Main, botPage := chosen.botPage.(allBots := Some(settings), bots := BotPage.BotNamesOf(settings))), Pass)
            case Err(e) => r == Stepped(chosen, Fail(e))
  {
  }

  /** On the state dump, Down does nothing once the end is shown. */
  lemma StateViewStopsAtEnd(s: AppView, env: Env)
    requires s.mode == StateView && s.stopScroll
    ensures HandleKey(s, Down, env) == Stepped(s, Pass)
  {
  }

  /** On the bus list, the detail page and the state dump, a key the page does not know is an error that changes nothing. */
  lemma UnknownKeysFail(s: AppView, key: Key, env: Env)
    requires s.mode in {BusSelect, BotView, StateView}
    requires key !in {Char('q'), Esc, Home, F(5), Up, Down, Enter, Tab}
    ensures HandleKey(s, key, env).outcome.Fail? && HandleKey(s, key, env).state == s
  {
  }

  /** The loading page passes on every key and opens the main menu exactly when settings and statistics are loaded. */
  lemma LoadingPage(s: AppView, key: Key, env: Env)
    requires s.mode == Loading && key !in {Char('q'), Esc, Home, F(5)}
    ensures HandleKey(s, key, env).outcome == Pass
    ensures HandleKey(s, key, env).state ==
            if s.botPage.allBots.Some? && s.botPage.allBots.value != [] && s.botPage.stats != [] then s.(mode := Main) else s
  {
  }

  /** Tab leaves the detail page for the search and the state dump for the main menu, as the key hints say. */
  lemma TabGoesBack(s: AppView, env: Env)
    requires Inv(s) && (s.mode == BotView || s.mode == StateView)
    ensures ("Tab", "Back") in GetKeys(s.mode, s.debugMode)
    ensures HandleKey(s, Tab, env) == Stepped(s.(mode := if s.mode == BotView then Bot else Main), Pass)
  {
  }
}
