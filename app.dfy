/**
 * The application object: `AppState` with its pages, updated in place by
 * each key step.  Every step is proved against the value-level rules of
 * `AppModel`, so the properties proved there hold of the object.
 */
module App {
  import opened Wrappers
  import opened Config
  import opened Nav
  import opened AppModel
  import AppLaws
  import BotPage
  import BusSelectPage
  import AppParams
  import BotStats

  class AppState {
    var mode: AppTab
    /** The bus list page; owned by the application and never replaced. */
    const busSelect: BusSelectPage.BusSelectState
    var tabIndex: nat
    /** The bot page; owned by the application and never replaced. */
    const botPage: BotPage.BotPageState
    var debugMode: bool
    var selectedBus: Option<string>
    var buses: map<string, LeoConfig>
    var loadedConfig: Option<LeoConfig>
    var verticalScroll: nat
    var stopScroll: bool
    var exit: bool

    /** The state as a value, without the rendering, timing and client fields. */
    function View(): AppView
      reads this, busSelect, botPage, botPage.ViewObjects()
    {
      AppView(mode, BusSelection(busSelect.buses, busSelect.busSelectedIndex, busSelect.verticalScroll),
              tabIndex, botPage.Value(), debugMode, selectedBus, buses, loadedConfig,
              verticalScroll, stopScroll, exit)
    }

    /** The detail view is the one there was before the step, or one the step created. */
    twostate predicate ViewKeptOrFresh()
      reads this, botPage
    {
      botPage.selectedBot == old(botPage.selectedBot)
      || (botPage.selectedBot.Some? && fresh(botPage.selectedBot.value))
    }

    /** The fields `AppState::new` sets, around a mode and bus already chosen. */
    constructor (params: AppParams.AppParams, configs: map<string, LeoConfig>, mode: AppTab,
                 selectedBus: Option<string>, loaded: Option<LeoConfig>)
      ensures View() == Initial(params, configs, mode, selectedBus, loaded)
      ensures fresh(busSelect) && fresh(botPage) && botPage.selectedBot.None?
    {
      this.mode := mode;
      busSelect := new BusSelectPage.BusSelectState(configs);
      tabIndex := 0;
      botPage := new BotPage.BotPageState();
      debugMode := params.debug;
      this.selectedBus := selectedBus;
      buses := configs;
      loadedConfig := loaded;
      verticalScroll := 0;
      stopScroll := false;
      exit := false;
    }

    /**
     * `AppState::new`, after the configuration file is read: a given bus must
     * be configured and opens the main menu, without one the bus list opens.
     */
    static method New(params: AppParams.AppParams, configs: map<string, LeoConfig>)
      returns (r: Result<AppState, string>)
      ensures r.Err? <==> Startup(params, configs).Err?
      ensures r.Err? ==> r.error == Startup(params, configs).error
      ensures r.Ok? ==> fresh(r.value) && fresh(r.value.busSelect) && fresh(r.value.botPage)
                        && r.value.botPage.selectedBot.None?
                        && r.value.View() == Startup(params, configs).value
                        && AppLaws.Inv(r.value.View())
    {
      match params.bus
      case Some(bus) =>
        if bus in configs {
          var app := new AppState(params, configs, Main, Some(bus), Some(configs[bus]));
          r := Ok(app);
        } else {
          r := Err("unable to find " + bus + " in leo config");
        }
      case None =>
        var app := new AppState(params, configs, BusSelect, None, None);
        r := Ok(app);
      if r.Ok? { AppLaws.StartupInv(params, configs); }
    }

    /** `navigate` of the main menu. */
    method Navigate(key: Key) returns (outcome: Outcome<string>)
      modifies this
      ensures Stepped(View(), outcome) == NavigateMenu(old(View()), key)
    {
      match key
      case Down =>
        tabIndex := SatInc(tabIndex + TAB_SIZE) % TAB_SIZE;
        outcome := Pass;
      case Up =>
        tabIndex := SatDec(tabIndex + TAB_SIZE) % TAB_SIZE;
        outcome := Pass;
      case Enter =>
        mode := TabFromIndex(tabIndex);
        outcome := Pass;
      case _ =>
        outcome := Fail("invalid key_code");
    }

    /** The loading page's key handling. */
    method LoadingStep()
      modifies this
      ensures View() == LoadingKey(old(View())).state
    {
      if botPage.allBots.Some? && botPage.allBots.value != [] && botPage.stats != [] {
        mode := Main;
      }
    }

    /** Enter on a bot search result: fetch its statistics and open its detail view. */
    method BotEnterStep(env: Env) returns (outcome: Outcome<string>)
      requires botPage.searchResults != []
      modifies this, botPage
      ensures Stepped(View(), outcome) == BotEnter(old(View()), env)
      ensures ViewKeptOrFresh()
    {
      if botPage.currentSelectIndex >= |botPage.searchResults| {
        outcome := Panic(INDEX_OUT_OF_BOUNDS);
        return;
      }
      var name := botPage.searchResults[botPage.currentSelectIndex];
      botPage.selectedBotName := Some(name);
      if loadedConfig.None? {
        outcome := Panic(UNWRAP_NONE);
        return;
      }
      var fetched := env.fetchStats("bot:" + name, loadedConfig.value.leoStats);
      if fetched.Err? {
        outcome := Fail(fetched.error);
        return;
      }
      assert View() == old(View()).(botPage := old(View()).botPage.(selectedBotName := Some(name)));
      outcome := OpenBotStep(fetched.value);
    }

    /** The fetched statistics stored, the query cleared, the detail view built and, when that works, shown. */
    method OpenBotStep(stats: seq<BotStats.StatsRecord>) returns (outcome: Outcome<string>)
      modifies this, botPage
      ensures Stepped(View(), outcome) == OpenBot(old(View()), stats)
      ensures ViewKeptOrFresh()
    {
      botPage.stats := stats;
      botPage.search := [];
      botPage.searchResults := [];
      ghost var cleared := View();
      assert cleared == old(View()).(botPage := old(View()).botPage.(stats := stats, search := [], searchResults := []));
      outcome := botPage.GetBotDetailsStep();
      ghost var details := BotPage.GetBotDetails(cleared.botPage);
      assert View() == cleared.(botPage := details.state) && outcome == details.outcome;
      if outcome.Pass? {
        mode := BotView;
      }
    }

    /** The bot search page's key handling. */
    method BotKeyStep(key: Key, env: Env) returns (outcome: Outcome<string>)
      modifies this, botPage
      ensures Stepped(View(), outcome) == BotKey(old(View()), key, env)
      ensures ViewKeptOrFresh()
    {
      var len := |botPage.searchResults|;
      outcome := Pass;
      match key
      case Down =>
        if len > 0 {
          botPage.currentSelectIndex := CycleDown(botPage.currentSelectIndex, len);
        }
      case Up =>
        if len > 0 {
          botPage.currentSelectIndex := CycleUp(botPage.currentSelectIndex, len);
        }
      case Enter =>
        if len > 0 {
          outcome := BotEnterStep(env);
        }
      case _ =>
        botPage.search := env.edit(botPage.search, key);
        botPage.SearchBotsStep(env.score);
    }

    /** `load_bot_settings`: fetch the settings of the loaded bus and list their names. */
    method LoadBotSettingsStep(env: Env) returns (outcome: Outcome<string>)
      modifies botPage
      ensures Stepped(View(), outcome) == LoadBotSettings(old(View()), env)
      ensures botPage.selectedBot == old(botPage.selectedBot)
    {
      if loadedConfig.None? {
        outcome := Panic(UNWRAP_NONE);
        return;
      }
      var fetched := env.fetchSettings(loadedConfig.value.leoCron);
      if fetched.Err? {
        outcome := Fail(fetched.error);
        return;
      }
      botPage.allBots := Some(fetched.value);
      outcome := botPage.BotNamesStep();
    }

    /** Enter on the bus list: select the bus, load its configuration and bot settings. */
    method BusEnterStep(env: Env) returns (outcome: Outcome<string>)
      requires busSelect.buses != []
      modifies this, botPage
      ensures Stepped(View(), outcome) == BusEnter(old(View()), env)
      ensures botPage.selectedBot == old(botPage.selectedBot)
    {
      if busSelect.busSelectedIndex >= |busSelect.buses| {
        outcome := Panic(INDEX_OUT_OF_BOUNDS);
        return;
      }
      var selected := busSelect.buses[busSelect.busSelectedIndex];
      selectedBus := Some(selected);
      loadedConfig := if selected in buses then Some(buses[selected]) else None;
      assert View() == old(View()).(selectedBus := selectedBus, loadedConfig := loadedConfig);
      outcome := LoadBotSettingsStep(env);
      if outcome.Pass? {
        mode := Main;
      }
    }

    /** The bus list's key handling. */
    method BusKeyStep(key: Key, env: Env) returns (outcome: Outcome<string>)
      modifies this, busSelect, botPage
      ensures Stepped(View(), outcome) == BusKey(old(View()), key, env)
      ensures botPage.selectedBot == old(botPage.selectedBot)
    {
      var len := |busSelect.buses|;
      outcome := Pass;
      match key
      case Down =>
        if len > 0 {
          busSelect.busSelectedIndex := CycleDown(busSelect.busSelectedIndex, len);
          busSelect.verticalScroll := SatInc(busSelect.verticalScroll);
        }
      case Up =>
        if len > 0 {
          busSelect.busSelectedIndex := CycleUp(busSelect.busSelectedIndex, len);
          busSelect.verticalScroll := SatDec(busSelect.verticalScroll);
        }
      case Enter =>
        if len > 0 {
          outcome := BusEnterStep(env);
        }
      case _ =>
        outcome := Fail(INVALID_KEY);
    }

    /** The bot detail page's key handling: the view scrolls in place. */
    method BotViewKeyStep(key: Key) returns (outcome: Outcome<string>)
      modifies this, botPage.ViewObjects()
      ensures Stepped(View(), outcome) == BotViewKey(old(View()), key)
      ensures botPage.selectedBot == old(botPage.selectedBot)
    {
      if botPage.selectedBot.None? {
        outcome := Fail("cannot navigate a non-existant bot");
        return;
      }
      var view := botPage.selectedBot.value;
      match key
      case Up =>
        outcome := view.Navigate(Up);
      case Down =>
        outcome := view.Navigate(Down);
      case Tab =>
        mode := Bot;
        outcome := Pass;
      case _ =>
        outcome := Fail(INVALID_KEY);
    }

    /** The state dump's key handling. */
    method StateViewKeyStep(key: Key) returns (outcome: Outcome<string>)
      modifies this
      ensures Stepped(View(), outcome) == StateViewKey(old(View()), key)
    {
      outcome := Pass;
      match key
      case Up =>
        verticalScroll := SatDec(verticalScroll);
      case Down =>
        if !stopScroll {
          verticalScroll := SatInc(verticalScroll);
        }
      case Tab =>
        mode := Main;
      case _ =>
        outcome := Fail(INVALID_KEY);
    }

    /** `handle_key_event`: the global keys first, then the page's own handling. */
    method HandleKeyEvent(key: Key, env: Env) returns (outcome: Outcome<string>)
      modifies this, busSelect, botPage, botPage.ViewObjects()
      ensures Stepped(View(), outcome) == HandleKey(old(View()), key, env)
      ensures ViewKeptOrFresh()
    {
      outcome := Pass;
      if key == Char('q') || key == Esc {
        exit := true;
      } else if key == Home {
        tabIndex := 0;
        mode := Main;
      } else if key == F(5) {
        if debugMode {
          mode := StateView;
        }
      } else {
        match mode
        case Loading => LoadingStep();
        case Main => outcome := Navigate(key);
        case Bot => outcome := BotKeyStep(key, env);
        case BusSelect => outcome := BusKeyStep(key, env);
        case Queue => outcome := Panic("not yet implemented");
        case BotView => outcome := BotViewKeyStep(key);
        case StateView => outcome := StateViewKeyStep(key);
      }
    }

    /** `handle_events`: key presses are handled, other events ignored. */
    method HandleEvents(ev: Event, env: Env) returns (outcome: Outcome<string>)
      modifies this, busSelect, botPage, botPage.ViewObjects()
      ensures Stepped(View(), outcome) == HandleEvent(old(View()), ev, env)
      ensures ViewKeptOrFresh()
    {
      outcome := Pass;
      if ev.KeyPress? {
        outcome := HandleKeyEvent(ev.key, env);
      }
    }

    /**
     * `run`: the events are handled in order until the exit flag is set or a
     * step fails or panics; the invariant of reachable states is kept.
     */
    method Run(inputs: seq<Input>) returns (outcome: Outcome<string>)
      modifies this, busSelect, botPage, botPage.ViewObjects()
      ensures Stepped(View(), outcome) == AppModel.Run(old(View()), inputs)
      ensures AppLaws.Inv(old(View())) ==> AppLaws.Inv(View())
    {
      var i := 0;
      outcome := Pass;
      while !exit && i < |inputs|
        invariant 0 <= i <= |inputs|
        invariant AppModel.Run(View(), inputs[i..]) == AppModel.Run(old(View()), inputs)
        invariant botPage.selectedBot.None? || botPage.selectedBot.value in old(botPage.ViewObjects())
                  || fresh(botPage.selectedBot.value)
        decreases |inputs| - i
      {
        ghost var before := View();
        var o := HandleEvents(inputs[i].event, inputs[i].env);
        if !o.Pass? {
          outcome := o;
          assert inputs[i..][0] == inputs[i];
          assert AppModel.Run(before, inputs[i..]) == Stepped(View(), o);
          break;
        }
        assert inputs[i..][0] == inputs[i] && inputs[i..][1..] == inputs[i + 1..];
        i := i + 1;
      }
      if AppLaws.Inv(old(View())) {
        AppLaws.RunInv(old(View()), inputs);
      }
    }
  }
}
