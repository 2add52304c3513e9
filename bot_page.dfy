/**
 * The bot page: the bot list, its incremental search, and the detail view
 * of one selected bot with its statistics grouped per queue.
 */
module BotPage {
  import opened Wrappers
  import opened Strings
  import opened BotStats
  import opened Grouping
  import opened Search
  import opened Nav

  /** The settings record of one bot; only the fields the page reads are spelled out. */
  datatype BotSettings = BotSettings(
    id: string, name: Option<string>, description: Option<string>, lambdaName: Option<string>,
    executionType: Option<string>, paused: Option<bool>, errorCount: Option<nat>)

  /** The value of a `BotViewState`. */
  datatype BotView = BotView(
    verticalScroll: nat, setting: BotSettings, fullStats: seq<StatsRecord>,
    writeStats: map<string, seq<QueueStats>>, readStats: map<string, seq<QueueStats>>)

  /** `BotViewState::new`: not scrolled, the statistics kept whole and grouped per queue in both directions. */
  function NewBotView(setting: BotSettings, stats: seq<StatsRecord>): (v: BotView)
    ensures v.verticalScroll == 0 && v.setting == setting && v.fullStats == stats
    ensures v.writeStats.Keys == Queues(MergeAll(stats), Write).Keys
    ensures v.readStats.Keys == Queues(MergeAll(stats), Read).Keys
  {
    GroupedKeys(stats, Write);
    GroupedKeys(stats, Read);
    BotView(0, setting, stats, Grouped(stats, Write), Grouped(stats, Read))
  }

  /** `BotViewState::navigate`: Up scrolls back saturating at 0, Down scrolls on, any other key is an error. */
  function NavigateView(v: BotView, key: Key): (r: Stepped<BotView>)
    ensures r.outcome.Pass? <==> key == Up || key == Down
    ensures r.outcome.Panic? == false
    ensures r.state == v.(verticalScroll := r.state.verticalScroll)
    ensures key == Up ==> r.state.verticalScroll == SatDec(v.verticalScroll)
    ensures key == Down ==> r.state.verticalScroll == SatInc(v.verticalScroll)
    ensures r.outcome.Fail? ==> r.state == v
  {
    match key
    case Up => Stepped(v.(verticalScroll := SatDec(v.verticalScroll)), Pass)
    case Down => Stepped(v.(verticalScroll := SatInc(v.verticalScroll)), Pass)
    case _ => Stepped(v, Fail("invalid key pressed"))
  }

  /** The detail view of one bot. */
  class BotViewState {
    var verticalScroll: nat
    var setting: BotSettings
    var fullStats: seq<StatsRecord>
    var writeStats: map<string, seq<QueueStats>>
    var readStats: map<string, seq<QueueStats>>

    function Value(): BotView
      reads this
    {
      BotView(verticalScroll, setting, fullStats, writeStats, readStats)
    }

    constructor (setting: BotSettings, stats: seq<StatsRecord>)
      ensures Value() == NewBotView(setting, stats)
    {
      verticalScroll := 0;
      this.setting := setting;
      var w := GroupStats(stats, Write);
      var r := GroupStats(stats, Read);
      writeStats := w;
      readStats := r;
      fullStats := stats;
    }

    method Navigate(key: Key) returns (outcome: Outcome<string>)
      modifies this
      ensures Stepped(Value(), outcome) == NavigateView(old(Value()), key)
    {
      match key
      case Up =>
        verticalScroll := SatDec(verticalScroll);
        outcome := Pass;
      case Down =>
        verticalScroll := SatInc(verticalScroll);
        outcome := Pass;
      case _ =>
        outcome := Fail("invalid key pressed");
    }
  }

  // ---------------------------------------------------------------------------
  // The page's rules, on values

  /** The value of a `BotPageState`. */
  datatype Page = Page(
    bots: seq<string>, stats: seq<StatsRecord>, selectedBotName: Option<string>,
    currentSelectIndex: nat, selectedBot: Option<BotView>, allBots: Option<seq<BotSettings>>,
    search: string, searchResults: seq<string>)

  /** `BotPageState::default()`. */
  const EMPTY_PAGE: Page := Page([], [], None, 0, None, None, [], [])

  /** The display names of the bots: every `"bot:"` removed from each id, in list order. */
  function BotNamesOf(settings: seq<BotSettings>): (names: seq<string>)
    ensures |names| == |settings|
    ensures forall i :: 0 <= i < |settings| ==> names[i] == RemoveAll(settings[i].id, "bot:")
  {
    if settings == [] then []
    else BotNamesOf(settings[..|settings| - 1]) + [RemoveAll(settings[|settings| - 1].id, "bot:")]
  }

  /** An id `bot:<name>` is listed as `<name>` when the name holds no further marker. */
  lemma BotNameOfId(settings: seq<BotSettings>, i: nat, name: string)
    requires i < |settings| && settings[i].id == "bot:" + name && !Contains(name, "bot:")
    ensures BotNamesOf(settings)[i] == name
  {
    PrefixThenRemoveAll("bot:", name);
  }

  /** `bot_names`: the list of names, from the loaded settings; unloaded settings panic. */
  function BotNames(p: Page): (r: Stepped<Page>)
    ensures r.outcome.Panic? <==> p.allBots.None?
    ensures r.outcome.Pass? <==> p.allBots.Some?
    ensures r.outcome.Pass? ==> r.state == p.(bots := BotNamesOf(p.allBots.value))
    ensures r.outcome.Panic? ==> r.state == p
  {
    match p.allBots
    case None => Stepped(p, Panic("called `Option::unwrap()` on a `None` value"))
    case Some(all) => Stepped(p.(bots := BotNamesOf(all)), Pass)
  }

  /** `search_bots`: the results become the ranked matches of the current query. */
  function SearchBots(p: Page, score: Scorer): (r: Page)
    ensures r == p.(searchResults := r.searchResults)
    ensures forall x :: x in r.searchResults <==> x in p.bots && score(x, p.search).Some?
  {
    forall x ensures x in Ranked(p.bots, p.search, score) <==> x in p.bots && score(x, p.search).Some? {
      RankedMembers(p.bots, p.search, score, x);
    }
    p.(searchResults := Ranked(p.bots, p.search, score))
  }

  /** A record of the selected bot at 15-minute granularity. */
  predicate IsSelectedStat(r: StatsRecord, selected: string)
  {
    Contains(r.id, selected) && r.period == "minute_15"
  }

  /** The statistics the detail view shows. */
  function SelectedStats(stats: seq<StatsRecord>, selected: string): (r: seq<StatsRecord>)
    ensures |r| <= |stats|
  {
    if stats == [] then []
    else
      var n := |stats| - 1;
      SelectedStats(stats[..n], selected) + (if IsSelectedStat(stats[n], selected) then [stats[n]] else [])
  }

  /** The selected records are exactly the records of the bot at 15-minute granularity. */
  lemma {:induction false} SelectedStatsMembers(stats: seq<StatsRecord>, selected: string, x: StatsRecord)
    ensures x in SelectedStats(stats, selected) <==> x in stats && IsSelectedStat(x, selected)
  {
    if stats != [] {
      var n := |stats| - 1;
      SelectedStatsMembers(stats[..n], selected, x);
      assert stats == stats[..n] + [stats[n]];
    }
  }

  /** The filter keeps the order of the records: filtering a concatenation concatenates the filtered parts. */
  lemma {:induction false} SelectedStatsConcat(a: seq<StatsRecord>, b: seq<StatsRecord>, selected: string)
    ensures SelectedStats(a + b, selected) == SelectedStats(a, selected) + SelectedStats(b, selected)
    decreases |b|
  {
    if b == [] {
      assert a + b == a;
    } else {
      var n := |b| - 1;
      var ab := a + b;
      SelectedStatsConcat(a, b[..n], selected);
      assert ab[..|ab| - 1] == a + b[..n];
      assert ab[|ab| - 1] == b[n];
      var tail := if IsSelectedStat(b[n], selected) then [b[n]] else [];
      assert SelectedStats(ab, selected) == SelectedStats(a + b[..n], selected) + tail;
      assert SelectedStats(b, selected) == SelectedStats(b[..n], selected) + tail;
    }
  }

  /** The first settings, in list order, whose id contains the selected name. */
  function FindSettings(all: seq<BotSettings>, selected: string): (r: Option<BotSettings>)
    ensures r.None? <==> forall i :: 0 <= i < |all| ==> !Contains(all[i].id, selected)
    ensures r.Some? ==> exists i :: 0 <= i < |all| && all[i] == r.value && Contains(all[i].id, selected)
                                   && forall j :: 0 <= j < i ==> !Contains(all[j].id, selected)
  {
    if all == [] then None
    else if Contains(all[0].id, selected) then Some(all[0])
    else
      var rest := FindSettings(all[1..], selected);
      if rest.Some? then
        ghost var i :| 0 <= i < |all[1..]| && all[1..][i] == rest.value && Contains(all[1..][i].id, selected)
                       && forall j :: 0 <= j < i ==> !Contains(all[1..][j].id, selected);
        assert all[i + 1] == rest.value && forall j :: 0 <= j < i + 1 ==> !Contains(all[j].id, selected) by {
          forall j | 0 <= j < i + 1 ensures !Contains(all[j].id, selected) {
            if j > 0 { assert all[j] == all[1..][j - 1]; }
          }
        }
        rest
      else
        assert forall i :: 0 <= i < |all| ==> !Contains(all[i].id, selected) by {
          forall i | 0 <= i < |all| ensures !Contains(all[i].id, selected) {
            if i > 0 { assert all[i] == all[1..][i - 1]; }
          }
        }
        rest
  }

  /**
   * `get_bot_details`: with settings loaded and a bot selected, opens the
   * detail view of the first matching settings with the selected records;
   * each missing piece is its own error, and an error changes nothing.
   */
  function GetBotDetails(p: Page): (r: Stepped<Page>)
    ensures r.outcome.Panic? == false
    ensures r.outcome.Fail? ==> r.state == p
    ensures p.allBots.None? && p.selectedBotName.None? ==> r.outcome == Fail("no bots loaded AND no bot selected")
    ensures p.allBots.None? && p.selectedBotName.Some? ==> r.outcome == Fail("no bots loaded")
    ensures p.allBots.Some? && p.selectedBotName.None? ==> r.outcome == Fail("no bot selected when attempting to get bot details")
    ensures r.outcome.Pass? <==>
            p.allBots.Some? && p.selectedBotName.Some? && FindSettings(p.allBots.value, p.selectedBotName.value).Some?
    ensures r.outcome.Pass? ==>
            r.state == p.(selectedBot := Some(NewBotView(FindSettings(p.allBots.value, p.selectedBotName.value).value,
                                                         SelectedStats(p.stats, p.selectedBotName.value))))
  {
    match (p.allBots, p.selectedBotName)
    case (None, None) => Stepped(p, Fail("no bots loaded AND no bot selected"))
    case (None, Some(_)) => Stepped(p, Fail("no bots loaded"))
    case (Some(_), None) => Stepped(p, Fail("no bot selected when attempting to get bot details"))
    case (Some(all), Some(selected)) =>
      var botStats := SelectedStats(p.stats, selected);
      match FindSettings(all, selected)
      case Some(settings) => Stepped(p.(selectedBot := Some(NewBotView(settings, botStats))), Pass)
      case None => Stepped(p, Fail("unable to locate settings for selected bot '" + selected + "'"))
  }

  // ---------------------------------------------------------------------------
  // The page object

  /** The bot page's state; the detail view is an object of its own. */
  class BotPageState {
    var bots: seq<string>
    var stats: seq<StatsRecord>
    var selectedBotName: Option<string>
    var currentSelectIndex: nat
    var selectedBot: Option<BotViewState>
    var allBots: Option<seq<BotSettings>>
    /** The text of the search input. */
    var search: string
    var searchResults: seq<string>

    /** The detail view object, when there is one. */
    function ViewObjects(): set<object>
      reads this
    {
      if selectedBot.Some? then {selectedBot.value} else {}
    }

    function Value(): Page
      reads this, ViewObjects()
    {
      Page(bots, stats, selectedBotName, currentSelectIndex,
           if selectedBot.Some? then Some(selectedBot.value.Value()) else None,
           allBots, search, searchResults)
    }

    /** `BotPageState::default()`. */
    constructor ()
      ensures Value() == EMPTY_PAGE
    {
      bots := [];
      stats := [];
      selectedBotName := None;
      currentSelectIndex := 0;
      selectedBot := None;
      allBots := None;
      search := [];
      searchResults := [];
    }

    method BotNamesStep() returns (outcome: Outcome<string>)
      modifies this
      ensures Stepped(Value(), outcome) == BotNames(old(Value()))
      ensures selectedBot == old(selectedBot)
    {
      if allBots.None? {
        outcome := Panic("called `Option::unwrap()` on a `None` value");
      } else {
        bots := BotNamesOf(allBots.value);
        outcome := Pass;
      }
    }

    method SearchBotsStep(score: Scorer)
      modifies this
      ensures Value() == SearchBots(old(Value()), score)
      ensures selectedBot == old(selectedBot)
    {
      var results := SearchRanked(bots, search, score);
      searchResults := results;
    }

    method GetBotDetailsStep() returns (outcome: Outcome<string>)
      modifies this
      ensures Stepped(Value(), outcome) == GetBotDetails(old(Value()))
      ensures selectedBot == old(selectedBot) || (selectedBot.Some? && fresh(selectedBot.value))
    {
      if allBots.None? && selectedBotName.None? {
        outcome := Fail("no bots loaded AND no bot selected");
      } else if allBots.None? {
        outcome := Fail("no bots loaded");
      } else if selectedBotName.None? {
        outcome := Fail("no bot selected when attempting to get bot details");
      } else {
        var selected := selectedBotName.value;
        var botStats := SelectedStats(stats, selected);
        var settings := FindSettings(allBots.value, selected);
        if settings.None? {
          outcome := Fail("unable to locate settings for selected bot '" + selected + "'");
        } else {
          var view := new BotViewState(settings.value, botStats);
          selectedBot := Some(view);
          outcome := Pass;
        }
      }
    }
  }
}
