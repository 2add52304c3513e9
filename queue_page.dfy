/**
 * The queue page: the queue list and its incremental search.  The queue
 * details type comes from a store module that is not part of this model;
 * only its `event` name is read.
 */
module QueuePage {
  import opened Wrappers
  import opened Strings
  import opened BotStats
  import opened Search

  /** A queue as the store lists it. */
  datatype QueueDetails = QueueDetails(event: string)

  /** The detail view of one queue: its statistics grouped per bot. */
  datatype QueueView = QueueView(
    verticalScroll: nat, fullStats: seq<StatsRecord>,
    writeStats: map<string, seq<QueueStats>>, readStats: map<string, seq<QueueStats>>)

  /** The value of a `QueueSearchState`. */
  datatype QueueSearch = QueueSearch(
    allQueues: Option<seq<QueueDetails>>, currentSelectIndex: nat, queues: seq<string>,
    search: string, searchResults: seq<string>, selectedQueueName: Option<string>,
    selectedQueue: Option<QueueView>, stats: seq<StatsRecord>)

  /** The display names of the queues: every `"queue:"` removed from each event name, in list order. */
  function QueueNamesOf(all: seq<QueueDetails>): (names: seq<string>)
    ensures |names| == |all|
    ensures forall i :: 0 <= i < |all| ==> names[i] == RemoveAll(all[i].event, "queue:")
  {
    if all == [] then []
    else QueueNamesOf(all[..|all| - 1]) + [RemoveAll(all[|all| - 1].event, "queue:")]
  }

  /** An event `queue:<name>` is listed as `<name>` when the name holds no further marker. */
  lemma QueueNameOfEvent(all: seq<QueueDetails>, i: nat, name: string)
    requires i < |all| && all[i].event == "queue:" + name && !Contains(name, "queue:")
    ensures QueueNamesOf(all)[i] == name
  {
    PrefixThenRemoveAll("queue:", name);
  }

  /** `queue_names`: the list of names from the loaded queues; unloaded queues panic. */
  function QueueNames(q: QueueSearch): (r: Stepped<QueueSearch>)
    ensures r.outcome.Panic? <==> q.allQueues.None?
    ensures r.outcome.Pass? <==> q.allQueues.Some?
    ensures r.outcome.Pass? ==> r.state == q.(queues := QueueNamesOf(q.allQueues.value))
    ensures r.outcome.Panic? ==> r.state == q
  {
    match q.allQueues
    case None => Stepped(q, Panic("called `Option::unwrap()` on a `None` value"))
    case Some(all) => Stepped(q.(queues := QueueNamesOf(all)), Pass)
  }

  /** `search_queues`: the results become the ranked matches of the current query. */
  function SearchQueues(q: QueueSearch, score: Scorer): (r: QueueSearch)
    ensures r == q.(searchResults := r.searchResults)
    ensures |r.searchResults| <= |q.queues|
    ensures forall x :: x in r.searchResults <==> x in q.queues && score(x, q.search).Some?
  {
    forall x ensures |Ranked(q.queues, q.search, score)| <= |q.queues|
      && (x in Ranked(q.queues, q.search, score) <==> x in q.queues && score(x, q.search).Some?) {
      RankedMembers(q.queues, q.search, score, x);
    }
    RankedMembers(q.queues, q.search, score, []);
    q.(searchResults := Ranked(q.queues, q.search, score))
  }

  /** The queue page's state. */
  class QueueSearchState {
    var allQueues: Option<seq<QueueDetails>>
    var currentSelectIndex: nat
    var queues: seq<string>
    /** The text of the search input. */
    var search: string
    var searchResults: seq<string>
    var selectedQueueName: Option<string>
    var selectedQueue: Option<QueueView>
    var stats: seq<StatsRecord>

    function Value(): QueueSearch
      reads this
    {
      QueueSearch(allQueues, currentSelectIndex, queues, search, searchResults, selectedQueueName, selectedQueue, stats)
    }

    /** `QueueSearchState::default()`. */
    constructor ()
      ensures Value() == QueueSearch(None, 0, [], [], [], None, None, [])
    {
      allQueues := None;
      currentSelectIndex := 0;
      queues := [];
      search := [];
      searchResults := [];
      selectedQueueName := None;
      selectedQueue := None;
      stats := [];
    }

    method QueueNamesStep() returns (outcome: Outcome<string>)
      modifies this
      ensures Stepped(Value(), outcome) == QueueNames(old(Value()))
    {
      if allQueues.None? {
        outcome := Panic("called `Option::unwrap()` on a `None` value");
      } else {
        queues := QueueNamesOf(allQueues.value);
        outcome := Pass;
      }
    }

    method SearchQueuesStep(score: Scorer)
      modifies this
      ensures Value() == SearchQueues(old(Value()), score)
    {
      var results := SearchRanked(queues, search, score);
      searchResults := results;
    }
  }
}
