// The list component (src/index.js:42-77): two state cells, the filter text and
// the revealed count, two handlers that overwrite them, and the view computed
// from them on every render (filter, then take, then the Load More test).

module App {
  import opened Text
  import opened Filter
  import opened Pagination

  /** `paginationAmount`: the initial revealed count and each Load More increment. */
  const PageSize: nat := 5

  /** The component's state: the filter text and the revealed count. */
  datatype State = State(filterText: string, revealed: nat)

  /** The two user events: typing into the filter input, clicking Load More. */
  datatype Event = FilterInput(text: string) | LoadMore

  /** The state on mount: no filter, one page revealed. */
  function Init(): State {
    State("", PageSize)
  }

  /** The revealed count is a whole number of pages, at least one. */
  predicate Inv(s: State) {
    s.revealed >= PageSize && s.revealed % PageSize == 0
  }

  /** One handler run as a single atomic transition. */
  function Step(s: State, e: Event): (t: State)
    ensures Inv(s) ==> Inv(t)
    ensures t.filterText != s.filterText ==> t.revealed == PageSize
    ensures e.LoadMore? ==> t.filterText == s.filterText && t.revealed > s.revealed
  {
    match e
    case FilterInput(text) => State(text, PageSize)
    case LoadMore => State(s.filterText, s.revealed + PageSize)
  }

  /** The state after handling `events` in arrival order. */
  function Run(s: State, events: seq<Event>): State
    decreases |events|
  {
    if events == [] then s else Run(Step(s, events[0]), events[1..])
  }

  /** Every run of events keeps the revealed count a whole number of pages. */
  lemma {:induction false} RunKeepsInv(s: State, events: seq<Event>)
    requires Inv(s)
    ensures Inv(Run(s, events))
    decreases |events|
  {
    if events != [] {
      RunKeepsInv(Step(s, events[0]), events[1..]);
    }
  }

  /** Every state reachable from mount has a revealed count that is a positive multiple of the page size. */
  lemma ReachableStatesKeepInv(events: seq<Event>)
    ensures Run(Init(), events).revealed >= PageSize
    ensures Run(Init(), events).revealed % PageSize == 0
  {
    RunKeepsInv(Init(), events);
  }

  /** Filter input resets to one page whatever the revealed count was before. */
  lemma FilterInputResets(s: State, s': State, text: string)
    ensures Step(s, FilterInput(text)) == Step(s', FilterInput(text))
    ensures Step(s, FilterInput(text)).revealed == PageSize
  {
  }

  /** What is rendered in a state: the filtered list, paginated. */
  function View(data: seq<Record>, s: State): Page<Record> {
    Paginate(Matches(data, s.filterText), s.revealed)
  }

  /**
   * Load More keeps the filter and only extends the visible list; when the
   * button was offered it shows at least one more record.
   */
  lemma LoadMoreExtendsView(data: seq<Record>, s: State)
    ensures View(data, s).visible <= View(data, Step(s, LoadMore)).visible
    ensures View(data, s).hasMore ==>
      |View(data, Step(s, LoadMore)).visible| > |View(data, s).visible|
  {
    var filtered := Matches(data, s.filterText);
    PaginateMonotone(filtered, s.revealed, s.revealed + PageSize);
  }

  /** A filter that matches nothing renders an empty list and no Load More button. */
  lemma NoMatchShowsNothing(data: seq<Record>, s: State)
    requires forall x :: x in data ==> !ByText(s.filterText, x)
    ensures View(data, s) == Page([], false)
  {
    MatchesEmptyIff(data, s.filterText);
  }

  /** Any filter text with an upper-case letter renders an empty list and no Load More button. */
  lemma UpperCaseFilterShowsNothing(data: seq<Record>, s: State)
    requires HasUpper(s.filterText)
    ensures View(data, s) == Page([], false)
  {
    UpperCaseQueryKeepsNothing(data, s.filterText);
  }

  /** Load More can be clicked only while the button is shown; filter input is always possible. */
  predicate Offered(data: seq<Record>, s: State, e: Event) {
    e.FilterInput? || View(data, s).hasMore
  }

  /** Every event of the run is offered in the state it is handled in. */
  predicate AllOffered(data: seq<Record>, s: State, events: seq<Event>)
    decreases |events|
  {
    events == [] || (Offered(data, s, events[0]) && AllOffered(data, Step(s, events[0]), events[1..]))
  }

  /**
   * The revealed count overshoots the number of matches by less than one page:
   * either only the first page is revealed or the last page revealed something.
   */
  predicate Bounded(data: seq<Record>, s: State) {
    s.revealed == PageSize || s.revealed < |Matches(data, s.filterText)| + PageSize
  }

  /** Runs of offered events from a bounded state stay bounded. */
  lemma {:induction false} OfferedRunStaysBounded(data: seq<Record>, s: State, events: seq<Event>)
    requires Bounded(data, s)
    requires AllOffered(data, s, events)
    ensures Bounded(data, Run(s, events))
    decreases |events|
  {
    if events != [] {
      OfferedRunStaysBounded(data, Step(s, events[0]), events[1..]);
    }
  }

  /** From mount, the revealed count never runs a whole page past the matches. */
  lemma SessionRevealsAtMostOnePagePastMatches(data: seq<Record>, events: seq<Event>)
    requires AllOffered(data, Init(), events)
    ensures var t := Run(Init(), events);
      t.revealed == PageSize || t.revealed < |Matches(data, t.filterText)| + PageSize
  {
    OfferedRunStaysBounded(data, Init(), events);
  }

  /**
   * Twelve records and no filter: five shown with Load More, then ten with
   * Load More, then all twelve with the button hidden.
   */
  lemma TwelveRecordSession(data: seq<Record>)
    requires |data| == 12
    ensures View(data, Init()) == Page(data[..5], true)
    ensures View(data, Run(Init(), [LoadMore])) == Page(data[..10], true)
    ensures View(data, Run(Init(), [LoadMore, LoadMore])) == Page(data, false)
    ensures AllOffered(data, Init(), [LoadMore, LoadMore])
  {
    EmptyQueryKeepsAll(data);
    var one, two := Step(Init(), LoadMore), Step(Step(Init(), LoadMore), LoadMore);
    assert Run(Init(), [LoadMore]) == Run(one, []) == one;
    assert [LoadMore, LoadMore][1..] == [LoadMore];
    assert Run(Init(), [LoadMore, LoadMore]) == Run(one, [LoadMore]) == two;
    assert AllOffered(data, two, []);
    assert AllOffered(data, one, [LoadMore]);
  }

  /** The mounted component: the dataset and the two state cells. */
  class ListView {
    const data: seq<Record>
    var filterText: string
    var currentPagination: nat

    /** The state cells as a `State` value. */
    function Current(): State
      reads this
    {
      State(filterText, currentPagination)
    }

    ghost predicate Valid()
      reads this
    {
      Inv(Current())
    }

    /** Mounting: empty filter, one page revealed. */
    constructor (dataset: seq<Record>)
      ensures data == dataset && Current() == Init() && Valid()
    {
      data := dataset;
      filterText := "";
      currentPagination := PageSize;
    }

    /** `handleFilterUpdate`, taking the new input text directly. */
    method HandleFilterUpdate(text: string)
      modifies this
      ensures Current() == Step(old(Current()), FilterInput(text))
      ensures filterText == text && currentPagination == PageSize && Valid()
    {
      currentPagination := PageSize;
      filterText := text;
    }

    /** `handleLoadMoreClick`. */
    method HandleLoadMoreClick()
      requires Valid()
      modifies this
      ensures Current() == Step(old(Current()), LoadMore)
      ensures filterText == old(filterText)
      ensures currentPagination == old(currentPagination) + PageSize && Valid()
    {
      currentPagination := currentPagination + PageSize;
    }

    /**
     * One render: filter the dataset, take its length as a named value, take
     * the revealed prefix, and decide whether Load More is shown.
     */
    method Render() returns (visible: seq<Record>, hasMore: bool)
      ensures Page(visible, hasMore) == View(data, Current())
      ensures forall x :: x in visible ==> x in data && ByText(filterText, x)
      ensures hasMore <==> currentPagination < |Matches(data, filterText)|
    {
      var filtered := Matches(data, filterText);
      var listLength := |filtered|;
      visible := Take(filtered, currentPagination);
      hasMore := currentPagination < listLength;
    }
  }
}
