/**
 * The data-ingestion screen (`IngestionDashboard`): five tabs, of which the
 * overview lists the connected data sources, and a shared modal that adds a source
 * and offers the refresh-delay slider.
 */
module Ingestion {
  import opened Seqs
  import opened Ui

  /** A data source row; `kind` is the source's `type`. The icon is not modelled. */
  datatype Source = Source(id: int, name: string, kind: string, status: string, lastSync: string)

  function SourceId(s: Source): int { s.id }

  const Connected: string := "已连接"
  const Syncing: string := "同步中"
  const JustNow: string := "刚刚"

  /** The options of the type select in the add-source form. */
  const SourceTypes: seq<string> := ["REST API", "WebSocket", "Database"]

  /** The status badge of a source: green when connected, amber while syncing, red otherwise. */
  function SourceBadge(status: string): (v: Variant)
    ensures v == Success <==> status == Connected
    ensures v == Warning <==> status == Syncing
    ensures v == Error <==> status != Connected && status != Syncing
  {
    if status == Connected then Success else if status == Syncing then Warning else Error
  }

  /** The status badge of a scheduled task: green on success, amber otherwise. */
  function TaskBadge(status: string): (v: Variant)
    ensures v == Success <==> status == "成功"
    ensures v == Success || v == Warning
  {
    if status == "成功" then Success else Warning
  }

  /** The unit the delay slider's caption uses. */
  datatype DelayUnit = Milliseconds | Seconds | Minutes

  function UnitOf(delay: int): (u: DelayUnit)
    ensures u == Milliseconds <==> delay < 1000
    ensures u == Seconds <==> 1000 <= delay < 60000
    ensures u == Minutes <==> delay >= 60000
  {
    if delay < 1000 then Milliseconds else if delay < 60000 then Seconds else Minutes
  }

  function UnitRank(u: DelayUnit): nat {
    match u
    case Milliseconds => 0
    case Seconds => 1
    case Minutes => 2
  }

  /** A longer delay never shows in a smaller unit. */
  lemma UnitMonotone(d1: int, d2: int)
    requires d1 <= d2
    ensures UnitRank(UnitOf(d1)) <= UnitRank(UnitOf(d2))
  {
  }

  /**
   * The slider goes from 10 ms in steps of 100 ms up to at most 3 600 000 ms, so its
   * positions are 10, 110, 210, and so on; the maximum itself is not a step, and the
   * last position is 3 599 910 ms.
   */
  function SliderPosition(delay: int): (b: bool)
    ensures b <==> 10 <= delay <= 3599910 && delay % 100 == 10
  {
    10 <= delay <= 3600000 && (delay - 10) % 100 == 0
  }

  /** Every slider position below a second shows in ms, and the last one, 3 599 910 ms, in minutes. */
  lemma SliderUnits()
    ensures forall d :: SliderPosition(d) && d < 1000 ==> UnitOf(d) == Milliseconds
    ensures SliderPosition(3599910) && !SliderPosition(3600000) && UnitOf(3599910) == Minutes
  {
  }

  /** The tabs and their contents. */
  datatype Tab = OverviewTab | SchedulingTab | SearchTab | CacheTab | BackupTab

  function TabKey(t: Tab): string {
    match t
    case OverviewTab => "overview"
    case SchedulingTab => "scheduling"
    case SearchTab => "search"
    case CacheTab => "cache"
    case BackupTab => "backup"
  }

  /** The contents rendered for a value of `activeTab`: each is guarded by its own comparison. */
  function TabsShown(activeTab: string): (r: set<Tab>)
    ensures forall t :: t in r <==> TabKey(t) == activeTab
  {
    set t: Tab | t in {OverviewTab, SchedulingTab, SearchTab, CacheTab, BackupTab} && TabKey(t) == activeTab
  }

  /** The tab keys are distinct, so a tab button renders exactly its own content. */
  lemma {:induction false} OneTabShown(t: Tab)
    ensures TabsShown(TabKey(t)) == {t}
  {
    forall u | u in TabsShown(TabKey(t)) ensures u == t {
      assert TabKey(u) == TabKey(t);
      assert TabKey(u)[0] == TabKey(t)[0];
      if TabKey(u)[0] == 's' {
        assert TabKey(u)[1] == TabKey(t)[1];
      }
    }
  }

  class IngestionDashboard {
    var activeTab: string
    var sources: seq<Source>
    var isModalOpen: bool
    var delay: int

    /** Source ids are unique. */
    ghost predicate Valid()
      reads this
    {
      UniqueKeys(sources, SourceId)
    }

    constructor (initial: seq<Source>)
      requires UniqueKeys(initial, SourceId)
      ensures Valid()
      ensures activeTab == "overview" && sources == initial && !isModalOpen && delay == 0
    {
      activeTab := "overview";
      sources := initial;
      isModalOpen := false;
      delay := 0;
    }

    /** A tab button: exactly that tab's content is rendered afterwards. */
    method SetTab(t: Tab)
      requires Valid()
      modifies this`activeTab
      ensures Valid() && activeTab == TabKey(t)
      ensures TabsShown(activeTab) == {t}
    {
      activeTab := TabKey(t);
      OneTabShown(t);
    }

    /** The overview's add button. */
    method OpenModal()
      requires Valid()
      modifies this`isModalOpen
      ensures Valid() && isModalOpen
    {
      isModalOpen := true;
    }

    /** The modal's close and cancel buttons. */
    method CloseModal()
      requires Valid()
      modifies this`isModalOpen
      ensures Valid() && !isModalOpen
    {
      isModalOpen := false;
    }

    /** The slider: `parseInt` of its value, always one of its positions. */
    method SetDelay(position: int)
      requires Valid() && SliderPosition(position)
      modifies this`delay
      ensures Valid() && delay == position
    {
      delay := position;
    }

    /**
     * `handleAddSource`: a source with the form's name and type, connected and just
     * synced, is appended under the supplied fresh id (`Date.now()`), and the modal
     * closes. The form requires a name and offers only the listed types; the URL,
     * encryption flag and delay are not stored.
     */
    method AddSource(name: string, kind: string, freshId: int)
      requires Valid()
      requires name != "" && kind in SourceTypes
      requires !HasKey(sources, SourceId, freshId)
      modifies this`sources, this`isModalOpen
      ensures Valid() && !isModalOpen
      ensures sources == old(sources) + [Source(freshId, name, kind, Connected, JustNow)]
      ensures SourceBadge(sources[|sources| - 1].status) == Success
    {
      var s := Source(freshId, name, kind, Connected, JustNow);
      AppendFreshKeepsUnique(sources, SourceId, s);
      sources := sources + [s];
      isModalOpen := false;
    }
  }
}
