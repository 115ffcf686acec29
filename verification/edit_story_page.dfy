/** The edit page (`EditStoryPage`): the initial load, the polling that
    follows a storybook while it is being generated, and which view is
    shown. A fetch is its `data`, `None` when the query returned none; the
    three-second cadence and the cancellation on unmount are not modelled,
    and each poll is one step. */
module EditStoryPage {
  import opened Common
  import opened Records
  import DirectorsCut

  /** A fetched storybook row with its joined pages (`None` when the join
      came back `null`). */
  datatype Fetched = Fetched(storybook: Storybook, pages: Option<seq<Page>>)

  datatype Screen = Screen(storybook: Option<Storybook>, pages: seq<Page>, loading: bool, polling: bool)

  const Initial: Screen := Screen(None, [], true, false)

  /** The screen after a fetch that returned data. */
  function Absorb(s: Screen, f: Fetched): Screen
  {
    s.(storybook := Some(f.storybook), pages := PagesOrEmpty(f.pages))
  }

  /** `data.story_pages || []`. */
  function PagesOrEmpty(pages: Option<seq<Page>>): seq<Page>
  {
    if pages.Some? then pages.value else []
  }

  /** The initial load. Loading ends either way; with data, polling starts
      exactly when the storybook is still generating. */
  function Load(data: Option<Fetched>): (s: Screen)
    ensures !s.loading
    ensures data.None? ==> s == Initial.(loading := false)
    ensures data.Some? ==> s.storybook == Some(data.value.storybook)
    ensures data.Some? ==> s.pages == PagesOrEmpty(data.value.pages)
    ensures s.polling <==> data.Some? && data.value.storybook.status == Generating
  {
    match data
    case None => Initial.(loading := false)
    case Some(f) => Absorb(Initial, f).(polling := f.storybook.status == Generating, loading := false)
  }

  /** One tick of the interval. Without polling there is no interval and
      nothing happens; a tick without data changes nothing; a tick with data
      replaces the storybook and pages and stops polling once the status is
      no longer `generating`. */
  function Poll(s: Screen, data: Option<Fetched>): (s': Screen)
    ensures !s.polling || data.None? ==> s' == s
    ensures s.polling && data.Some? ==> (&& s'.storybook == Some(data.value.storybook)
                                        && s'.pages == PagesOrEmpty(data.value.pages)
                                        && s'.loading == s.loading)
    ensures s'.polling <==> s.polling && (data.None? || data.value.storybook.status == Generating)
  {
    if !s.polling then s
    else
      match data
      case None => s
      case Some(f) => Absorb(s, f).(polling := f.storybook.status == Generating)
  }

  /** The screen after a run of ticks, first to last. */
  function Polls(s: Screen, ticks: seq<Option<Fetched>>): Screen
    decreases |ticks|
  {
    if ticks == [] then s else Polls(Poll(s, ticks[0]), ticks[1..])
  }

  /** Polling is still on after a run of ticks exactly when it was on and
      every tick that returned data found the storybook still generating. */
  lemma {:induction false} PollingStopsAtFirstSettledStatus(s: Screen, ticks: seq<Option<Fetched>>)
    ensures Polls(s, ticks).polling <==>
      s.polling && forall k :: 0 <= k < |ticks| && ticks[k].Some? ==> ticks[k].value.storybook.status == Generating
    decreases |ticks|
  {
    if ticks != [] {
      PollingStopsAtFirstSettledStatus(Poll(s, ticks[0]), ticks[1..]);
      assert forall k :: 1 <= k < |ticks| ==> ticks[k] == ticks[1..][k - 1];
    }
  }

  /** Once polling is off, no tick turns it back on or changes the screen. */
  lemma {:induction false} StoppedPollingStaysStopped(s: Screen, ticks: seq<Option<Fetched>>)
    requires !s.polling
    ensures Polls(s, ticks) == s
    decreases |ticks|
  {
    if ticks != [] {
      StoppedPollingStaysStopped(Poll(s, ticks[0]), ticks[1..]);
    }
  }

  /** The four progress dots; dot `n` (1 to 4) is lit once `n` pages exist. */
  function Dots(pages: seq<Page>): (d: seq<bool>)
    ensures |d| == 4
    ensures forall i :: 0 <= i < 4 ==> (d[i] <==> |pages| >= i + 1)
  {
    [|pages| >= 1, |pages| >= 2, |pages| >= 3, |pages| >= 4]
  }

  /** Lit dots form a prefix: no dot is lit after an unlit one. */
  lemma LitDotsArePrefix(pages: seq<Page>, i: nat, j: nat)
    requires i < j < 4 && Dots(pages)[j]
    ensures Dots(pages)[i]
  {
  }

  datatype View =
    | Spinner
    | NotFound
    | Progress(dots: seq<bool>, count: nat)
    | Editor(storybook: Storybook, editor: DirectorsCut.Editor)

  /** The view for a screen: spinner while loading, "not found" without a
      storybook, the progress dots while generating, else the editor over
      the screen's pages. */
  function ViewOf(s: Screen): (v: View)
    ensures s.loading <==> v.Spinner?
    ensures v.NotFound? <==> !s.loading && s.storybook.None?
    ensures v.Editor? <==> !s.loading && s.storybook.Some? && s.storybook.value.status != Generating
    ensures v.Progress? ==> v.count == |s.pages| && v.dots == Dots(s.pages)
    ensures v.Editor? ==> v.storybook == s.storybook.value && v.editor == DirectorsCut.Init(Some(s.pages))
  {
    if s.loading then Spinner
    else if s.storybook.None? then NotFound
    else if s.storybook.value.status == Generating then Progress(Dots(s.pages), |s.pages|)
    else Editor(s.storybook.value, DirectorsCut.Init(Some(s.pages)))
  }
}
