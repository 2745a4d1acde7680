/**
 * The renderer's global store: the frame count, whether the viewer plays,
 * the layers on the timeline, and the plugin names, which are fetched from
 * the native side the first time they are asked for and kept from then on.
 */
module RendererStore {
  import opened Wrappers

  datatype ViewerState = Playing | Paused

  /** A layer on the timeline: the native layer structure, an identifier and its first and last frame. */
  datatype TimelineLayer = TimelineLayer(structure: map<string, string>, id: string, from: int, to: int)

  /** The plugin names the native side reports: one record of strings per plugin. */
  type PluginNames = seq<map<string, string>>

  /** The store's state; `pluginNames` is `None` until the names are fetched. */
  datatype State = State(frameCount: int, viewerState: ViewerState, timelineLayers: seq<TimelineLayer>,
                         pluginNames: Option<PluginNames>)

  /** The state the store is created with. */
  const INITIAL: State := State(0, Playing, [], None)

  /**
   * `getPluginNames` on state `s`, where `native` is what the native side
   * would answer: the names returned, the new state, and whether the native
   * side was asked.
   */
  function FetchPluginNames(s: State, native: PluginNames): (r: (PluginNames, State, bool))
    ensures r.2 <==> s.pluginNames.None?
    ensures s.pluginNames.Some? ==> r.0 == s.pluginNames.value && r.1 == s
    ensures s.pluginNames.None? ==> r.0 == native
    ensures r.1 == s.(pluginNames := Some(r.0))
  {
    match s.pluginNames
    case Some(names) => (names, s, false)
    case None => (native, s.(pluginNames := Some(native)), true)
  }

  /**
   * The names are fetched once: a second call asks nobody, whatever the
   * native side would now answer, returns what the first returned and
   * leaves the state as the first left it.
   */
  lemma FetchOnce(s: State, native: PluginNames, later: PluginNames)
    ensures var (names, s', _) := FetchPluginNames(s, native);
      FetchPluginNames(s', later) == (names, s', false)
  {
  }

  /** No setter affects the plugin names, so none causes a second fetch. */
  lemma SettersKeepPluginNames(s: State, count: int, v: ViewerState, layers: seq<TimelineLayer>, native: PluginNames)
    ensures FetchPluginNames(s.(frameCount := count), native).0 == FetchPluginNames(s, native).0
    ensures FetchPluginNames(s.(viewerState := v), native).0 == FetchPluginNames(s, native).0
    ensures FetchPluginNames(s.(timelineLayers := layers), native).0 == FetchPluginNames(s, native).0
  {
  }

  /** The first call on a fresh store asks the native side and returns its answer. */
  lemma FirstFetchAsksNative(native: PluginNames)
    ensures FetchPluginNames(INITIAL, native) == (native, INITIAL.(pluginNames := Some(native)), true)
  {
  }

  /** The store itself; each setter replaces its own field and no other. */
  class Store {
    var frameCount: int
    var viewerState: ViewerState
    var timelineLayers: seq<TimelineLayer>
    var pluginNames: Option<PluginNames>

    function Model(): State
      reads this
    {
      State(frameCount, viewerState, timelineLayers, pluginNames)
    }

    constructor ()
      ensures Model() == INITIAL
    {
      frameCount := 0;
      viewerState := Playing;
      timelineLayers := [];
      pluginNames := None;
    }

    method SetViewerState(state: ViewerState)
      modifies this
      ensures Model() == old(Model()).(viewerState := state)
    {
      viewerState := state;
    }

    method SetFrameCount(count: int)
      modifies this
      ensures Model() == old(Model()).(frameCount := count)
    {
      frameCount := count;
    }

    method SetTimelineLayers(layers: seq<TimelineLayer>)
      modifies this
      ensures Model() == old(Model()).(timelineLayers := layers)
    {
      timelineLayers := layers;
    }

    /** `getPluginNames`; `native` stands for the answer of `window.native.getPluginNames()`. */
    method GetPluginNames(native: PluginNames) returns (names: PluginNames, askedNative: bool)
      modifies this
      ensures (names, Model(), askedNative) == FetchPluginNames(old(Model()), native)
    {
      askedNative := false;
      var cached := pluginNames;
      if cached.None? {
        names := native;
        askedNative := true;
        pluginNames := Some(names);
      } else {
        names := cached.value;
      }
    }
  }
}
