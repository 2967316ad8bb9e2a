/**
 * The equalizer engine (src/hooks/useEqualizer.ts): a ten-band state
 * record, a fixed table of eight presets, and a filter chain built once,
 * lazily, when the media element becomes playable.
 *
 * The state transitions (`setEqualizerState(prev => ...)`) are functions on
 * `EqualizerState`; the class `Equalizer` holds the state together with the
 * live audio nodes (the filter chain, the output gain node, the audio
 * context) and applies each transition plus its push into the live nodes.
 */
module Equalizer {
  import opened Wrappers
  import opened MusicTypes

  const BandCount: nat := 10
  const BandFrequencies: seq<int> := [60, 170, 310, 600, 1000, 3000, 6000, 12000, 14000, 16000]
  const BandLabels: seq<string> :=
    ["60Hz", "170Hz", "310Hz", "600Hz", "1kHz", "3kHz", "6kHz", "12kHz", "14kHz", "16kHz"]

  // ---------------------------------------------------------------------------
  // The state record and its transitions

  /** The state the hook starts from. */
  function InitialEqualizerState(): (s: EqualizerState)
    ensures |s.bands| == BandCount
    ensures forall i :: 0 <= i < BandCount ==>
              s.bands[i].frequency == BandFrequencies[i] && s.bands[i].gain == 0
              && s.bands[i].labelText == BandLabels[i]
    ensures s.preset == "Flat" && !s.isEnabled && s.bass == 0 && s.treble == 0
  {
    EqualizerState(
      isEnabled := false,
      preset := "Flat",
      bands := seq(BandCount, i requires 0 <= i < BandCount =>
                 EqualizerBand(BandFrequencies[i], 0, BandLabels[i])),
      bass := 0,
      treble := 0)
  }

  /** The bands have the fixed frequencies and labels, in order. */
  predicate FixedBands(bands: seq<EqualizerBand>) {
    |bands| == BandCount
    && forall i :: 0 <= i < BandCount ==>
         bands[i].frequency == BandFrequencies[i] && bands[i].labelText == BandLabels[i]
  }

  /**
   * `updateBand(index, gain)` on the state: an index outside the bands leaves
   * the state as it was; otherwise only that band's gain changes (to `gain`,
   * unclamped) and the preset becomes "Custom".
   */
  function BandUpdated(s: EqualizerState, index: int, gain: int): (r: EqualizerState)
    ensures !(0 <= index < |s.bands|) ==> r == s
    ensures 0 <= index < |s.bands| ==>
      && |r.bands| == |s.bands|
      && r.bands[index].gain == gain
      && r.bands[index].frequency == s.bands[index].frequency
      && r.bands[index].labelText == s.bands[index].labelText
      && (forall j :: 0 <= j < |s.bands| && j != index ==> r.bands[j] == s.bands[j])
      && r.preset == "Custom"
      && r.isEnabled == s.isEnabled && r.bass == s.bass && r.treble == s.treble
  {
    if 0 <= index < |s.bands| then
      s.(bands := s.bands[index := s.bands[index].(gain := gain)], preset := "Custom")
    else
      s
  }

  /** `setBass(v)` on the state: the bass field and the preset change; the bands do not. */
  function BassSet(s: EqualizerState, v: int): (r: EqualizerState)
    ensures r.bass == v && r.preset == "Custom"
    ensures r.(bass := s.bass, preset := s.preset) == s
  {
    s.(bass := v, preset := "Custom")
  }

  /** `setTreble(v)` on the state: the treble field and the preset change; the bands do not. */
  function TrebleSet(s: EqualizerState, v: int): (r: EqualizerState)
    ensures r.treble == v && r.preset == "Custom"
    ensures r.(treble := s.treble, preset := s.preset) == s
  {
    s.(treble := v, preset := "Custom")
  }

  /** `toggleEqualizer` on the state: only the enabled flag flips. */
  function EnabledToggled(s: EqualizerState): (r: EqualizerState)
    ensures r.isEnabled == !s.isEnabled
    ensures r.(isEnabled := s.isEnabled) == s
  {
    s.(isEnabled := !s.isEnabled)
  }

  // ---------------------------------------------------------------------------
  // The preset table

  const PresetNames: seq<string> :=
    ["Flat", "Rock", "Pop", "Jazz", "Classical", "Electronic", "Hip Hop", "Vocal"]

  const FlatGains: seq<int> := [0, 0, 0, 0, 0, 0, 0, 0, 0, 0]

  /**
   * Names a plain JavaScript object literal answers through its prototype:
   * `presets[name]` for one of these is an inherited function or object,
   * which is truthy, so the Flat fallback is not taken.
   */
  const ObjectPrototypeMembers: set<string> := {
    "constructor", "hasOwnProperty", "isPrototypeOf", "propertyIsEnumerable",
    "toLocaleString", "toString", "valueOf", "__proto__",
    "__defineGetter__", "__defineSetter__", "__lookupGetter__", "__lookupSetter__"
  }

  /** What `presets[name]` yields: one of the table's rows, an inherited member, or nothing. */
  datatype PresetLookup = Row(gains: seq<int>) | Inherited | Absent

  /** The table's row for one of its own names. */
  function PresetRow(name: string): (g: seq<int>)
    requires name in PresetNames
    ensures |g| == BandCount
  {
    if name == "Flat" then FlatGains
    else if name == "Rock" then [5, 4, -1, -1, 0, 1, 3, 4, 4, 4]
    else if name == "Pop" then [2, 1, 0, -1, -1, 0, 1, 2, 2, 2]
    else if name == "Jazz" then [4, 3, 1, 1, -1, -1, 0, 1, 2, 3]
    else if name == "Classical" then [5, 4, 3, 2, -1, -1, 0, 2, 3, 4]
    else if name == "Electronic" then [4, 3, 1, 0, -1, 1, 0, 1, 4, 5]
    else if name == "Hip Hop" then [5, 4, 1, 3, -1, -1, 1, -1, 2, 3]
    else [2, 1, -1, -2, -1, 1, 3, 3, 2, 1]
  }

  /** `presets[name]`: an own row first, then an inherited member, else nothing. */
  function LookupPreset(name: string): (r: PresetLookup)
    ensures r.Row? <==> name in PresetNames
    ensures r.Row? ==> |r.gains| == BandCount
    ensures r.Inherited? <==> name !in PresetNames && name in ObjectPrototypeMembers
    ensures name == "Flat" ==> r == Row(FlatGains)
    ensures name == "Rock" ==> r == Row([5, 4, -1, -1, 0, 1, 3, 4, 4, 4])
  {
    if name in PresetNames then Row(PresetRow(name))
    else if name in ObjectPrototypeMembers then Inherited
    else Absent
  }

  /**
   * `presets[name] || presets['Flat']`: the row to apply, or `None` when the
   * lookup found an inherited member, whose every index reads as undefined.
   */
  function ChosenGains(name: string): (g: Option<seq<int>>)
    ensures name in PresetNames ==> g == Some(LookupPreset(name).gains)
    ensures name !in PresetNames && name !in ObjectPrototypeMembers ==> g == Some(FlatGains)
    ensures name !in PresetNames && name in ObjectPrototypeMembers ==> g == None
  {
    match LookupPreset(name)
    case Row(gains) => Some(gains)
    case Inherited => None
    case Absent => Some(FlatGains)
  }

  /**
   * `gains[i] || 0`: the chosen gain at `i`, or 0 where it is undefined. A
   * table name gives its row's entry at a band index; every other name gives
   * 0, through the Flat row or through an inherited member.
   */
  function PresetGain(name: string, i: int): (r: int)
    ensures name in PresetNames && 0 <= i < BandCount ==> r == PresetRow(name)[i]
    ensures name !in PresetNames ==> r == 0
    ensures !(0 <= i < BandCount) ==> r == 0
  {
    match ChosenGains(name)
    case Some(g) => if 0 <= i < |g| then g[i] else 0
    case None => 0
  }

  /**
   * `setPreset(name)` on the state: `preset` holds the given name whatever it
   * is; each band's gain becomes the chosen row's entry (0 where there is
   * none); frequencies, labels and the enabled flag stay; bass and treble
   * take the row's first and last entries.
   */
  function PresetApplied(s: EqualizerState, name: string): (r: EqualizerState)
    ensures r.preset == name && r.isEnabled == s.isEnabled
    ensures |r.bands| == |s.bands|
    ensures forall i :: 0 <= i < |s.bands| ==>
              r.bands[i].gain == PresetGain(name, i)
              && r.bands[i].frequency == s.bands[i].frequency
              && r.bands[i].labelText == s.bands[i].labelText
    ensures r.bass == PresetGain(name, 0) && r.treble == PresetGain(name, BandCount - 1)
  {
    s.(preset := name,
       bands := seq(|s.bands|, i requires 0 <= i < |s.bands| =>
                  s.bands[i].(gain := PresetGain(name, i))),
       bass := PresetGain(name, 0),
       treble := PresetGain(name, BandCount - 1))
  }

  /** Applying "Rock" to the ten bands gives the Rock row, with bass 5 and treble 4. */
  lemma RockPreset(s: EqualizerState)
    requires |s.bands| == BandCount
    ensures var r := PresetApplied(s, "Rock");
      && (seq(BandCount, i requires 0 <= i < BandCount => r.bands[i].gain) == [5, 4, -1, -1, 0, 1, 3, 4, 4, 4])
      && r.bass == 5 && r.treble == 4 && r.preset == "Rock"
  {
    var r := PresetApplied(s, "Rock");
    var gains := seq(BandCount, i requires 0 <= i < BandCount => r.bands[i].gain);
    assert forall i :: 0 <= i < BandCount ==> gains[i] == [5, 4, -1, -1, 0, 1, 3, 4, 4, 4][i];
  }

  /**
   * A name outside the table (and outside the object prototype) applies the
   * Flat gains, yet `preset` records the name that was given.
   */
  lemma {:induction false} UnknownPresetIsFlat(s: EqualizerState, name: string)
    requires name !in PresetNames && name !in ObjectPrototypeMembers
    ensures PresetApplied(s, name) == PresetApplied(s, "Flat").(preset := name)
    ensures forall i :: 0 <= i < |s.bands| ==> PresetApplied(s, name).bands[i].gain == 0
  {
    var a, b := PresetApplied(s, name), PresetApplied(s, "Flat").(preset := name);
    assert ChosenGains(name) == ChosenGains("Flat");
    assert forall i :: PresetGain(name, i) == PresetGain("Flat", i);
    assert a.bands == b.bands;
  }

  /**
   * After a preset, bass and treble mirror the first and last bands, and for
   * a name of the table every band carries that row.
   */
  lemma PresetMirrorsBassAndTreble(s: EqualizerState, name: string)
    requires |s.bands| == BandCount
    ensures var r := PresetApplied(s, name);
      r.bass == r.bands[0].gain && r.treble == r.bands[BandCount - 1].gain
    ensures name in PresetNames ==>
      forall i :: 0 <= i < BandCount ==> PresetApplied(s, name).bands[i].gain == LookupPreset(name).gains[i]
  {
  }

  // ---------------------------------------------------------------------------
  // The live filter chain

  datatype FilterKind = LowShelf | Peaking | HighShelf

  /** A biquad filter node's parameters: type, centre frequency, Q and gain. */
  datatype BiquadFilter = BiquadFilter(kind: FilterKind, frequency: int, q: int, gain: int)

  /** The nodes of the audio graph. */
  datatype AudioNode = SourceNode | FilterNode(index: nat) | GainNode | Destination

  /** The filter type for position `i` of a chain of `n`: shelves at the ends, peaking between. */
  function KindFor(i: nat, n: nat): FilterKind {
    if i == 0 then LowShelf else if i == n - 1 then HighShelf else Peaking
  }

  /**
   * The filters built from the bands (lines 46-53): one per band, in band
   * order, a low shelf first and a high shelf last with peaking filters
   * between, each with Q = 1 and its band's frequency and current gain.
   */
  function BuildFilters(bands: seq<EqualizerBand>): (fs: seq<BiquadFilter>)
    ensures |fs| == |bands|
    ensures |bands| > 0 ==> fs[0].kind == LowShelf
    ensures |bands| > 1 ==> fs[|bands| - 1].kind == HighShelf
    ensures forall i :: 0 < i < |bands| - 1 ==> fs[i].kind == Peaking
    ensures forall i :: 0 <= i < |bands| ==>
              fs[i].q == 1 && fs[i].frequency == bands[i].frequency && fs[i].gain == bands[i].gain
  {
    seq(|bands|, i requires 0 <= i < |bands| =>
      BiquadFilter(KindFor(i, |bands|), bands[i].frequency, 1, bands[i].gain))
  }

  /** The node the k-th filter is fed from. */
  function FeedOf(k: nat): AudioNode {
    if k == 0 then SourceNode else FilterNode(k - 1)
  }

  /**
   * The connections form one path source, filter 0, ..., filter n-1, gain,
   * destination: each connection starts where the previous one ended.
   */
  predicate Wired(edges: seq<(AudioNode, AudioNode)>, n: nat) {
    && |edges| == n + 2
    && edges[0].0 == SourceNode && edges[n + 1] == (GainNode, Destination)
    && (forall k :: 0 <= k < n ==> edges[k].1 == FilterNode(k))
    && edges[n].1 == GainNode
    && (forall k :: 0 <= k < n + 1 ==> edges[k].1 == edges[k + 1].0)
  }

  /**
   * Wiring the graph (lines 56-62): `currentNode` starts at the source, each
   * filter is connected after it in turn, then the last node feeds the gain
   * node and the gain node the destination.
   */
  method ConnectChain(n: nat) returns (edges: seq<(AudioNode, AudioNode)>)
    ensures Wired(edges, n)
  {
    var current := SourceNode;
    edges := [];
    var i := 0;
    while i < n
      invariant 0 <= i <= n
      invariant |edges| == i
      invariant current == FeedOf(i)
      invariant forall k :: 0 <= k < i ==> edges[k] == (FeedOf(k), FilterNode(k))
    {
      edges := edges + [(current, FilterNode(i))];
      current := FilterNode(i);
      i := i + 1;
    }
    edges := edges + [(current, GainNode)];
    edges := edges + [(GainNode, Destination)];
    FeedsAreWired(edges, n);
  }

  /** Each filter fed from the node before it, then gain and destination: the path is `Wired`. */
  lemma FeedsAreWired(edges: seq<(AudioNode, AudioNode)>, n: nat)
    requires |edges| == n + 2
    requires forall k :: 0 <= k < n ==> edges[k] == (FeedOf(k), FilterNode(k))
    requires edges[n] == (FeedOf(n), GainNode) && edges[n + 1] == (GainNode, Destination)
    ensures Wired(edges, n)
  {
    forall k | 0 <= k < n + 1
      ensures edges[k].1 == edges[k + 1].0
    {
      if k < n {
        assert edges[k] == (FeedOf(k), FilterNode(k));
        if k + 1 < n {
          assert edges[k + 1] == (FeedOf(k + 1), FilterNode(k + 1));
        }
        assert edges[k + 1].0 == FeedOf(k + 1) == FilterNode(k);
      }
    }
  }

  /**
   * The preset's pushes into the live filters (lines 177-185). Only gains
   * change. For a table name, filter i takes entry i of its row; for a name
   * outside the table and the object prototype, every filter at a band
   * index takes 0 (the Flat row); for an inherited name no filter changes;
   * a filter beyond the ten entries never changes.
   */
  function PresetPushed(fs: seq<BiquadFilter>, name: string): (r: seq<BiquadFilter>)
    ensures |r| == |fs|
    ensures forall i :: 0 <= i < |fs| ==> r[i].(gain := fs[i].gain) == fs[i]
    ensures name in PresetNames ==>
              forall i :: 0 <= i < |fs| && i < BandCount ==> r[i].gain == PresetRow(name)[i]
    ensures name !in PresetNames && name !in ObjectPrototypeMembers ==>
              forall i :: 0 <= i < |fs| && i < BandCount ==> r[i].gain == 0
    ensures name !in PresetNames && name in ObjectPrototypeMembers ==> r == fs
    ensures forall i :: BandCount <= i < |fs| ==> r[i] == fs[i]
  {
    seq(|fs|, i requires 0 <= i < |fs| => fs[i].(gain := PresetFilterGain(fs[i], name, i)))
  }

  /**
   * `gains[i] !== undefined ? gains[i] : <unchanged>` for one filter: the
   * chosen row's entry at a band index, the filter's own gain elsewhere and
   * for an inherited name.
   */
  function PresetFilterGain(f: BiquadFilter, name: string, i: int): (r: int)
    ensures name in PresetNames && 0 <= i < BandCount ==> r == PresetRow(name)[i]
    ensures name !in PresetNames && name !in ObjectPrototypeMembers && 0 <= i < BandCount ==> r == 0
    ensures name !in PresetNames && name in ObjectPrototypeMembers ==> r == f.gain
    ensures !(0 <= i < BandCount) ==> r == f.gain
  {
    match ChosenGains(name)
    case Some(g) => if 0 <= i < |g| then g[i] else f.gain
    case None => f.gain
  }

  /** The audio context's lifecycle: not yet created, running, or released at teardown. */
  datatype ContextState = NoContext | Open | Closed

  class Equalizer {
    var state: EqualizerState
    /** `isInitializedRef`. */
    var initialized: bool
    /** `filtersRef`: the live filter nodes, empty until the chain is built. */
    var filters: seq<BiquadFilter>
    /** The connections made between the graph's nodes. */
    var connections: seq<(AudioNode, AudioNode)>
    /** `gainNodeRef`: the output gain node's value once it exists. */
    var outputGain: Option<real>
    var context: ContextState
    /** How many filter chains have been built. */
    ghost var chainsBuilt: nat
    /** How many times the audio context has been closed. */
    ghost var closeCalls: nat

    /** The filters have the built chain's fixed shape: types, frequencies and Q. */
    ghost predicate ChainShaped()
      reads this
    {
      |filters| == BandCount
      && forall i :: 0 <= i < BandCount ==>
           filters[i].kind == KindFor(i, BandCount)
           && filters[i].frequency == BandFrequencies[i] && filters[i].q == 1
    }

    ghost predicate Valid()
      reads this
    {
      && FixedBands(state.bands)
      && chainsBuilt == (if initialized then 1 else 0)
      && (!initialized ==> filters == [] && connections == [] && outputGain == None && context == NoContext)
      && (initialized ==> ChainShaped() && Wired(connections, BandCount) && outputGain.Some? && context != NoContext)
      && closeCalls == (if context == Closed then 1 else 0)
    }

    constructor ()
      ensures Valid()
      ensures state == InitialEqualizerState()
      ensures !initialized && filters == [] && outputGain == None && context == NoContext
    {
      state := InitialEqualizerState();
      initialized := false;
      filters := [];
      connections := [];
      outputGain := None;
      context := NoContext;
      chainsBuilt := 0;
      closeCalls := 0;
    }

    /**
     * `initializeAudioContext`: does nothing when there is no media element,
     * when the chain was already built, or when the platform has no audio
     * API; otherwise opens the context, creates the gain node (gain 1),
     * builds one filter per band from the current bands and wires the path.
     * A chain is therefore built at most once.
     */
    method InitializeAudioContext(audioPresent: bool, audioApiSupported: bool)
      requires Valid()
      modifies this
      ensures Valid()
      ensures state == old(state)
      ensures !audioPresent || old(initialized) || !audioApiSupported ==>
                initialized == old(initialized) && filters == old(filters)
                && connections == old(connections) && outputGain == old(outputGain)
                && context == old(context) && chainsBuilt == old(chainsBuilt)
      ensures audioPresent && !old(initialized) && audioApiSupported ==>
                initialized && context == Open && outputGain == Some(1.0)
                && filters == BuildFilters(old(state.bands)) && Wired(connections, BandCount)
                && chainsBuilt == 1
      ensures chainsBuilt <= 1 && closeCalls == old(closeCalls)
    {
      if !audioPresent || initialized {
        return;
      }
      if !audioApiSupported {
        return;
      }
      context := Open;
      outputGain := Some(1.0);
      filters := BuildFilters(state.bands);
      connections := ConnectChain(|filters|);
      initialized := true;
      chainsBuilt := chainsBuilt + 1;
    }

    /**
     * `updateBand(index, gain)`: the state takes `BandUpdated`; when the
     * index is a band's and the chain exists, that filter's gain is set too.
     */
    method UpdateBand(index: int, gain: int)
      requires Valid()
      modifies this
      ensures Valid()
      ensures state == BandUpdated(old(state), index, gain)
      ensures filters == if 0 <= index < BandCount && old(initialized)
                         then old(filters)[index := old(filters)[index].(gain := gain)]
                         else old(filters)
      ensures initialized == old(initialized) && connections == old(connections)
      ensures outputGain == old(outputGain) && context == old(context)
    {
      if index < 0 || index >= |state.bands| {
        return;
      }
      state := BandUpdated(state, index, gain);
      if index < |filters| {
        filters := filters[index := filters[index].(gain := gain)];
      }
    }

    /** `setBass(v)`: the state takes `BassSet` and, when the chain exists, only filter 0 takes `v`. */
    method SetBass(v: int)
      requires Valid()
      modifies this
      ensures Valid()
      ensures state == BassSet(old(state), v)
      ensures filters == if old(initialized) then old(filters)[0 := old(filters)[0].(gain := v)]
                         else old(filters)
      ensures initialized == old(initialized) && connections == old(connections)
      ensures outputGain == old(outputGain) && context == old(context)
    {
      state := BassSet(state, v);
      if |filters| > 0 {
        filters := filters[0 := filters[0].(gain := v)];
      }
    }

    /** `setTreble(v)`: the state takes `TrebleSet` and, when the chain exists, only the last filter takes `v`. */
    method SetTreble(v: int)
      requires Valid()
      modifies this
      ensures Valid()
      ensures state == TrebleSet(old(state), v)
      ensures filters == if old(initialized)
                         then old(filters)[BandCount - 1 := old(filters)[BandCount - 1].(gain := v)]
                         else old(filters)
      ensures initialized == old(initialized) && connections == old(connections)
      ensures outputGain == old(outputGain) && context == old(context)
    {
      state := TrebleSet(state, v);
      var lastIndex := |filters| - 1;
      if 0 <= lastIndex {
        filters := filters[lastIndex := filters[lastIndex].(gain := v)];
      }
    }

    /**
     * `setPreset(name)`: the state takes `PresetApplied`, then each live
     * filter in turn takes the chosen row's entry where there is one.
     */
    method SetPreset(name: string)
      requires Valid()
      modifies this
      ensures Valid()
      ensures state == PresetApplied(old(state), name)
      ensures filters == PresetPushed(old(filters), name)
      ensures initialized == old(initialized) && connections == old(connections)
      ensures outputGain == old(outputGain) && context == old(context)
    {
      state := PresetApplied(state, name);
      var gains := ChosenGains(name);
      var live := filters;
      var i := 0;
      while i < |live|
        invariant 0 <= i <= |live| == |filters|
        invariant forall k :: 0 <= k < i ==> live[k] == filters[k].(gain := PresetFilterGain(filters[k], name, k))
        invariant forall k :: i <= k < |live| ==> live[k] == filters[k]
      {
        if gains.Some? && i < |gains.value| {
          live := live[i := live[i].(gain := gains.value[i])];
        }
        i := i + 1;
      }
      filters := live;
    }

    /**
     * `toggleEqualizer`: flips the enabled flag, and when the gain node
     * exists sets it from the flag as it was BEFORE the flip: 0.5 if the
     * equalizer was enabled, 1 otherwise.
     */
    method ToggleEqualizer()
      requires Valid()
      modifies this
      ensures Valid()
      ensures state == EnabledToggled(old(state))
      ensures outputGain == if old(outputGain).Some? then Some(if old(state.isEnabled) then 0.5 else 1.0)
                            else None
      ensures initialized == old(initialized) && filters == old(filters)
      ensures connections == old(connections) && context == old(context)
    {
      var wasEnabled := state.isEnabled;
      state := EnabledToggled(state);
      if outputGain.Some? {
        outputGain := Some(if wasEnabled then 0.5 else 1.0);
      }
    }

    /** `resetEqualizer`: exactly `setPreset("Flat")`. */
    method ResetEqualizer()
      requires Valid()
      modifies this
      ensures Valid()
      ensures state == PresetApplied(old(state), "Flat")
      ensures filters == PresetPushed(old(filters), "Flat")
      ensures initialized == old(initialized) && connections == old(connections)
      ensures outputGain == old(outputGain) && context == old(context)
    {
      SetPreset("Flat");
    }

    /** Teardown: closes the audio context if one exists and is not closed yet; never twice. */
    method Close()
      requires Valid()
      modifies this
      ensures Valid()
      ensures context == if old(context) == Open then Closed else old(context)
      ensures closeCalls <= 1
      ensures state == old(state) && initialized == old(initialized) && filters == old(filters)
      ensures outputGain == old(outputGain) && connections == old(connections)
    {
      if context == Open {
        context := Closed;
        closeCalls := closeCalls + 1;
      }
    }
  }

  /** Two toggles give the state record back. */
  lemma ToggleTwiceRestores(s: EqualizerState)
    ensures EnabledToggled(EnabledToggled(s)) == s
  {
  }
}
