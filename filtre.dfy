/**
 * The sliding-window filter service: one filter per source topic, each
 * smoothing the samples published on its source with a running mean or a
 * running median, reconfigured at run time through two parameter topics.
 */
module Filtre {

  import opened Wrappers
  import opened Bus
  import opened Window
  import opened Stats

  /** The topic on which a create request names the source topic to filter. */
  const TopicFilterNew: string := "Filter/new"
  const ModeMean: int := 1
  const ModeMedian: int := 2
  const DefaultMode: int := ModeMean
  const DefaultWindowSize: nat := 9

  function FilteredTopic(source: string): string { source + "_filtered" }
  function ModeTopic(source: string): string { source + "_filtered/parameters/mode" }
  function WindowTopic(source: string): string { source + "_filtered/parameters/window" }

  /** The four topics of one filter are pairwise different, so a message reaches at most one branch of its handler. */
  lemma FilterTopicsDistinct(source: string)
    ensures source != FilteredTopic(source) && source != ModeTopic(source) && source != WindowTopic(source)
    ensures FilteredTopic(source) != ModeTopic(source) && FilteredTopic(source) != WindowTopic(source)
    ensures ModeTopic(source) != WindowTopic(source)
  {
    assert |FilteredTopic(source)| == |source| + 9;
    assert |ModeTopic(source)| == |source| + 25;
    assert |WindowTopic(source)| == |source| + 27;
  }

  /** The library parsers the service applies to payloads: Python's `float()` and `int()`. */
  datatype Decoders = Decoders(toFloat: string -> Option<real>, toInt: string -> Option<int>)

  /** The value a filter reports for a non-empty window: mean in mode 1, median in any other mode. */
  function Aggregate(mode: int, window: seq<real>): real
    requires |window| > 0
  {
    if mode == ModeMean then Mean(window) else Median(window)
  }

  /** Whatever the mode, the published value lies between the extreme samples of the window. */
  lemma AggregateBounds(mode: int, window: seq<real>)
    requires |window| > 0
    ensures Min(window) <= Aggregate(mode, window) <= Max(window)
  {
    if mode == ModeMean {
      MeanBounds(window);
    } else {
      MedianBounds(window);
    }
  }

  /** The mean of 1, 2 and 3 is 2. */
  lemma MeanExample()
    ensures Aggregate(ModeMean, [1.0, 2.0, 3.0]) == 2.0
  {
    var s := [1.0, 2.0, 3.0];
    assert [1.0][..0] == [];
    assert Sum([1.0]) == 1.0;
    assert [1.0, 2.0][..1] == [1.0];
    assert Sum([1.0, 2.0]) == 3.0;
    assert s[..2] == [1.0, 2.0];
    assert Sum(s) == 6.0;
  }

  /** The median of 3, 1, 2 is 2. */
  lemma OddMedianExample()
    ensures Aggregate(ModeMedian, [3.0, 1.0, 2.0]) == 2.0
  {
    var s, t := [3.0, 1.0, 2.0], [1.0, 2.0, 3.0];
    assert multiset(s) == multiset(t);
    assert IsSorted(t);
    SortedUnique(SortedCopy(s), t);
    assert |t| == 3 && 3 % 2 == 1 && 3 / 2 == 1;
    assert Middle(t) == t[1];
  }

  /** The median of 4, 1, 3, 2 is the average of the two middle samples, 2.5. */
  lemma EvenMedianExample()
    ensures Aggregate(ModeMedian, [4.0, 1.0, 3.0, 2.0]) == 2.5
  {
    var s, t := [4.0, 1.0, 3.0, 2.0], [1.0, 2.0, 3.0, 4.0];
    assert multiset(s) == multiset(t);
    assert IsSorted(t);
    SortedUnique(SortedCopy(s), t);
    assert |t| == 4 && 4 % 2 == 0 && 4 / 2 == 2;
    assert Middle(t) == (t[1] + t[2]) / 2.0;
  }

  /** The mutable part of a filter. */
  datatype FilterState = FilterState(mode: int, windowSize: nat, window: seq<real>)

  /** What every registered filter satisfies: a known mode, a positive capacity, a window within it. */
  predicate Good(f: FilterState)
  {
    (f.mode == ModeMean || f.mode == ModeMedian) && f.windowSize >= 1 && |f.window| <= f.windowSize
  }

  /** A filter as `Filter(source_topic)` creates it. */
  const NewFilter: FilterState := FilterState(DefaultMode, DefaultWindowSize, [])

  /** `process_value` on the state: push the sample, evicting the oldest when full. */
  function Push(f: FilterState, v: real): (r: FilterState)
    requires |f.window| <= f.windowSize
    ensures r.mode == f.mode && r.windowSize == f.windowSize
    ensures r.window == Last(f.window + [v], f.windowSize)
  {
    f.(window := BoundedAppend(f.window, v, f.windowSize))
  }

  /** `update_window_size` on the state: keep the most recent `n` samples in order. */
  function Resize(f: FilterState, n: nat): (r: FilterState)
    ensures r.mode == f.mode && r.windowSize == n
    ensures |r.window| == if |f.window| <= n then |f.window| else n
    ensures r.window == f.window[|f.window| - |r.window|..]
  {
    f.(windowSize := n, window := Last(f.window, n))
  }

  /**
   * A new filter fed 10, 20 and 30 reports 20; resized to 2 it keeps 20 and
   * 30, and fed 40 it holds 30 and 40 and reports 35.
   */
  lemma ResizeScenario()
    ensures var f3 := Push(Push(Push(NewFilter, 10.0), 20.0), 30.0);
      && f3.window == [10.0, 20.0, 30.0]
      && Aggregate(f3.mode, f3.window) == 20.0
      && Resize(f3, 2).window == [20.0, 30.0]
      && Push(Resize(f3, 2), 40.0).window == [30.0, 40.0]
      && Aggregate(Push(Resize(f3, 2), 40.0).mode, Push(Resize(f3, 2), 40.0).window) == 35.0
  {
    var f3 := Push(Push(Push(NewFilter, 10.0), 20.0), 30.0);
    assert f3.window == [10.0, 20.0, 30.0];
    var s := f3.window;
    assert s[..2] == [10.0, 20.0] && s[..2][..1] == [10.0] && [10.0][..0] == [];
    assert Sum(s) == 60.0;
    assert Resize(f3, 2).window == s[1..];
    var w := [30.0, 40.0];
    assert w[..1] == [30.0] && [30.0][..0] == [];
    assert Sum(w) == 70.0;
  }

  /** What one filter does with an inbound message, and what it publishes. */
  datatype FilterOutcome = FilterOutcome(state: FilterState, published: seq<Publish>)

  /**
   * One pass of the `on_message` loop body for the filter registered under
   * `source`: a data sample, a mode request or a window request for it, or
   * nothing.
   */
  function FilterStep(source: string, f: FilterState, m: Message, dec: Decoders): (r: FilterOutcome)
    requires Good(f)
    ensures Good(r.state)
    ensures |r.published| <= 1
    ensures r.published != [] ==> m.topic == source && dec.toFloat(m.payload).Some?
    ensures r.published != [] ==> r.published[0].topic == FilteredTopic(source)
    ensures m.topic == source && dec.toFloat(m.payload).Some? ==>
      && |r.state.window| > 0
      && r.published == [Publish(FilteredTopic(source), Number(Aggregate(r.state.mode, r.state.window)))]
  {
    if m.topic == source then
      match dec.toFloat(m.payload)
      case None => FilterOutcome(f, [])
      case Some(v) =>
        var g := Push(f, v);
        FilterOutcome(g, [Publish(FilteredTopic(source), Number(Aggregate(g.mode, g.window)))])
    else if m.topic == ModeTopic(source) then
      match dec.toInt(m.payload)
      case None => FilterOutcome(f, [])
      case Some(v) =>
        if v == 1 || v == 2 then FilterOutcome(f.(mode := v), []) else FilterOutcome(f, [])
    else if m.topic == WindowTopic(source) then
      match dec.toInt(m.payload)
      case None => FilterOutcome(f, [])
      case Some(v) =>
        if v > 0 then FilterOutcome(Resize(f, v), []) else FilterOutcome(f, [])
    else
      FilterOutcome(f, [])
  }

  predicate Distinct(s: seq<string>)
  {
    forall i, j :: 0 <= i < j < |s| ==> s[i] != s[j]
  }

  /** Appending an element that is not yet listed keeps a sequence free of repetitions. */
  lemma DistinctAppend(s: seq<string>, x: string)
    requires Distinct(s) && forall i :: 0 <= i < |s| ==> s[i] != x
    ensures Distinct(s + [x])
  {
  }

  lemma FanOutStep(keys: seq<string>, i: nat, filters: map<string, FilterState>, m: Message, dec: Decoders)
    requires i < |keys|
    requires forall k :: k in keys ==> k in filters && Good(filters[k])
    ensures FanOut(keys[..i + 1], filters, m, dec) ==
      FanOut(keys[..i], filters, m, dec) + FilterStep(keys[i], filters[keys[i]], m, dec).published
  {
    assert keys[..i + 1][..i] == keys[..i];
  }

  /** The `filters` dictionary: source topic to filter, with its iteration (insertion) order. */
  datatype Registry = Registry(filters: map<string, FilterState>, order: seq<string>)

  ghost predicate WellFormed(reg: Registry)
  {
    && (forall k :: k in reg.filters <==> k in reg.order)
    && Distinct(reg.order)
    && (forall k :: k in reg.filters ==> Good(reg.filters[k]))
  }

  /** What the filters listed in `keys`, visited in that order, publish for one message. */
  function FanOut(keys: seq<string>, filters: map<string, FilterState>, m: Message, dec: Decoders): (r: seq<Publish>)
    requires forall k :: k in keys ==> k in filters && Good(filters[k])
  {
    if keys == [] then []
    else
      var last := keys[|keys| - 1];
      FanOut(keys[..|keys| - 1], filters, m, dec) + FilterStep(last, filters[last], m, dec).published
  }

  /** Every registered filter after it has been offered a message that is not a create request. */
  function Advance(filters: map<string, FilterState>, m: Message, dec: Decoders): (r: map<string, FilterState>)
    requires forall k :: k in filters ==> Good(filters[k])
    ensures r.Keys == filters.Keys
    ensures forall k :: k in r ==> Good(r[k])
  {
    map k | k in filters :: FilterStep(k, filters[k], m, dec).state
  }

  datatype StepResult = StepResult(registry: Registry, published: seq<Publish>)

  /** The default parameters announced on the parameter topics of a new filter. */
  function Announce(source: string): seq<Publish>
  {
    [Publish(ModeTopic(source), Text("1")), Publish(WindowTopic(source), Text("9"))]
  }

  /** `on_message` on the registry: a create request, or a message offered to every registered filter. */
  function Step(reg: Registry, m: Message, dec: Decoders): (r: StepResult)
    requires WellFormed(reg)
    ensures WellFormed(r.registry)
  {
    if m.topic == TopicFilterNew then
      var source := m.payload;
      if source in reg.filters then StepResult(reg, [])
      else
        StepResult(Registry(reg.filters[source := NewFilter], reg.order + [source]), Announce(source))
    else
      StepResult(Registry(Advance(reg.filters, m, dec), reg.order), FanOut(reg.order, reg.filters, m, dec))
  }

  /**
   * A create request for a source that already has a filter changes nothing;
   * otherwise it adds exactly that source, with a default filter, and leaves
   * every other filter as it was. No other message adds or removes a filter.
   */
  lemma StepRegistry(reg: Registry, m: Message, dec: Decoders)
    requires WellFormed(reg)
    ensures var r := Step(reg, m, dec);
      && (m.topic == TopicFilterNew && m.payload in reg.filters ==> r == StepResult(reg, []))
      && (m.topic == TopicFilterNew && m.payload !in reg.filters ==>
            && r.registry.filters.Keys == reg.filters.Keys + {m.payload}
            && r.registry.filters[m.payload] == NewFilter
            && (forall k :: k in reg.filters ==> r.registry.filters[k] == reg.filters[k]))
      && (m.topic != TopicFilterNew ==> r.registry.filters.Keys == reg.filters.Keys && r.registry.order == reg.order)
  {
  }

  /**
   * A filter whose three topics differ from the message topic is untouched;
   * the filter whose source is the topic takes the sample when the payload is
   * a number; the mode and window requests apply only to accepted values.
   */
  lemma FilterStepEffects(source: string, f: FilterState, m: Message, dec: Decoders)
    requires Good(f)
    ensures var g := FilterStep(source, f, m, dec).state;
      && (m.topic != source && m.topic != ModeTopic(source) && m.topic != WindowTopic(source) ==> g == f)
      && (m.topic == source && dec.toFloat(m.payload).None? ==> g == f)
      && (m.topic == source && dec.toFloat(m.payload).Some? ==>
            g == FilterState(f.mode, f.windowSize, Last(f.window + [dec.toFloat(m.payload).value], f.windowSize)))
      && (m.topic != source && m.topic == ModeTopic(source) ==>
            g.windowSize == f.windowSize && g.window == f.window &&
            g.mode == (if dec.toInt(m.payload) in {Some(1), Some(2)} then dec.toInt(m.payload).value else f.mode))
      && (m.topic != source && m.topic != ModeTopic(source) && m.topic == WindowTopic(source) ==>
            g.mode == f.mode &&
            if dec.toInt(m.payload).Some? && dec.toInt(m.payload).value > 0
            then g.windowSize == dec.toInt(m.payload).value && g.window == Last(f.window, g.windowSize)
            else g == f)
  {
  }

  /** A message other than a create request is offered to every registered filter, independently. */
  lemma StepOnFilter(reg: Registry, m: Message, dec: Decoders, k: string)
    requires WellFormed(reg) && k in reg.filters && m.topic != TopicFilterNew
    ensures Step(reg, m, dec).registry.filters[k] == FilterStep(k, reg.filters[k], m, dec).state
  {
  }

  /**
   * On a data message, only the filter registered under the message topic
   * publishes, once, on its filtered topic; other messages publish nothing.
   */
  lemma {:induction false} FanOutOnlySource(keys: seq<string>, filters: map<string, FilterState>, m: Message, dec: Decoders)
    requires forall k :: k in keys ==> k in filters && Good(filters[k])
    requires Distinct(keys)
    ensures FanOut(keys, filters, m, dec) ==
      if m.topic in keys then FilterStep(m.topic, filters[m.topic], m, dec).published else []
  {
    if keys != [] {
      var init, last := keys[..|keys| - 1], keys[|keys| - 1];
      assert keys == init + [last];
      assert Distinct(init);
      FanOutOnlySource(init, filters, m, dec);
      assert m.topic in keys <==> m.topic in init || m.topic == last;
      assert last !in init;
    }
  }

  /**
   * A message other than a create request publishes what the filter
   * registered under its topic publishes, and nothing when there is none.
   */
  lemma StepPublishes(reg: Registry, m: Message, dec: Decoders)
    requires WellFormed(reg) && m.topic != TopicFilterNew
    ensures Step(reg, m, dec).published ==
      if m.topic in reg.filters then FilterStep(m.topic, reg.filters[m.topic], m, dec).published else []
  {
    FanOutOnlySource(reg.order, reg.filters, m, dec);
  }

  /** The registry after a sequence of messages, handled one at a time in arrival order. */
  function Run(reg: Registry, ms: seq<Message>, dec: Decoders): (r: Registry)
    requires WellFormed(reg)
    ensures WellFormed(r)
    ensures reg.filters.Keys <= r.filters.Keys
    decreases |ms|
  {
    if ms == [] then reg
    else
      StepRegistry(reg, ms[0], dec);
      Run(Step(reg, ms[0], dec).registry, ms[1..], dec)
  }

  /** Every filter a run ever registers has mode 1 or 2 and a window capacity of at least 1. */
  lemma RunKeepsParametersValid(ms: seq<Message>, dec: Decoders)
    ensures var filters := Run(Registry(map[], []), ms, dec).filters;
      forall k | k in filters ::
        (filters[k].mode == 1 || filters[k].mode == 2) && filters[k].windowSize >= 1 && |filters[k].window| <= filters[k].windowSize
  {
  }

  /** A filter on one source topic: a bounded FIFO window of samples and a mode. */
  class Filter {
    /** The three other topics of the filter are `FilteredTopic`, `ModeTopic` and `WindowTopic` of this one. */
    const sourceTopic: string
    var mode: int
    var windowSize: nat
    var window: seq<real>

    ghost predicate Valid()
      reads this
    {
      |window| <= windowSize
    }

    function State(): FilterState
      reads this
    {
      FilterState(mode, windowSize, window)
    }

    constructor (sourceTopic: string, windowSize: nat := DefaultWindowSize, mode: int := DefaultMode)
      ensures Valid() && this.sourceTopic == sourceTopic
      ensures State() == FilterState(mode, windowSize, [])
    {
      this.sourceTopic := sourceTopic;
      this.mode := mode;
      this.windowSize := windowSize;
      window := [];
    }

    /**
     * Appends a sample (evicting the oldest when the window is full) and
     * returns the aggregate of the new window. The window is never empty
     * afterwards, so the mean's division is defined.
     */
    method ProcessValue(value: real) returns (filtered: real)
      requires Valid() && windowSize >= 1
      modifies this`window
      ensures Valid()
      ensures window == Last(old(window) + [value], windowSize)
      ensures |window| == if |old(window)| < windowSize then |old(window)| + 1 else windowSize
      ensures filtered == Aggregate(mode, window)
    {
      window := BoundedAppend(window, value, windowSize);
      if mode == ModeMean {
        filtered := Mean(window);
      } else {
        filtered := Median(window);
      }
    }

    /**
     * Rebuilds the window with capacity `newSize`, appending the samples of
     * `old_vals[-new_size:]` one by one, so that the most recent `newSize`
     * samples survive in their original order.
     */
    method UpdateWindowSize(newSize: nat)
      requires Valid()
      modifies this`window, this`windowSize
      ensures Valid()
      ensures windowSize == newSize
      ensures window == Last(old(window), newSize)
    {
      var oldValues := window;
      var kept := NegativeSlice(oldValues, newSize);
      var w: seq<real> := [];
      for i := 0 to |kept|
        invariant w == Last(kept[..i], newSize)
      {
        AppendNext(kept, i, newSize);
        w := BoundedAppend(w, kept[i], newSize);
      }
      assert kept[..|kept|] == kept;
      LastOfNegativeSlice(oldValues, newSize);
      windowSize := newSize;
      window := w;
    }

    /**
     * The body of the `on_message` loop for this filter: a sample on its
     * source topic, a mode request, or a window request; anything else is
     * ignored. Returns what it publishes.
     */
    method HandleMessage(m: Message, dec: Decoders) returns (published: seq<Publish>)
      requires Good(State())
      modifies this
      ensures FilterOutcome(State(), published) == FilterStep(sourceTopic, old(State()), m, dec)
    {
      published := [];
      if m.topic == sourceTopic {
        var v := dec.toFloat(m.payload);
        if v.Some? {
          var filtered := ProcessValue(v.value);
          published := [Publish(FilteredTopic(sourceTopic), Number(filtered))];
        }
      } else if m.topic == ModeTopic(sourceTopic) {
        var v := dec.toInt(m.payload);
        if v.Some? && (v.value == 1 || v.value == 2) {
          mode := v.value;
        }
      } else if m.topic == WindowTopic(sourceTopic) {
        var v := dec.toInt(m.payload);
        if v.Some? && v.value > 0 {
          UpdateWindowSize(v.value);
        }
      }
    }
  }

  /** The service: the `filters` dictionary and the `on_message` callback. */
  class FilterManager {
    var filters: map<string, Filter>
    /** The dictionary's iteration order, which is the order of insertion. */
    var order: seq<string>
    /** The state of each registered filter. */
    ghost var model: map<string, FilterState>

    ghost predicate Valid()
      reads this, filters.Values
    {
      && filters.Keys == model.Keys
      && (forall k :: k in filters ==> k in order)
      && (forall i :: 0 <= i < |order| ==> order[i] in filters)
      && Distinct(order)
      && (forall k :: k in model ==> Good(model[k]))
      && (forall k :: k in filters ==> filters[k].sourceTopic == k && filters[k].State() == model[k])
    }

    ghost function View(): Registry
      reads this
    {
      Registry(model, order)
    }

    constructor ()
      ensures Valid() && View() == Registry(map[], [])
    {
      filters := map[];
      order := [];
      model := map[];
    }

    /**
     * Handles one inbound message and returns what it publishes, in order;
     * the new registry and the publishes are those of `Step`.
     */
    method OnMessage(m: Message, dec: Decoders) returns (out: seq<Publish>)
      requires Valid()
      modifies this, filters.Values
      ensures Valid()
      ensures StepResult(View(), out) == Step(old(View()), m, dec)
    {
      if m.topic == TopicFilterNew {
        out := Create(m.payload);
      } else {
        out := Dispatch(m, dec);
      }
    }

    /** The create branch of `on_message`: refused when the source already has a filter. */
    method Create(source: string) returns (out: seq<Publish>)
      requires Valid()
      modifies this
      ensures Valid()
      ensures source in old(model) ==> View() == old(View()) && out == []
      ensures source !in old(model) ==>
        && View() == Registry(old(model)[source := NewFilter], old(order) + [source])
        && out == Announce(source)
    {
      if source in filters {
        out := [];
        return;
      }
      var f := new Filter(source);
      filters := filters[source := f];
      DistinctAppend(order, source);
      order := order + [source];
      model := model[source := NewFilter];
      out := Announce(source);
    }

    /** The loop of `on_message` over every registered filter, with the registry updated after it. */
    method Dispatch(m: Message, dec: Decoders) returns (out: seq<Publish>)
      requires Valid() && m.topic != TopicFilterNew
      modifies this`model, filters.Values
      ensures Valid()
      ensures StepResult(View(), out) == Step(old(View()), m, dec)
    {
      out := VisitAll(m, dec);
      model := Advance(model, m, dec);
      forall k | k in filters
        ensures filters[k].State() == model[k]
      {
        var j :| 0 <= j < |order| && order[j] == k;
      }
    }

    /** Offers the message to every registered filter, in dictionary order, and collects what they publish. */
    method VisitAll(m: Message, dec: Decoders) returns (out: seq<Publish>)
      requires Distinct(order)
      requires forall j :: 0 <= j < |order| ==>
        && order[j] in filters && order[j] in model && Good(model[order[j]])
        && filters[order[j]].sourceTopic == order[j] && filters[order[j]].State() == model[order[j]]
      modifies filters.Values
      ensures forall j :: 0 <= j < |order| ==>
        filters[order[j]].State() == FilterStep(order[j], model[order[j]], m, dec).state
      ensures out == FanOut(order, model, m, dec)
    {
      out := [];
      for i := 0 to |order|
        invariant forall j :: 0 <= j < |order| ==>
          filters[order[j]].State() == (if j < i then FilterStep(order[j], model[order[j]], m, dec).state else model[order[j]])
        invariant out == FanOut(order[..i], model, m, dec)
      {
        var key := order[i];
        var f := filters[key];
        FanOutStep(order, i, model, m, dec);
        var published := f.HandleMessage(m, dec);
        out := out + published;
      }
      assert order[..|order|] == order;
    }
  }
}
