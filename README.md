# MQTT filter and simulator services, modelled in Dafny

Two small MQTT services are modelled here.

**The filter service (`MQTT_Filtre.py`).** It keeps a dictionary `filters` from a source topic to one `Filter`.
- A create request on `Filter/new` names a source topic. The service builds a filter with mode 1 (running mean) and a window of 9 samples, then announces `1` and `9` on the filter's mode and window topics.
- A request for a source that already has a filter is refused.
- Every other message is offered to every filter, in dictionary order:
  - a number on a filter's source topic is pushed into its bounded window, and the filter publishes the mean or the median of the window on `<source>_filtered`;
  - an integer 1 or 2 on `<source>_filtered/parameters/mode` sets the mode;
  - a positive integer on `<source>_filtered/parameters/window` resizes the window and keeps the most recent samples;
  - any other payload changes nothing.

**The simulator service (`MQTT_Simulateur.py`).** It keeps a dictionary `simvars` from a name to a `SimVar`. A `SimVar` has five numeric parameters and a queue of formatted values waiting to be published.
- A create request on `simulateur/new` inserts or replaces a variable. Fields missing from the request take their defaults. The variable then announces its five parameters.
- A delete request on `simulateur/delete` removes the variable named by the stripped payload. Before removal, the variable clears its six topics.
- A message on `simulateur/<name>/parameters/<param>` with a numeric payload sets that one parameter of a registered variable.
- `publish_pending` drains the value queue in FIFO order.

## How the model is built

Files:
- `bus.dfy`: messages and publishes.
- `window.dfy`: the bounded deque.
- `stats.dfy`: mean and median.
- `strings.dfy`: `str.split` and `str.strip`.
- `filtre.dfy`: the filter service.
- `simulateur.dfy`: the simulator service.

The mutable entities are classes:
- `Filtre.Filter` and `Filtre.FilterManager`;
- `Simulateur.SimVar` and `Simulateur.Simulator`.

Each method of a class is proved against a pure function on plain values:
- `FilterStep` and `Step` for the filter service;
- `WithParam`, `ParamPublishes`, `Tombstones`, `ValuePublishes` and `SimStep` for the simulator.

The properties of the services are lemmas about those functions.

Modelling choices:
- **Samples** are exact `real`s.
- **Payload parsers.** Python's `float()`, `int()` and `json.loads` are passed in as `Option`-returning functions (`Decoders`).
- **Publishing.** Each call to `client.publish` becomes a `Publish` event in the sequence a handler returns.
- **Dictionary order.** The registry's `order` sequence records the insertion order of the `filters` dictionary, which is the order in which `on_message` visits the filters.
- **Aliasing.** Each registry entry holds its key in an immutable field, so two keys never share one object.

The filter service, as its code is written:
- keeps one filter per source topic, keyed by that topic;
- has no delete request, no generated filter names and no event log;
- gives a new filter a window of 9 samples;
- uses the parameter topics `<source>_filtered/parameters/mode` and `<source>_filtered/parameters/window`.

## Model

| member | source | states |
|---|---|---|
| Window.Last | MQTT_Filtre.py:54 | the last n elements of a sequence, or all of it when it has at most n |
| Window.NegativeSlice | MQTT_Filtre.py:54 | Python's `s[-k:]`: a suffix of `s` of length `k`, or all of `s` when `k` is 0 or at least its length |
| Window.BoundedAppend | MQTT_Filtre.py:36-39 | appending to a deque with `maxlen` n yields the last n samples of the old contents followed by the new one |
| Window.LastThenAppend | MQTT_Filtre.py:53-55 | appending a sample to a window holding the last n samples of a history gives the last n samples of the extended history |
| Window.LastOfNegativeSlice | MQTT_Filtre.py:54 | bounding `old_vals[-n:]` to n samples keeps the last n samples of `old_vals`, including the `-0` case |
| Stats.Sum | MQTT_Filtre.py:42 | Python's `sum(self.window)`: the samples added left to right, 0 for none |
| Stats.SumLowerBound | MQTT_Filtre.py:42 | a sum of samples all at least `lo` is at least `len * lo` |
| Stats.SumUpperBound | MQTT_Filtre.py:42 | a sum of samples all at most `hi` is at most `len * hi` |
| Stats.Mean | MQTT_Filtre.py:41-42 | `sum(w) / len(w)`: the value that, multiplied by the number of samples, gives their sum |
| Stats.MeanWithin | MQTT_Filtre.py:41-42 | the mean of a non-empty window lies within any bounds of its samples |
| Stats.MeanBounds | MQTT_Filtre.py:41-42 | the mean lies between the smallest and the largest sample |
| Stats.Insert | MQTT_Filtre.py:44 | inserting into an ascending sequence gives an ascending sequence one longer, holding the old samples plus the new one |
| Stats.SortedCopy | MQTT_Filtre.py:44 | `sorted(w)` is an ascending permutation of `w` of the same length |
| Stats.SortedUnique | MQTT_Filtre.py:44 | two ascending permutations of the same samples are equal, so the sorted copy is determined by the multiset of samples |
| Stats.Median | MQTT_Filtre.py:43-46 | the middle of `SortedCopy` of the window, so it depends only on the multiset of samples |
| Stats.Middle | MQTT_Filtre.py:45-46 | the middle element of a sorted sequence for an odd count, or the average of the two middle elements for an even count |
| Stats.MiddleBounds | MQTT_Filtre.py:45-46 | the middle element, or the average of the two middle elements, lies within any bounds of the sequence |
| Stats.MedianBounds | MQTT_Filtre.py:43-46 | the median lies between the smallest and the largest sample |
| Stats.SumPermutation | MQTT_Filtre.py:42 | the sum of the window does not depend on the order of its samples |
| Stats.MeanOrderIndependent | MQTT_Filtre.py:41-42 | windows holding the same samples in any order have the same mean |
| Stats.MedianOrderIndependent | MQTT_Filtre.py:43-46 | windows holding the same samples in any order have the same median |
| Strings.Split | MQTT_Simulateur.py:239 | `str.split('/')` yields at least one part, no part contains the separator, and joining the parts with it gives the text back |
| Strings.SplitJoin | MQTT_Simulateur.py:239 | splitting undoes joining parts that contain no separator |
| Strings.Strip | MQTT_Simulateur.py:229 | `str.strip()` is the slice after the leading whitespace, only whitespace follows it, and it neither starts nor ends with whitespace |
| Strings.StripUnpadded | MQTT_Simulateur.py:229 | a name without surrounding whitespace strips to itself |
| Strings.StripIdempotent | MQTT_Simulateur.py:229 | stripping twice is stripping once |
| Filtre.FilteredTopic | MQTT_Filtre.py:31 | the topic a filter publishes on: its source followed by `_filtered` |
| Filtre.ModeTopic | MQTT_Filtre.py:32 | the mode request topic of a filter: `<source>_filtered/parameters/mode` |
| Filtre.WindowTopic | MQTT_Filtre.py:33 | the window request topic of a filter: `<source>_filtered/parameters/window` |
| Filtre.FilterTopicsDistinct | MQTT_Filtre.py:31-33 | the source, filtered, mode and window topics of one filter are pairwise different, so one message takes at most one branch of the loop body at MQTT_Filtre.py:138-168 |
| Filtre.Aggregate | MQTT_Filtre.py:41-46 | the value a filter reports: the mean of the window in mode 1 and its median in any other mode |
| Filtre.AggregateBounds | MQTT_Filtre.py:41-46 | whatever the mode, the published value lies between the smallest and the largest sample of the window |
| Filtre.MeanExample | MQTT_Filtre.py:41-42 | mode 1 on 1, 2, 3 gives 2 |
| Filtre.OddMedianExample | MQTT_Filtre.py:43-46 | mode 2 on 3, 1, 2 gives 2 |
| Filtre.EvenMedianExample | MQTT_Filtre.py:43-46 | mode 2 on 4, 1, 3, 2 gives the average of the two middle samples, 2.5 |
| Filtre.NewFilter | MQTT_Filtre.py:29-36 | the state `Filter(source_topic)` creates at MQTT_Filtre.py:120: mode 1, capacity 9, empty window |
| Filtre.Push | MQTT_Filtre.py:38-39 | a sample keeps mode and capacity and makes the window the last `window_size` samples of the old window plus the sample |
| Filtre.Resize | MQTT_Filtre.py:50-55 | a resize keeps the mode, sets the capacity, and keeps the last `min(n, len)` samples in their order |
| Filtre.ResizeScenario | MQTT_Filtre.py:29-55 | a new filter fed 10, 20, 30 reports 20; resized to 2 it keeps 20 and 30; fed 40 it holds 30 and 40 and that filter reports 35 |
| Filtre.FilterStep | MQTT_Filtre.py:138-168 | one filter keeps mode 1 or 2, a capacity of at least 1 and a window within it; it publishes at most once, only for a payload on its own source topic that parses as a number, and only on its filtered topic; such a number does publish, once, the mean or median of the updated, non-empty window on that topic |
| Filtre.FilterStepEffects | MQTT_Filtre.py:138-168 | a message on none of the filter's topics leaves it unchanged; a number on its source pushes the sample; a non-number changes nothing; the mode changes only to a parsed 1 or 2; the window resizes only for a parsed integer above 0, and otherwise nothing changes |
| Filtre.FanOut | MQTT_Filtre.py:137-145 | the publishes of the filters listed, visited in dictionary order, concatenated in that order |
| Filtre.Advance | MQTT_Filtre.py:137-168 | every registered filter after one pass of the loop body: same sources, each in its `FilterStep` state and still satisfying the filter invariant |
| Filtre.Announce | MQTT_Filtre.py:124-125 | the two publishes of a create: `1` on the mode topic, then `9` on the window topic |
| Filtre.Step | MQTT_Filtre.py:107-168 | every message keeps the registry well formed: the order lists exactly the registered sources, without repetition, and every filter satisfies the invariant above |
| Filtre.StepRegistry | MQTT_Filtre.py:112-137 | a create for a registered source changes nothing and publishes nothing; a create for a new source adds exactly that source with mode 1, window 9 and no samples, and leaves every other filter as it was; no other message adds or removes a filter or reorders them |
| Filtre.StepOnFilter | MQTT_Filtre.py:137-168 | a non-create message affects each registered filter as that filter alone would handle it |
| Filtre.FanOutOnlySource | MQTT_Filtre.py:137-145 | the publishes of one message come from the single filter registered under the message topic, or there are none |
| Filtre.StepPublishes | MQTT_Filtre.py:137-142 | a message other than a create request publishes exactly what the filter registered under its topic publishes (for a number, its aggregate on the filtered topic), and nothing when no filter has that source |
| Filtre.Run | MQTT_Filtre.py:107-168 | over any sequence of messages the registry stays well formed and never loses a filter |
| Filtre.RunKeepsParametersValid | MQTT_Filtre.py:147-168 | starting from an empty registry, every filter ever registered has mode 1 or 2, capacity at least 1 and a window within capacity |
| Filtre.Filter.constructor | MQTT_Filtre.py:29-36 | a new filter has the given source, mode and capacity and an empty window |
| Filtre.Filter.ProcessValue | MQTT_Filtre.py:38-48 | the window becomes the last `window_size` samples of the old window plus the value; its length grows by one until full; the result is the mean or the median of the new window |
| Filtre.Filter.UpdateWindowSize | MQTT_Filtre.py:50-55 | rebuilding the deque sample by sample sets the capacity and leaves the last `new_size` samples of the old window, in order |
| Filtre.Filter.HandleMessage | MQTT_Filtre.py:138-168 | the new state and the publishes of one pass of the loop body are those of `FilterStep` |
| Filtre.FilterManager.constructor | MQTT_Filtre.py:62 | the service starts with no filters |
| Filtre.FilterManager.OnMessage | MQTT_Filtre.py:107-168 | the registry after the callback and its publishes are those of `Step` on the registry before it |
| Filtre.FilterManager.Create | MQTT_Filtre.py:112-128 | a registered source is refused with nothing published; otherwise the source is appended to the dictionary with a default filter, and the two default parameters are announced |
| Filtre.FilterManager.Dispatch | MQTT_Filtre.py:136-168 | after the loop every filter holds its `FilterStep` state, and the publishes are those of `Step` |
| Filtre.FilterManager.VisitAll | MQTT_Filtre.py:137-168 | visiting the filters in dictionary order leaves each in its `FilterStep` state and concatenates their publishes in that order |
| Simulateur.ParamTopic | MQTT_Simulateur.py:24-28 | the topic of one parameter of a variable: `simulateur/<name>/parameters/<param>` |
| Simulateur.ValueTopic | MQTT_Simulateur.py:118 | the value topic of a variable, `simulateur/<name>/value`, also used at MQTT_Simulateur.py:140 |
| Simulateur.ParamTopicAsJoin | MQTT_Simulateur.py:24-28 | a parameter topic is `simulateur`, the name, `parameters` and the parameter joined with `/` |
| Simulateur.ParseParamTopic | MQTT_Simulateur.py:239-242 | split on `/`; exactly four parts, `simulateur` first and `parameters` third, give the name and the parameter, anything else is not a parameter message |
| Simulateur.ParamTopicRoundTrip | MQTT_Simulateur.py:239-242 | for a name and a parameter without `/`, the parameter topic is recognised as a parameter message for exactly that name and parameter |
| Simulateur.ParseParamTopicSound | MQTT_Simulateur.py:239-242 | a recognised topic is exactly the template filled with its name and parameter, neither containing `/` |
| Simulateur.WithParam | MQTT_Simulateur.py:123-134 | the parameter record with the field named by `period`, `min`, `max`, `noise` or `period_publish` set to the value, or unchanged for any other name |
| Simulateur.WithParamGetSet | MQTT_Simulateur.py:123-134 | `update_param` sets the named parameter to the value and leaves every other parameter as it was |
| Simulateur.WithParamUnknown | MQTT_Simulateur.py:123-134 | an unrecognised parameter name changes nothing |
| Simulateur.ParamUpdates | MQTT_Simulateur.py:100-106 | the five announced pairs carry the names `period`, `min`, `max`, `noise`, `period_publish` in that order, each with the current value |
| Simulateur.ParamPublishes | MQTT_Simulateur.py:98-108 | one publish per parameter, in the order period, min, max, noise, period_publish, each carrying the parameter's value on its own topic |
| Simulateur.ReplayParamUpdates | MQTT_Simulateur.py:98-108 | feeding the five announced values back through `update_param`, in order, reproduces the announcing variable's parameters from any starting parameters |
| Simulateur.ParamPublishesParse | MQTT_Simulateur.py:98-108 | every parameter announcement is recognised by `on_message` as a parameter message for the same variable and parameter, and carries that parameter's value |
| Simulateur.DeleteTopics | MQTT_Simulateur.py:112-119 | the five parameter topics of the variable in order, then its value topic |
| Simulateur.Tombstones | MQTT_Simulateur.py:110-121 | an empty payload on each of the six topics, in the same order |
| Simulateur.DeleteTopicsCover | MQTT_Simulateur.py:110-121 | the six tombstone topics are pairwise different and cover every parameter announcement topic and the value topic |
| Simulateur.ValuePublishes | MQTT_Simulateur.py:136-141 | one publish per queued payload on the value topic, oldest first |
| Simulateur.ValuePublishesInOrder | MQTT_Simulateur.py:136-141 | draining publishes one message per queued payload, on the value topic, in queue order |
| Simulateur.ValuePublishesConcat | MQTT_Simulateur.py:136-141 | draining in two rounds publishes what draining once would |
| Simulateur.RequestParams | MQTT_Simulateur.py:214-221 | each parameter of a created variable is the request's field when present and its default otherwise |
| Simulateur.RequestDefaults | MQTT_Simulateur.py:71-74 | a request naming only the variable gets period 60, min 15, max 61, noise 5 and period_publish 0.5 |
| Simulateur.SimStep | MQTT_Simulateur.py:208-249 | a decoded create inserts or replaces exactly that name with fresh parameters and an empty queue and announces them; an undecodable create changes nothing; a delete removes the stripped name and clears its topics only if present; any other message keeps the names, publishes nothing, and changes only the variable named by a recognised parameter topic with a numeric payload, never its queue |
| Simulateur.ParamMessageUpdates | MQTT_Simulateur.py:239-249 | a numeric payload on a parameter topic of a registered variable sets exactly that parameter of exactly that variable |
| Simulateur.CreateThenDelete | MQTT_Simulateur.py:211-236 | deleting a just-created variable leaves the registry without that name and clears its six topics |
| Simulateur.SimVar.constructor | MQTT_Simulateur.py:71-84 | a new variable has the given name and parameters and an empty queue |
| Simulateur.SimVar.UpdateParam | MQTT_Simulateur.py:123-134 | the parameters become `WithParam` of the old ones; the queue is untouched |
| Simulateur.SimVar.PublishParams | MQTT_Simulateur.py:98-108 | the loop publishes exactly `ParamPublishes` of the variable's parameters |
| Simulateur.SimVar.DeleteParams | MQTT_Simulateur.py:110-121 | the loop publishes an empty payload on each of the six topics, in order |
| Simulateur.SimVar.PublishPending | MQTT_Simulateur.py:136-141 | the while loop leaves the queue empty and publishes `ValuePublishes` of the old queue |
| Simulateur.Simulator.constructor | MQTT_Simulateur.py:170 | the service starts with no variables |
| Simulateur.Simulator.OnMessage | MQTT_Simulateur.py:208-252 | the registry after the callback and its publishes are those of `SimStep` on the registry before it |
| Simulateur.Simulator.Create | MQTT_Simulateur.py:211-225 | the create branch does what `SimStep` does for a create request |
| Simulateur.Simulator.Delete | MQTT_Simulateur.py:228-236 | the delete branch does what `SimStep` does for a delete request |
| Simulateur.Simulator.HandleParam | MQTT_Simulateur.py:239-249 | the parameter branch does what `SimStep` does for any other topic |

## Left out

- MQTT transport: connecting, subscribing, QoS, retain flags and the network loops are not modelled. A publish is an event in the returned sequence. Every message is treated as delivered, whatever the subscriptions in `on_connect` would let through.
- `on_connect` in both services is not modelled: the initial filter for `simulateur/A/value`, the initial variable `A`, and the README publish. These are requests sent over the broker, and the model covers the handling of such requests.
- Payload parsing (`float()`, `int()`, `json.loads`) is a parameter of the model (`Decoders`). UTF-8 decoding is not modelled: a message payload is already text. Nearly every decoding failure changes nothing, which a decoder returning `None` represents. `UnicodeDecodeError` is a `ValueError`, so it is caught at MQTT_Filtre.py:144, 156 and 167 and at MQTT_Simulateur.py:248. The outer `except` at MQTT_Simulateur.py:251 catches the rest. The one exception is a create request on `Filter/new` whose payload is not valid UTF-8. There, MQTT_Filtre.py:114 raises before `source_topic` is assigned. The handler's `if source_topic in filters` (MQTT_Filtre.py:132) then raises `UnboundLocalError`, and that exception leaves `on_message`. No filter is created in that case.
- Number formatting (`str(x)`, `f"{x:.6f}"`) is not modelled. A numeric payload is `Number(x)`.
- Floating point is replaced by exact reals, so the mean and median have no rounding. In mode 1, `Stats.MeanWithin`, `Stats.MeanBounds` and `Filtre.AggregateBounds` describe the exact-real model only, even for finite samples. Rounding alone can put the published mean outside the samples' range. For example, with doubles `sum([0.1, 0.1, 0.1]) / 3` is `0.10000000000000002`, above the largest sample, while the model gives exactly `0.1`. Python's `float()` also accepts `"nan"`, `"inf"` and `"-inf"`, and a float sum can overflow to infinity. For windows holding such values, `Stats.MeanBounds`, `Stats.MedianBounds` and `Filtre.AggregateBounds` say nothing about the program. Such a window can also sort differently, because NaN does not compare.
- Filtre.Filter.UpdateWindowSize, Filtre.Resize, Filtre.FilterStepEffects: any parsed integer above 0 is accepted as a window size. CPython's `deque(maxlen=...)` needs a value that fits `Py_ssize_t`, at most `sys.maxsize` (2^63 - 1 on 64-bit builds).
  - For a larger size, such as a payload `9223372036854775808` on `<source>_filtered/parameters/window`, MQTT_Filtre.py:52 has already set `window_size` when line 53 raises `OverflowError`. The old deque keeps its old `maxlen`.
  - `OverflowError` is not a `ValueError`, so the `except` at line 167 does not catch it. It leaves `on_message`, and the remaining filters of the loop are not visited.
  - The model instead sets the capacity to that size and keeps the whole window. From then on, its window and mean differ from the program's once the old capacity is exceeded.
  - The integer width is left out because unbounded `int`s are used throughout. The program's outcome, an exception that aborts the dispatch loop halfway, has no counterpart in the all-filters `Step`.
- Filtre.Filter.ProcessValue: requires a capacity of at least 1. With capacity 0, the Python raises on the empty window. No registered filter reaches that state (`Filtre.RunKeepsParametersValid`).
- The exception path of the filter create branch (MQTT_Filtre.py:130-134) is not modelled. It runs whenever decoding the payload (MQTT_Filtre.py:114) or one of the two announcing publishes raises. The paho client library, whose code is not part of this model, raises `ValueError` when it publishes on a topic containing `+` or `#`. So a create request whose source contains a wildcard, such as `simulateur/+/value`, takes this path in the program: the filter is removed again and nothing is published. The model registers that filter and announces it.
- `SimVar.step`, `_sinusoid_value` and `_apply_noise` are not modelled, because they need the clock, random noise, trigonometry and float phase wrapping. This includes the `queue.append` inside `step`. `PublishPending` is proved for any queue contents.
- The outer `try` of the simulator's `on_message` is modelled only for decoding failures, which change nothing. Exceptions raised by publishing are not modelled. The client library raises `ValueError` on a topic with `+` or `#`, so a variable whose name contains a wildcard behaves differently in the program:
  - On create, `simvars[name] = sv` (MQTT_Simulateur.py:222) runs before `publish_params` raises. The variable stays registered and nothing is announced, while the model announces all five parameters.
  - On delete, `delete_params` raises (MQTT_Simulateur.py:231) before the `del` on line 232. The variable is never removed, while the model removes it and publishes the tombstones.
- A JSON `name` that is not a string is not modelled. The decoded request carries a string name.
- Console output, the SIGINT handler and the main loops (`main_loop`, `while True`) are not modelled.
- `MQTT_SpeedConveyorFromImages.py` is not part of this model. It is image decoding and calls into a foreign library.
