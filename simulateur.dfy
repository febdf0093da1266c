/**
 * The simulator service: a registry of simulated variables, each with five
 * numeric parameters and a queue of formatted values waiting to be published,
 * driven by create, delete and parameter messages.
 */
module Simulateur {

  import opened Wrappers
  import opened Bus
  import opened Strings

  const TopicNew: string := "simulateur/new"
  const TopicDelete: string := "simulateur/delete"

  /** The parameter names, in the order the parameter topics are listed. */
  const ParamNames: seq<string> := ["period", "min", "max", "noise", "period_publish"]

  /** `"simulateur/{}/parameters/<param>".format(name)`. */
  function ParamTopic(name: string, param: string): string
  {
    "simulateur/" + name + "/parameters/" + param
  }

  /** `f"simulateur/{name}/value"`. */
  function ValueTopic(name: string): string
  {
    "simulateur/" + name + "/value"
  }

  /**
   * The parameter-message test of `on_message`: split on `/`, exactly four
   * parts, `simulateur` first and `parameters` third; the result is the
   * variable name and the parameter name.
   */
  function ParseParamTopic(topic: string): Option<(string, string)>
  {
    var parts := Split(topic, '/');
    if |parts| == 4 && parts[0] == "simulateur" && parts[2] == "parameters" then Some((parts[1], parts[3]))
    else None
  }

  /** A parameter topic is the four parts joined with `/`. */
  lemma ParamTopicAsJoin(name: string, param: string)
    ensures ParamTopic(name, param) == Join(["simulateur", name, "parameters", param], '/')
  {
    var parts := ["simulateur", name, "parameters", param];
    assert parts[1..] == [name, "parameters", param];
    assert parts[1..][1..] == ["parameters", param];
    assert parts[1..][1..][1..] == [param];
    calc {
      Join(parts, '/');
      "simulateur" + "/" + Join([name, "parameters", param], '/');
      "simulateur" + "/" + (name + "/" + Join(["parameters", param], '/'));
      "simulateur" + "/" + (name + "/" + ("parameters" + "/" + Join([param], '/')));
      "simulateur" + "/" + (name + "/" + ("parameters" + "/" + param));
      ParamTopic(name, param);
    }
  }

  /** Every topic built from a parameter template is recognised as that variable's parameter message. */
  lemma ParamTopicRoundTrip(name: string, param: string)
    requires '/' !in name && '/' !in param
    ensures ParseParamTopic(ParamTopic(name, param)) == Some((name, param))
  {
    var parts := ["simulateur", name, "parameters", param];
    ParamTopicAsJoin(name, param);
    assert forall i :: 0 <= i < |parts| ==> '/' !in parts[i];
    SplitJoin(parts, '/');
  }

  /** Conversely, a topic recognised as a parameter message is exactly the template for its two parts. */
  lemma ParseParamTopicSound(topic: string)
    requires ParseParamTopic(topic).Some?
    ensures var (name, param) := ParseParamTopic(topic).value;
      topic == ParamTopic(name, param) && '/' !in name && '/' !in param
  {
    var parts := Split(topic, '/');
    assert parts == ["simulateur", parts[1], "parameters", parts[3]];
    ParamTopicAsJoin(parts[1], parts[3]);
  }

  /** The five parameters of a simulated variable. */
  datatype Params = Params(period: real, min: real, max: real, noise: real, periodPublish: real)

  /** The parameter defaults of `SimVar.__init__`, also those of a create request that omits a field. */
  const DefaultParams: Params := Params(60.0, 15.0, 61.0, 5.0, 0.5)

  /** Reads the parameter called `param`, if there is one by that name. */
  function ParamOf(p: Params, param: string): (r: Option<real>)
    ensures r.Some? <==> param in ParamNames
  {
    if param == "period" then Some(p.period)
    else if param == "min" then Some(p.min)
    else if param == "max" then Some(p.max)
    else if param == "noise" then Some(p.noise)
    else if param == "period_publish" then Some(p.periodPublish)
    else None
  }

  /** `update_param` on the record: sets the field named `param`; an unknown name changes nothing. */
  function WithParam(p: Params, param: string, value: real): Params
  {
    if param == "period" then p.(period := value)
    else if param == "min" then p.(min := value)
    else if param == "max" then p.(max := value)
    else if param == "noise" then p.(noise := value)
    else if param == "period_publish" then p.(periodPublish := value)
    else p
  }

  /** Setting a parameter changes exactly that parameter and no other. */
  lemma WithParamGetSet(p: Params, param: string, value: real, other: string)
    ensures ParamOf(WithParam(p, param, value), other) ==
      if other == param && param in ParamNames then Some(value) else ParamOf(p, other)
  {
  }

  /** An unknown parameter name leaves the record as it was. */
  lemma WithParamUnknown(p: Params, param: string, value: real)
    requires param !in ParamNames
    ensures WithParam(p, param, value) == p
  {
  }

  /** The parameters `publish_params` announces, as (name, value) pairs, in order. */
  function ParamUpdates(p: Params): (r: seq<(string, real)>)
    ensures |r| == |ParamNames|
    ensures forall i :: 0 <= i < |r| ==> r[i].0 == ParamNames[i] && ParamOf(p, r[i].0) == Some(r[i].1)
  {
    [("period", p.period), ("min", p.min), ("max", p.max), ("noise", p.noise), ("period_publish", p.periodPublish)]
  }

  /** The parameters after the updates `us` are applied, first to last, as `update_param` calls. */
  function Replay(p: Params, us: seq<(string, real)>): Params
    decreases |us|
  {
    if us == [] then p else Replay(WithParam(p, us[0].0, us[0].1), us[1..])
  }

  /**
   * The five values a variable announces, fed back to it through its
   * parameter topics, reproduce its parameters whatever they were before.
   */
  lemma ReplayParamUpdates(p: Params, q: Params)
    ensures Replay(q, ParamUpdates(p)) == p
  {
    var us := ParamUpdates(p);
    var q1 := q.(period := p.period);
    var q2 := q1.(min := p.min);
    var q3 := q2.(max := p.max);
    var q4 := q3.(noise := p.noise);
    calc {
      Replay(q, us);
      Replay(q1, us[1..]);
      Replay(q2, us[2..]);
      { assert us[2..][1..] == us[3..]; }
      Replay(q3, us[3..]);
      { assert us[3..][1..] == us[4..]; }
      Replay(q4, us[4..]);
      { assert us[4..][1..] == []; }
      Replay(q4.(periodPublish := p.periodPublish), []);
      p;
    }
  }

  /** What `publish_params` publishes: each parameter on its own topic, in the order of `ParamNames`. */
  function ParamPublishes(name: string, p: Params): (r: seq<Publish>)
    ensures |r| == |ParamNames|
  {
    var us := ParamUpdates(p);
    seq(|us|, i requires 0 <= i < |us| => Publish(ParamTopic(name, us[i].0), Number(us[i].1)))
  }

  /**
   * Every announcement is recognised by `on_message` as a parameter message
   * for this variable and carries the current value of the parameter it names.
   */
  lemma ParamPublishesParse(name: string, p: Params, i: nat)
    requires '/' !in name && i < |ParamNames|
    ensures var pub := ParamPublishes(name, p)[i];
      && ParseParamTopic(pub.topic) == Some((name, ParamNames[i]))
      && pub.payload.Number? && ParamOf(p, ParamNames[i]) == Some(pub.payload.value)
  {
    assert '/' !in ParamNames[i];
    ParamTopicRoundTrip(name, ParamNames[i]);
  }

  /** The six topics `delete_params` clears: the five parameter topics and the value topic. */
  function DeleteTopics(name: string): (r: seq<string>)
    ensures |r| == |ParamNames| + 1
  {
    seq(|ParamNames|, i requires 0 <= i < |ParamNames| => ParamTopic(name, ParamNames[i])) + [ValueTopic(name)]
  }

  /** What `delete_params` publishes: an empty payload on each of the six topics. */
  function Tombstones(name: string): (r: seq<Publish>)
    ensures |r| == |DeleteTopics(name)|
  {
    var ts := DeleteTopics(name);
    seq(|ts|, i requires 0 <= i < |ts| => Publish(ts[i], Text("")))
  }

  lemma ConcatCancel(a: string, x: string, y: string)
    requires a + x == a + y
    ensures x == y
  {
    assert x == (a + x)[|a|..];
    assert y == (a + y)[|a|..];
  }

  /** The topic of a parameter, or of the values, is `"simulateur/" + name + suffix`. */
  lemma TopicSuffix(name: string, param: string)
    ensures ParamTopic(name, param) == "simulateur/" + name + ("/parameters/" + param)
    ensures ValueTopic(name) == "simulateur/" + name + "/value"
  {
  }

  /**
   * The six tombstone topics are pairwise different, and they cover every
   * topic on which the variable publishes: its parameter announcements and
   * its values.
   */
  lemma DeleteTopicsCover(name: string, p: Params)
    ensures forall i, j :: 0 <= i < j < |DeleteTopics(name)| ==> DeleteTopics(name)[i] != DeleteTopics(name)[j]
    ensures forall pub :: pub in ParamPublishes(name, p) ==> pub.topic in DeleteTopics(name)
    ensures ValueTopic(name) in DeleteTopics(name)
  {
    var ts := DeleteTopics(name);
    var prefix := "simulateur/" + name;
    var suffixes := ["/parameters/period", "/parameters/min", "/parameters/max", "/parameters/noise",
                     "/parameters/period_publish", "/value"];
    forall i | 0 <= i < |ts|
      ensures ts[i] == prefix + suffixes[i]
    {
      if i < |ParamNames| {
        TopicSuffix(name, ParamNames[i]);
      }
    }
    forall i, j | 0 <= i < j < |ts|
      ensures ts[i] != ts[j]
    {
      if ts[i] == ts[j] {
        ConcatCancel(prefix, suffixes[i], suffixes[j]);
        assert false;
      }
    }
    var pubs := ParamPublishes(name, p);
    forall pub | pub in pubs
      ensures pub.topic in ts
    {
      var i :| 0 <= i < |pubs| && pubs[i] == pub;
      assert pub.topic == ts[i];
    }
    assert ts[|ts| - 1] == ValueTopic(name);
  }

  /** What `publish_pending` publishes for a queue: each payload on the value topic, oldest first. */
  function ValuePublishes(name: string, queue: seq<string>): seq<Publish>
  {
    if queue == [] then [] else [Publish(ValueTopic(name), Text(queue[0]))] + ValuePublishes(name, queue[1..])
  }

  /** Publication follows the order of the queue, one publish per queued payload. */
  lemma {:induction false} ValuePublishesInOrder(name: string, queue: seq<string>)
    ensures |ValuePublishes(name, queue)| == |queue|
    ensures forall i :: 0 <= i < |queue| ==> ValuePublishes(name, queue)[i] == Publish(ValueTopic(name), Text(queue[i]))
  {
    if queue != [] {
      ValuePublishesInOrder(name, queue[1..]);
    }
  }

  /** Draining a queue in two rounds publishes what draining it once would. */
  lemma {:induction false} ValuePublishesConcat(name: string, a: seq<string>, b: seq<string>)
    ensures ValuePublishes(name, a + b) == ValuePublishes(name, a) + ValuePublishes(name, b)
  {
    if a != [] {
      assert (a + b)[1..] == a[1..] + b;
      ValuePublishesConcat(name, a[1..], b);
    } else {
      assert a + b == b;
    }
  }

  /** The mutable part of a simulated variable: its parameters and its queue of pending values. */
  datatype VarState = VarState(params: Params, queue: seq<string>)

  /**
   * A create request as `json.loads` and `float()` leave it: the name and
   * each numeric field, absent fields as `None`. A payload that is not JSON,
   * lacks `name`, or holds a field `float()` refuses decodes to no request.
   */
  datatype NewRequest = NewRequest(
    name: string, period: Option<real>, min: Option<real>, max: Option<real>,
    noise: Option<real>, periodPublish: Option<real>)

  /** The library parsers the service applies to payloads. */
  datatype Decoders = Decoders(toRequest: string -> Option<NewRequest>, toFloat: string -> Option<real>)

  function OrDefault(o: Option<real>, d: real): real
  {
    if o.Some? then o.value else d
  }

  /** The parameters of a created variable: `payload.get(field, default)` for each field. */
  function RequestParams(req: NewRequest): (r: Params)
    ensures forall i :: 0 <= i < |ParamNames| ==>
      ParamOf(r, ParamNames[i]) == Some(OrDefault(RequestField(req, ParamNames[i]), ParamOf(DefaultParams, ParamNames[i]).value))
  {
    Params(
      OrDefault(req.period, DefaultParams.period), OrDefault(req.min, DefaultParams.min),
      OrDefault(req.max, DefaultParams.max), OrDefault(req.noise, DefaultParams.noise),
      OrDefault(req.periodPublish, DefaultParams.periodPublish))
  }

  /** The field of a create request that sets parameter `param` (its JSON key is the parameter name). */
  function RequestField(req: NewRequest, param: string): Option<real>
  {
    if param == "period" then req.period
    else if param == "min" then req.min
    else if param == "max" then req.max
    else if param == "noise" then req.noise
    else if param == "period_publish" then req.periodPublish
    else None
  }

  /** A create request that names only the variable gets the default parameters. */
  lemma RequestDefaults(name: string)
    ensures RequestParams(NewRequest(name, None, None, None, None, None)) == DefaultParams
  {
  }

  datatype SimResult = SimResult(vars: map<string, VarState>, published: seq<Publish>)

  /**
   * `on_message` on the registry: a create request (insert or overwrite), a
   * delete request (remove if present), or a parameter message for a
   * registered variable with a numeric payload; anything else changes nothing.
   */
  function SimStep(vars: map<string, VarState>, m: Message, dec: Decoders): (r: SimResult)
    ensures m.topic == TopicNew && dec.toRequest(m.payload).Some? ==>
      var req := dec.toRequest(m.payload).value;
      && r.vars.Keys == vars.Keys + {req.name}
      && r.vars[req.name] == VarState(RequestParams(req), [])
      && (forall k :: k in vars && k != req.name ==> r.vars[k] == vars[k])
      && r.published == ParamPublishes(req.name, RequestParams(req))
    ensures m.topic == TopicDelete ==>
      && r.vars == vars - {Strip(m.payload)}
      && r.published == (if Strip(m.payload) in vars then Tombstones(Strip(m.payload)) else [])
    ensures m.topic != TopicNew && m.topic != TopicDelete ==>
      && r.vars.Keys == vars.Keys
      && r.published == []
      && (forall k :: k in vars && r.vars[k] != vars[k] ==>
            && ParseParamTopic(m.topic).Some? && ParseParamTopic(m.topic).value.0 == k
            && dec.toFloat(m.payload).Some?
            && r.vars[k].queue == vars[k].queue)
    ensures m.topic == TopicNew && dec.toRequest(m.payload).None? ==> r == SimResult(vars, [])
  {
    if m.topic == TopicNew then
      match dec.toRequest(m.payload)
      case None => SimResult(vars, [])
      case Some(req) =>
        var p := RequestParams(req);
        SimResult(vars[req.name := VarState(p, [])], ParamPublishes(req.name, p))
    else if m.topic == TopicDelete then
      var name := Strip(m.payload);
      if name in vars then SimResult(vars - {name}, Tombstones(name)) else SimResult(vars, [])
    else
      match ParseParamTopic(m.topic)
      case None => SimResult(vars, [])
      case Some((name, param)) =>
        if name in vars && dec.toFloat(m.payload).Some? then
          var v := vars[name];
          SimResult(vars[name := v.(params := WithParam(v.params, param, dec.toFloat(m.payload).value))], [])
        else SimResult(vars, [])
  }

  /**
   * A numeric payload on the parameter topic of a registered variable (whose
   * name has no `/`) sets exactly that parameter of exactly that variable.
   */
  lemma ParamMessageUpdates(vars: map<string, VarState>, name: string, param: string, payload: string, dec: Decoders)
    requires name in vars && '/' !in name && '/' !in param
    requires dec.toFloat(payload).Some?
    ensures var r := SimStep(vars, Message(ParamTopic(name, param), payload), dec);
      && r.vars == vars[name := vars[name].(params := WithParam(vars[name].params, param, dec.toFloat(payload).value))]
      && r.published == []
  {
    ParamTopicRoundTrip(name, param);
  }

  /** Deleting a variable that was just created by name restores the registry without that name. */
  lemma CreateThenDelete(vars: map<string, VarState>, create: Message, delete: Message, dec: Decoders)
    requires create.topic == TopicNew && dec.toRequest(create.payload).Some?
    requires delete.topic == TopicDelete && Strip(delete.payload) == dec.toRequest(create.payload).value.name
    ensures var r1 := SimStep(vars, create, dec);
      var r2 := SimStep(r1.vars, delete, dec);
      && r2.vars == vars - {Strip(delete.payload)}
      && r2.published == Tombstones(Strip(delete.payload))
  {
  }

  /** A simulated variable: five parameters and a queue of values waiting to be published. */
  class SimVar {
    const name: string
    var period: real
    var min: real
    var max: real
    var noiseStddev: real
    var periodPublish: real
    var queue: seq<string>

    function Parameters(): Params
      reads this
    {
      Params(period, min, max, noiseStddev, periodPublish)
    }

    function State(): VarState
      reads this
    {
      VarState(Parameters(), queue)
    }

    constructor (name: string, period: real := 60.0, minVal: real := 15.0, maxVal: real := 61.0,
                 noiseStddev: real := 5.0, periodPublish: real := 0.5)
      ensures this.name == name
      ensures State() == VarState(Params(period, minVal, maxVal, noiseStddev, periodPublish), [])
    {
      this.name := name;
      this.period := period;
      min := minVal;
      max := maxVal;
      this.noiseStddev := noiseStddev;
      this.periodPublish := periodPublish;
      queue := [];
    }

    /** Sets the parameter named `param`; an unknown name changes nothing. */
    method UpdateParam(param: string, value: real)
      modifies this
      ensures State() == VarState(WithParam(old(Parameters()), param, value), old(queue))
    {
      if param == "period" {
        period := value;
      } else if param == "min" {
        min := value;
      } else if param == "max" {
        max := value;
      } else if param == "noise" {
        noiseStddev := value;
      } else if param == "period_publish" {
        periodPublish := value;
      }
    }

    /** Publishes each parameter on its own topic. */
    method PublishParams() returns (out: seq<Publish>)
      ensures out == ParamPublishes(name, Parameters())
    {
      var params := ParamUpdates(Parameters());
      out := [];
      for i := 0 to |params|
        invariant out == ParamPublishes(name, Parameters())[..i]
      {
        var (param, value) := params[i];
        out := out + [Publish(ParamTopic(name, param), Number(value))];
      }
    }

    /** Publishes an empty payload on each topic of the variable, to clear what the broker retains. */
    method DeleteParams() returns (out: seq<Publish>)
      ensures out == Tombstones(name)
    {
      var topics := DeleteTopics(name);
      out := [];
      for i := 0 to |topics|
        invariant out == Tombstones(name)[..i]
      {
        out := out + [Publish(topics[i], Text(""))];
      }
    }

    /** Drains the queue, oldest value first, publishing each value on the value topic. */
    method PublishPending() returns (out: seq<Publish>)
      modifies this`queue
      ensures queue == []
      ensures out == ValuePublishes(name, old(queue))
    {
      out := [];
      while queue != []
        invariant out + ValuePublishes(name, queue) == ValuePublishes(name, old(queue))
        decreases |queue|
      {
        var payload := queue[0];
        queue := queue[1..];
        out := out + [Publish(ValueTopic(name), Text(payload))];
      }
    }
  }

  /** The service: the `simvars` dictionary and the `on_message` callback. */
  class Simulator {
    var simvars: map<string, SimVar>
    /** The state of each registered variable. */
    ghost var model: map<string, VarState>

    ghost predicate Valid()
      reads this, simvars.Values
    {
      && simvars.Keys == model.Keys
      && forall k :: k in simvars ==> simvars[k].name == k && simvars[k].State() == model[k]
    }

    constructor ()
      ensures Valid() && model == map[]
    {
      simvars := map[];
      model := map[];
    }

    /**
     * Handles one inbound message and returns what it publishes, in order;
     * the new registry and the publishes are those of `SimStep`.
     */
    method OnMessage(m: Message, dec: Decoders) returns (out: seq<Publish>)
      requires Valid()
      modifies this, simvars.Values
      ensures Valid()
      ensures SimResult(model, out) == SimStep(old(model), m, dec)
    {
      if m.topic == TopicNew {
        out := Create(m, dec);
      } else if m.topic == TopicDelete {
        out := Delete(m, dec);
      } else {
        out := HandleParam(m, dec);
      }
    }

    /** The create branch: a new variable under the requested name, replacing any previous one. */
    method Create(m: Message, dec: Decoders) returns (out: seq<Publish>)
      requires Valid() && m.topic == TopicNew
      modifies this
      ensures Valid()
      ensures SimResult(model, out) == SimStep(old(model), m, dec)
    {
      out := [];
      var req := dec.toRequest(m.payload);
      if req.Some? {
        var r := req.value;
        var p := RequestParams(r);
        var sv := new SimVar(r.name, p.period, p.min, p.max, p.noise, p.periodPublish);
        simvars := simvars[r.name := sv];
        model := model[r.name := sv.State()];
        out := sv.PublishParams();
      }
    }

    /** The delete branch: the stripped payload names the variable to remove, if registered. */
    method Delete(m: Message, dec: Decoders) returns (out: seq<Publish>)
      requires Valid() && m.topic == TopicDelete
      modifies this
      ensures Valid()
      ensures SimResult(model, out) == SimStep(old(model), m, dec)
    {
      out := [];
      var name := Strip(m.payload);
      if name in simvars {
        out := simvars[name].DeleteParams();
        simvars := simvars - {name};
        model := model - {name};
      }
    }

    /** The parameter branch: a numeric payload on a parameter topic of a registered variable. */
    method HandleParam(m: Message, dec: Decoders) returns (out: seq<Publish>)
      requires Valid() && m.topic != TopicNew && m.topic != TopicDelete
      modifies this`model, simvars.Values
      ensures Valid()
      ensures SimResult(model, out) == SimStep(old(model), m, dec)
    {
      out := [];
      var parsed := ParseParamTopic(m.topic);
      if parsed.Some? {
        var (name, param) := parsed.value;
        if name in simvars {
          var value := dec.toFloat(m.payload);
          if value.Some? {
            var sv := simvars[name];
            sv.UpdateParam(param, value.value);
            model := model[name := sv.State()];
          }
        }
      }
    }
  }
}
