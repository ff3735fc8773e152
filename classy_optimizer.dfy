/**
 * Model of ClassyOptimizer (classy_vision/optim/classy_optimizer.py): the parameter-group logic
 * of the optimizer wrapper. The wrapped torch optimizer is reduced to its `param_groups`, a list
 * of dictionaries; the learning-rate scheduler is an arbitrary function together with its
 * update interval.
 */
module Optim {
  import opened Wrappers

  /** A model parameter, with its `requires_grad` flag. */
  datatype Param = Param(id: nat, requiresGrad: bool)

  /** What `model.get_optimizer_params()` may return: a dict of parameter lists, or anything else. */
  datatype OptimizerParamsValue = Dict(entries: map<string, seq<Param>>) | NotADict

  /** The model as the optimizer sees it: `parameters()` and `get_optimizer_params()`. */
  datatype ModelView = ModelView(parameters: seq<Param>, optimizerParams: OptimizerParamsValue)

  const RegularizedKey := "regularized_params"
  const UnregularizedKey := "unregularized_params"

  /** The two partitions of the validated `optimizer_params` dict. */
  datatype OptimizerParams = OptimizerParams(regularized: seq<Param>, unregularized: seq<Param>)

  /** The exceptions the wrapper raises. */
  datatype OptimizerError =
    | WrongOptimizerParamsKeys      // AssertionError: not a dict with exactly the two keys
    | ParamsDoNotCoverTrainable     // AssertionError: partitions do not cover the trainable params
    | OptimizerNotSet               // NotImplementedError: `_optimizer` was never assigned
    | NotATorchOptimizer            // ValueError: `_optimizer` is not a torch Optimizer
    | UnknownUpdateInterval         // AssertionError: interval is neither EPOCH nor STEP
    | NoParamGroups                 // IndexError: `param_groups[0]` of an empty list

  /** The parameters of a model that require gradients, in order. */
  function Trainable(ps: seq<Param>): (r: seq<Param>)
    ensures |r| <= |ps|
    ensures forall p :: p in r <==> p in ps && p.requiresGrad
    ensures forall p :: multiset(r)[p] == if p.requiresGrad then multiset(ps)[p] else 0
  {
    if ps == [] then []
    else
      assert ps == [ps[0]] + ps[1..];
      if ps[0].requiresGrad then [ps[0]] + Trainable(ps[1..])
      else
        assert forall p :: p in ps <==> p == ps[0] || p in ps[1..];
        Trainable(ps[1..])
  }

  /** `_validate_and_get_optimizer_params` for a model that is not wrapped in DistributedDataParallel. */
  function ValidateOptimizerParams(model: ModelView): (r: Result<OptimizerParams, OptimizerError>)
    ensures r == Failure(WrongOptimizerParamsKeys) <==>
              !(model.optimizerParams.Dict? && model.optimizerParams.entries.Keys == {RegularizedKey, UnregularizedKey})
    ensures r.Success? <==>
              && model.optimizerParams.Dict?
              && model.optimizerParams.entries.Keys == {RegularizedKey, UnregularizedKey}
              && |Trainable(model.parameters)|
                 == |model.optimizerParams.entries[RegularizedKey]| + |model.optimizerParams.entries[UnregularizedKey]|
    ensures r.Success? ==>
              && model.optimizerParams.Dict?
              && r.value.regularized == model.optimizerParams.entries[RegularizedKey]
              && r.value.unregularized == model.optimizerParams.entries[UnregularizedKey]
              && |Trainable(model.parameters)| == |r.value.regularized| + |r.value.unregularized|
    ensures r.Failure? ==> r.error == WrongOptimizerParamsKeys || r.error == ParamsDoNotCoverTrainable
  {
    match model.optimizerParams
    case NotADict => Failure(WrongOptimizerParamsKeys)
    case Dict(entries) =>
      if entries.Keys != {RegularizedKey, UnregularizedKey} then Failure(WrongOptimizerParamsKeys)
      else
        var params := OptimizerParams(entries[RegularizedKey], entries[UnregularizedKey]);
        if |Trainable(model.parameters)| != |params.regularized| + |params.unregularized| then
          Failure(ParamsDoNotCoverTrainable)
        else Success(params)
  }

  /** A value stored in a param group: a parameter list or a number. */
  datatype GroupValue = ParamList(params: seq<Param>) | Number(x: real)

  type ParamGroup = map<string, GroupValue>

  /** The unregularized partition's group: no weight decay. */
  function UnregularizedGroup(ps: seq<Param>): ParamGroup
  {
    map["params" := ParamList(ps), "weight_decay" := Number(0.0)]
  }

  /** The regularized partition's group: no override. */
  function RegularizedGroup(ps: seq<Param>): ParamGroup
  {
    map["params" := ParamList(ps)]
  }

  /** The parameters listed by a sequence of param groups, group by group. */
  function GroupedParams(groups: seq<ParamGroup>): seq<Param>
  {
    if groups == [] then []
    else
      (if "params" in groups[0] && groups[0]["params"].ParamList? then groups[0]["params"].params else [])
      + GroupedParams(groups[1..])
  }

  /** `param_groups_override`: one group per non-empty partition, the unregularized one first. */
  function OverrideGroups(p: OptimizerParams): (groups: seq<ParamGroup>)
  {
    (if |p.unregularized| != 0 then [UnregularizedGroup(p.unregularized)] else [])
    + (if |p.regularized| != 0 then [RegularizedGroup(p.regularized)] else [])
  }

  /**
   * The override groups list every parameter of both partitions exactly once, unregularized
   * first, and only the unregularized group overrides the weight decay, with 0.0.
   */
  lemma OverrideGroupsPartition(p: OptimizerParams)
    ensures GroupedParams(OverrideGroups(p)) == p.unregularized + p.regularized
    ensures |OverrideGroups(p)| == (if |p.unregularized| != 0 then 1 else 0) + (if |p.regularized| != 0 then 1 else 0)
    ensures forall i :: 0 <= i < |OverrideGroups(p)| && "weight_decay" in OverrideGroups(p)[i] ==>
              i == 0 && OverrideGroups(p)[i]["weight_decay"] == Number(0.0) && |p.unregularized| != 0
  {
    var u := if |p.unregularized| != 0 then [UnregularizedGroup(p.unregularized)] else [];
    var r := if |p.regularized| != 0 then [RegularizedGroup(p.regularized)] else [];
    GroupedParamsAppend(u, r);
    assert GroupedParams(u) == p.unregularized by {
      if u != [] { assert u[1..] == []; }
    }
    assert GroupedParams(r) == p.regularized by {
      if r != [] { assert r[1..] == []; }
    }
  }

  lemma {:induction false} GroupedParamsAppend(xs: seq<ParamGroup>, ys: seq<ParamGroup>)
    ensures GroupedParams(xs + ys) == GroupedParams(xs) + GroupedParams(ys)
    decreases |xs|
  {
    if xs == [] {
      assert xs + ys == ys;
    } else {
      assert (xs + ys)[0] == xs[0];
      assert (xs + ys)[1..] == xs[1..] + ys;
      GroupedParamsAppend(xs[1..], ys);
    }
  }

  /** For a model that passes validation, the override groups hold as many parameters as it trains. */
  lemma OverrideGroupsCoverTrainable(model: ModelView)
    requires ValidateOptimizerParams(model).Success?
    ensures |GroupedParams(OverrideGroups(ValidateOptimizerParams(model).value))| == |Trainable(model.parameters)|
  {
    OverrideGroupsPartition(ValidateOptimizerParams(model).value);
  }

  /** `UpdateInterval` of the scheduler; any other value is possible in Python and fails the assertion. */
  datatype UpdateInterval = Epoch | Step | OtherInterval

  /** A parameter scheduler: a function of the training progress `where`, and its update interval. */
  datatype Scheduler = Scheduler(schedule: real -> real, updateInterval: UpdateInterval)

  /** Which of `update_schedule_on_epoch` and `update_schedule_on_step` is called. */
  datatype Trigger = OnEpoch | OnStep

  /** Whether the schedule is updated on a trigger: the interval assertion, then the interval test. */
  function ScheduleGate(interval: UpdateInterval, trigger: Trigger): Result<bool, OptimizerError>
  {
    if interval == OtherInterval then Failure(UnknownUpdateInterval)
    else if trigger == OnEpoch then Success(interval == Epoch)
    else Success(interval == Step)
  }

  /** For a valid interval exactly one of the two triggers updates the schedule; otherwise both raise. */
  lemma ExactlyOneTriggerActs(interval: UpdateInterval)
    ensures interval != OtherInterval ==>
              && ScheduleGate(interval, OnEpoch).Success?
              && ScheduleGate(interval, OnStep).Success?
              && ScheduleGate(interval, OnEpoch).value != ScheduleGate(interval, OnStep).value
    ensures interval == OtherInterval ==>
              ScheduleGate(interval, OnEpoch) == ScheduleGate(interval, OnStep) == Failure(UnknownUpdateInterval)
    ensures ScheduleGate(interval, OnEpoch) == Success(true) <==> interval == Epoch
    ensures ScheduleGate(interval, OnStep) == Success(true) <==> interval == Step
  {
  }

  /** `group.update(config)`: the config's entries overwrite or extend the group. */
  function UpdateGroup(group: ParamGroup, config: map<string, real>): ParamGroup
  {
    group + map k | k in config :: Number(config[k])
  }

  /**
   * The param groups after `_update_schedule` sets the learning rate to `lr`: every group gets
   * `lr`, group 0 gets weight decay 0.0 when the unregularized group is present, and a missing
   * group 0 then raises IndexError.
   */
  function ScheduledGroups(groups: seq<ParamGroup>, lr: real, containsUnregularized: bool): (r: Result<seq<ParamGroup>, OptimizerError>)
    ensures r.Failure? <==> containsUnregularized && groups == []
    ensures r.Failure? ==> r.error == NoParamGroups
    ensures r.Success? ==>
              && |r.value| == |groups|
              && (forall i :: 0 <= i < |groups| ==> r.value[i].Keys == groups[i].Keys + {"lr"} + (if i == 0 && containsUnregularized then {"weight_decay"} else {}))
              && (forall i :: 0 <= i < |groups| ==> r.value[i]["lr"] == Number(lr))
              && (containsUnregularized ==> r.value[0]["weight_decay"] == Number(0.0))
              && (forall i, k ::
                    (0 <= i < |groups| && k in groups[i] && k != "lr" && !(i == 0 && containsUnregularized && k == "weight_decay"))
                    ==> r.value[i][k] == groups[i][k])
  {
    var updated := seq(|groups|, i requires 0 <= i < |groups| => UpdateGroup(groups[i], map["lr" := lr]));
    if !containsUnregularized then Success(updated)
    else if |updated| == 0 then Failure(NoParamGroups)
    else Success(updated[0 := updated[0]["weight_decay" := Number(0.0)]])
  }

  /** A torch optimizer, reduced to its list of param groups. */
  class TorchOptimizer {
    var paramGroups: seq<ParamGroup>

    constructor (groups: seq<ParamGroup>)
      ensures paramGroups == groups
    {
      paramGroups := groups;
    }
  }

  /** What the `_optimizer` attribute holds: nothing yet, something else, or a torch optimizer. */
  datatype OptimizerSlot = Unset | NotAnOptimizer | Torch(inner: TorchOptimizer)

  /** The attributes that `set_classy_state` can assign: `lr`, and any other name it is given. */
  datatype Attributes = Attributes(lr: real, others: map<string, real>)

  /** `optimizer_config` of an optimizer whose learning rate is `lr`. */
  function ConfigOf(lr: real): map<string, real>
  {
    map["lr" := lr]
  }

  /** The attributes after `setattr(self, name, value)` for each entry of a config. */
  function AssignAttributes(a: Attributes, config: map<string, real>): Attributes
  {
    Attributes(if "lr" in config then config["lr"] else a.lr,
               a.others + map k | k in config && k != "lr" :: config[k])
  }

  /** The attributes after `setattr(self, name, value)`. */
  function SetAttr(a: Attributes, name: string, value: real): Attributes
  {
    if name == "lr" then a.(lr := value) else a.(others := a.others[name := value])
  }

  /** The attributes after the entries of `config` named in `done` were assigned, in any order. */
  function AttributesAssigned(a: Attributes, config: map<string, real>, done: set<string>): Attributes
  {
    Attributes(if "lr" in config && "lr" in done then config["lr"] else a.lr,
               a.others + map k | k in config && k in done && k != "lr" :: config[k])
  }

  lemma AttributesAssignedStep(a: Attributes, config: map<string, real>, done: set<string>, name: string)
    requires name in config
    ensures AttributesAssigned(a, config, done + {name})
            == SetAttr(AttributesAssigned(a, config, done), name, config[name])
  {
    if name == "lr" {
      assert (map k | k in config && k in done + {"lr"} && k != "lr" :: config[k])
          == (map k | k in config && k in done && k != "lr" :: config[k]);
    }
  }

  lemma AttributesAssignedAll(a: Attributes, config: map<string, real>)
    ensures AttributesAssigned(a, config, config.Keys) == AssignAttributes(a, config)
  {
    assert (map k | k in config && k in config.Keys && k != "lr" :: config[k])
        == (map k | k in config && k != "lr" :: config[k]);
  }

  /**
   * Restoring a saved `optimizer_config` leaves the attributes as they were: the saved state
   * round-trips through `set_classy_state`.
   */
  lemma ConfigRoundTrip(a: Attributes)
    ensures AssignAttributes(a, ConfigOf(a.lr)) == a
  {
  }

  /** A config that names `lr` overrides the learning rate and keeps every other attribute. */
  lemma ConfigOverridesLr(a: Attributes, lr: real)
    ensures AssignAttributes(a, ConfigOf(lr)) == a.(lr := lr)
  {
  }

  /** The saved state of the wrapper; the torch `state_dict` part is not modelled. */
  datatype ClassyState = ClassyState(optimizerConfig: map<string, real>)

  class ClassyOptimizer {
    var optimizerParams: OptimizerParams
    var paramGroupsOverride: seq<ParamGroup>
    var containsUnregularizedParams: bool
    var lrScheduler: Scheduler
    var lr: real
    /** `_optimizer`, assigned by subclasses. */
    var optimizerSlot: OptimizerSlot
    /** Attributes other than `lr` that `set_classy_state` assigned. */
    var otherAttributes: map<string, real>

    ghost predicate Valid()
      reads this
    {
      && containsUnregularizedParams == (|optimizerParams.unregularized| != 0)
      && paramGroupsOverride == OverrideGroups(optimizerParams)
    }

    /** The wrapped torch optimizer, if `_optimizer` holds one. */
    function Inner(): set<object>
      reads this
    {
      if optimizerSlot.Torch? then {optimizerSlot.inner} else {}
    }

    /** `__init__`, given the already validated `optimizer_params`. */
    constructor (params: OptimizerParams, scheduler: Scheduler)
      ensures Valid()
      ensures optimizerParams == params
      ensures containsUnregularizedParams <==> |params.unregularized| != 0
      ensures |params.unregularized| != 0 ==> paramGroupsOverride[0] == UnregularizedGroup(params.unregularized)
      ensures |params.regularized| != 0 ==>
                paramGroupsOverride[|paramGroupsOverride| - 1] == RegularizedGroup(params.regularized)
      ensures lrScheduler == scheduler && lr == scheduler.schedule(0.0)
      ensures optimizerSlot == Unset && otherAttributes == map[]
    {
      optimizerParams := params;
      var groups: seq<ParamGroup> := [];
      containsUnregularizedParams := false;
      if |params.unregularized| != 0 {
        groups := groups + [UnregularizedGroup(params.unregularized)];
        containsUnregularizedParams := true;
      }
      if |params.regularized| != 0 {
        groups := groups + [RegularizedGroup(params.regularized)];
      }
      paramGroupsOverride := groups;
      lrScheduler := scheduler;
      lr := scheduler.schedule(0.0);
      optimizerSlot := Unset;
      otherAttributes := map[];
    }

    /** The `optimizer` property. */
    function Optimizer(): (r: Result<TorchOptimizer, OptimizerError>)
      reads this
      ensures r.Success? <==> optimizerSlot.Torch?
      ensures r.Success? ==> r.value == optimizerSlot.inner
      ensures optimizerSlot == Unset ==> r == Failure(OptimizerNotSet)
      ensures optimizerSlot == NotAnOptimizer ==> r == Failure(NotATorchOptimizer)
    {
      match optimizerSlot
      case Unset => Failure(OptimizerNotSet)
      case NotAnOptimizer => Failure(NotATorchOptimizer)
      case Torch(o) => Success(o)
    }

    /** The `optimizer_config` property. */
    function OptimizerConfig(): (config: map<string, real>)
      reads this
      ensures config.Keys == {"lr"} && config["lr"] == lr
    {
      ConfigOf(lr)
    }

    function Attrs(): Attributes
      reads this
    {
      Attributes(lr, otherAttributes)
    }

    /** `get_classy_state`: fails exactly when the `optimizer` property does. */
    function GetClassyState(): (r: Result<ClassyState, OptimizerError>)
      reads this
      ensures r.Success? <==> Optimizer().Success?
      ensures r.Failure? ==> r.error == Optimizer().error
      ensures r.Success? ==> r.value.optimizerConfig == map["lr" := lr]
    {
      match Optimizer()
      case Failure(e) => Failure(e)
      case Success(_) => Success(ClassyState(OptimizerConfig()))
    }

    /** `set_classy_state`: after the `optimizer` property is read, each config entry becomes an attribute. */
    method SetClassyState(state: ClassyState) returns (raised: Option<OptimizerError>)
      requires Valid()
      modifies this
      ensures Valid()
      ensures old(Optimizer()).Failure? ==> raised == Some(old(Optimizer()).error) && Attrs() == old(Attrs())
      ensures old(Optimizer()).Success? ==> raised == None && Attrs() == AssignAttributes(old(Attrs()), state.optimizerConfig)
      ensures StructureUnchanged()
    {
      if Optimizer().Failure? {
        return Some(Optimizer().error);
      }
      var config := state.optimizerConfig;
      var pending := config.Keys;
      ghost var done: set<string> := {};
      assert AttributesAssigned(Attrs(), config, done) == Attrs();
      while pending != {}
        invariant pending <= config.Keys && done == config.Keys - pending
        invariant Attrs() == AttributesAssigned(old(Attrs()), config, done)
        invariant StructureUnchanged()
        decreases pending
      {
        var name :| name in pending;
        AttributesAssignedStep(old(Attrs()), config, done, name);
        SetAttribute(name, config[name]);
        pending := pending - {name};
        done := done + {name};
      }
      AttributesAssignedAll(old(Attrs()), config);
      raised := None;
    }

    /** `setattr(self, name, value)` for a name that is `lr` or no other modelled field. */
    method SetAttribute(name: string, value: real)
      modifies this
      ensures Attrs() == SetAttr(old(Attrs()), name, value)
      ensures StructureUnchanged()
    {
      if name == "lr" {
        lr := value;
      } else {
        otherAttributes := otherAttributes[name := value];
      }
    }

    /** The fields that assigning attributes leaves alone. */
    twostate predicate StructureUnchanged()
      reads this
    {
      && optimizerParams == old(optimizerParams) && paramGroupsOverride == old(paramGroupsOverride)
      && containsUnregularizedParams == old(containsUnregularizedParams)
      && lrScheduler == old(lrScheduler) && optimizerSlot == old(optimizerSlot)
    }

    /** What `_update_schedule(where)` does to the wrapper and to the wrapped optimizer's param groups. */
    twostate predicate ScheduleUpdated(where: real, new raised: Option<OptimizerError>)
      reads this, Inner()
    {
      && lr == old(lrScheduler).schedule(where)
      && optimizerSlot == old(optimizerSlot)
      && match old(Optimizer())
         case Failure(e) => raised == Some(e)
         case Success(o) =>
           match ScheduledGroups(old(o.paramGroups), lr, old(containsUnregularizedParams))
           case Failure(e) => raised == Some(e) && o.paramGroups == old(o.paramGroups)
           case Success(groups) => raised == None && o.paramGroups == groups
    }

    /** The fields that updating the schedule leaves alone. */
    twostate predicate ConfigurationUnchanged()
      reads this
    {
      StructureUnchanged() && otherAttributes == old(otherAttributes)
    }

    /** `_update_schedule`: sets `lr` first, then rewrites every param group in place. */
    method UpdateSchedule(where: real) returns (raised: Option<OptimizerError>)
      requires Valid()
      modifies this, Inner()
      ensures Valid()
      ensures ConfigurationUnchanged()
      ensures ScheduleUpdated(where, raised)
    {
      lr := lrScheduler.schedule(where);
      if Optimizer().Failure? {
        return Some(Optimizer().error);
      }
      var o := optimizerSlot.inner;
      ghost var groups0 := o.paramGroups;
      var config := OptimizerConfig();
      var i := 0;
      while i < |o.paramGroups|
        invariant 0 <= i <= |o.paramGroups| == |groups0|
        invariant forall j :: 0 <= j < i ==> o.paramGroups[j] == UpdateGroup(groups0[j], config)
        invariant forall j :: i <= j < |groups0| ==> o.paramGroups[j] == groups0[j]
        invariant ConfigurationUnchanged() && lr == lrScheduler.schedule(where)
      {
        o.paramGroups := o.paramGroups[i := UpdateGroup(o.paramGroups[i], config)];
        i := i + 1;
      }
      if containsUnregularizedParams {
        if |o.paramGroups| == 0 {
          return Some(NoParamGroups);
        }
        o.paramGroups := o.paramGroups[0 := o.paramGroups[0]["weight_decay" := Number(0.0)]];
      }
      raised := None;
    }

    /** `update_schedule_on_epoch`. */
    method UpdateScheduleOnEpoch(where: real) returns (raised: Option<OptimizerError>)
      requires Valid()
      modifies this, Inner()
      ensures Valid()
      ensures ConfigurationUnchanged()
      ensures old(lrScheduler.updateInterval) == OtherInterval ==>
                raised == Some(UnknownUpdateInterval) && lr == old(lr)
      ensures old(lrScheduler.updateInterval) == Step ==> raised == None && lr == old(lr)
      ensures old(lrScheduler.updateInterval) == Epoch ==> ScheduleUpdated(where, raised)
      ensures old(lrScheduler.updateInterval) != Epoch ==> forall o :: o in old(Inner()) ==> unchanged(o)
    {
      match ScheduleGate(lrScheduler.updateInterval, OnEpoch)
      case Failure(e) => raised := Some(e);
      case Success(acts) =>
        if acts {
          raised := UpdateSchedule(where);
        } else {
          raised := None;
        }
    }

    /** `update_schedule_on_step`. */
    method UpdateScheduleOnStep(where: real) returns (raised: Option<OptimizerError>)
      requires Valid()
      modifies this, Inner()
      ensures Valid()
      ensures ConfigurationUnchanged()
      ensures old(lrScheduler.updateInterval) == OtherInterval ==>
                raised == Some(UnknownUpdateInterval) && lr == old(lr)
      ensures old(lrScheduler.updateInterval) == Epoch ==> raised == None && lr == old(lr)
      ensures old(lrScheduler.updateInterval) == Step ==> ScheduleUpdated(where, raised)
      ensures old(lrScheduler.updateInterval) != Step ==> forall o :: o in old(Inner()) ==> unchanged(o)
    {
      match ScheduleGate(lrScheduler.updateInterval, OnStep)
      case Failure(e) => raised := Some(e);
      case Success(acts) =>
        if acts {
          raised := UpdateSchedule(where);
        } else {
          raised := None;
        }
    }
  }

  /**
   * A checkpoint of the wrapper restored into itself: `set_classy_state(get_classy_state())`
   * leaves the learning rate and every other attribute as they were.
   */
  method ResumeFromOwnCheckpoint(opt: ClassyOptimizer) returns (raised: Option<OptimizerError>)
    requires opt.Valid()
    modifies opt
    ensures opt.Valid()
    ensures raised == (if old(opt.Optimizer()).Failure? then Some(old(opt.Optimizer()).error) else None)
    ensures opt.lr == old(opt.lr) && opt.otherAttributes == old(opt.otherAttributes)
    ensures opt.optimizerSlot == old(opt.optimizerSlot) && opt.lrScheduler == old(opt.lrScheduler)
    ensures opt.optimizerParams == old(opt.optimizerParams) && opt.paramGroupsOverride == old(opt.paramGroupsOverride)
    ensures opt.containsUnregularizedParams == old(opt.containsUnregularizedParams)
  {
    var saved := opt.GetClassyState();
    if saved.Failure? {
      return Some(saved.error);
    }
    ConfigRoundTrip(opt.Attrs());
    raised := opt.SetClassyState(saved.value);
  }

  /** `__init__`: validate the model's optimizer params, then build the wrapper. */
  method Create(model: ModelView, scheduler: Scheduler) returns (r: Result<ClassyOptimizer, OptimizerError>)
    ensures r.Failure? <==> ValidateOptimizerParams(model).Failure?
    ensures r.Failure? ==> r.error == ValidateOptimizerParams(model).error
    ensures r.Success? ==>
              && fresh(r.value) && r.value.Valid()
              && r.value.optimizerParams == ValidateOptimizerParams(model).value
              && r.value.lr == scheduler.schedule(0.0)
              && r.value.optimizerSlot == Unset
              && r.value.lrScheduler == scheduler
              && r.value.otherAttributes == map[]
  {
    match ValidateOptimizerParams(model)
    case Failure(e) => r := Failure(e);
    case Success(params) =>
      var o := new ClassyOptimizer(params, scheduler);
      r := Success(o);
  }
}
