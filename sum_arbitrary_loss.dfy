/**
 * Model of SumArbitraryLoss (classy_vision/losses/sum_arbitrary_loss.py): a loss that applies a
 * list of losses to the same prediction and target and adds their values, weighted. Each
 * sub-loss's value is an exact real number given by an arbitrary evaluation function, and the
 * loss registry is an arbitrary function from a loss config to a built loss.
 */
module Losses {
  import opened Wrappers

  /** A configured SumArbitraryLoss: its sub-losses and its weights. */
  datatype SumArbitraryLoss<L> = SumArbitraryLoss(losses: seq<L>, weights: seq<real>)

  /** The exceptions raised while building or applying the loss. */
  datatype LossError =
    | KeyError(key: string)     // a config key that is not present
    | LossesNotNonEmptyList     // AssertionError on "losses"
    | WeightsNotMatchingList    // AssertionError on "weights"
    | UnregisteredLoss          // AssertionError: a built loss is not a ClassyLoss
    | WeightIndexOutOfRange     // IndexError on `self.weights[idx]`
    | TotalLossUnassigned       // UnboundLocalError: `total_loss` read but never assigned

  /** A vector of ones of length `n`, as `torch.ones(n)`. */
  function Ones(n: nat): (w: seq<real>)
    ensures |w| == n && forall i :: 0 <= i < n ==> w[i] == 1.0
  {
    seq(n, _ => 1.0)
  }

  /** `__init__`: without weights every sub-loss gets weight one. */
  function New<L>(losses: seq<L>, weights: Option<seq<real>>): (m: SumArbitraryLoss<L>)
    ensures m.losses == losses
    ensures weights.Some? ==> m.weights == weights.value
    ensures weights.None? ==> |m.weights| == |losses| && forall i :: 0 <= i < |losses| ==> m.weights[i] == 1.0
  {
    SumArbitraryLoss(losses, if weights.Some? then weights.value else Ones(|losses|))
  }

  /** A config value as seen by a type test: absent, `None`, a list, or something else. */
  datatype ConfigValue<X> = Absent | NoneValue | ListValue(items: seq<X>) | OtherValue

  /** The config of a SumArbitraryLoss: the sub-loss configs and the weights. */
  datatype Config<C> = Config(losses: ConfigValue<C>, weights: ConfigValue<real>)

  /** A non-empty list of sub-loss configs. */
  predicate LossesOk<C>(losses: ConfigValue<C>)
  {
    losses.ListValue? && |losses.items| > 0
  }

  /** The two assertions of `from_config`, in order; reading an absent key raises KeyError first. */
  function CheckConfig<C>(config: Config<C>): (r: Result<(seq<C>, seq<real>), LossError>)
    ensures r.Success? <==>
              LossesOk(config.losses) && config.weights.ListValue? && |config.weights.items| == |config.losses.items|
    ensures r.Success? ==> r.value == (config.losses.items, config.weights.items)
    ensures config.weights == NoneValue ==> r.Failure?
    ensures r == Failure(LossesNotNonEmptyList) <==> config.losses != Absent && !LossesOk(config.losses)
  {
    if config.losses == Absent then Failure(KeyError("losses"))
    else if !LossesOk(config.losses) then Failure(LossesNotNonEmptyList)
    else if config.weights == Absent then Failure(KeyError("weights"))
    else if !(config.weights.ListValue? && |config.weights.items| == |config.losses.items|) then
      Failure(WeightsNotMatchingList)
    else Success((config.losses.items, config.weights.items))
  }

  /** The `weights` of a config when the assertion admits `None` or an absent key, as its message says. */
  function CheckConfigIntended<C>(config: Config<C>): (r: Result<(seq<C>, Option<seq<real>>), LossError>)
    ensures r.Success? <==>
              && LossesOk(config.losses)
              && (config.weights in {Absent, NoneValue}
                  || (config.weights.ListValue? && |config.weights.items| == |config.losses.items|))
    ensures r.Success? ==> r.value.0 == config.losses.items
    ensures r.Success? ==> (r.value.1.None? <==> config.weights in {Absent, NoneValue})
  {
    if config.losses == Absent then Failure(KeyError("losses"))
    else if !LossesOk(config.losses) then Failure(LossesNotNonEmptyList)
    else if config.weights in {Absent, NoneValue} then Success((config.losses.items, None))
    else if !(config.weights.ListValue? && |config.weights.items| == |config.losses.items|) then
      Failure(WeightsNotMatchingList)
    else Success((config.losses.items, Some(config.weights.items)))
  }

  /** The intended check admits every config the written one does, with the same result. */
  lemma IntendedAdmitsWrittenConfigs<C>(config: Config<C>)
    requires CheckConfig(config).Success?
    ensures CheckConfigIntended(config) == Success((CheckConfig(config).value.0, Some(CheckConfig(config).value.1)))
  {
  }

  /** As written, `from_config` rejects a config whose weights are None or missing. */
  lemma NoneWeightsRejected<C>(c: C)
    ensures CheckConfig(Config(ListValue([c]), NoneValue)) == Failure(WeightsNotMatchingList)
    ensures CheckConfig(Config(ListValue([c]), Absent)) == Failure(KeyError("weights"))
  {
  }

  /** The `from_config` loop: build one loss per config, in order; then all must be ClassyLosses. */
  method BuildLosses<C, L>(cs: seq<C>, build: C -> Option<L>) returns (r: Result<seq<L>, LossError>)
    ensures r.Success? <==> forall i :: 0 <= i < |cs| ==> build(cs[i]).Some?
    ensures r.Failure? ==> r.error == UnregisteredLoss
    ensures r.Success? ==> |r.value| == |cs| && forall i :: 0 <= i < |cs| ==> build(cs[i]) == Some(r.value[i])
  {
    var modules: seq<Option<L>> := [];
    for i := 0 to |cs|
      invariant |modules| == i
      invariant forall j :: 0 <= j < i ==> modules[j] == build(cs[j])
    {
      modules := modules + [build(cs[i])];
    }
    if exists j :: 0 <= j < |modules| && modules[j].None? {
      return Failure(UnregisteredLoss);
    }
    r := Success(seq(|modules|, j requires 0 <= j < |modules| => modules[j].value));
  }

  /**
   * `from_config` as written: check the config, build one loss per loss config in order
   * (`build` returns None for something that is not a ClassyLoss), and construct the loss with
   * the config's weights.
   */
  method FromConfig<C, L>(config: Config<C>, build: C -> Option<L>) returns (r: Result<SumArbitraryLoss<L>, LossError>)
    ensures CheckConfig(config).Failure? ==> r == Failure(CheckConfig(config).error)
    ensures CheckConfig(config).Success? ==>
              var (cs, ws) := CheckConfig(config).value;
              && (r.Success? <==> forall i :: 0 <= i < |cs| ==> build(cs[i]).Some?)
              && (r.Failure? ==> r.error == UnregisteredLoss)
              && (r.Success? ==>
                    && |r.value.losses| == |cs|
                    && (forall i :: 0 <= i < |cs| ==> build(cs[i]) == Some(r.value.losses[i]))
                    && r.value.weights == ws)
  {
    var checked := CheckConfig(config);
    if checked.Failure? {
      return Failure(checked.error);
    }
    var (cs, ws) := checked.value;
    var built := BuildLosses(cs, build);
    if built.Failure? {
      return Failure(built.error);
    }
    r := Success(New(built.value, Some(ws)));
  }

  /** `from_config` with None or absent weights admitted: these default to ones. */
  method FromConfigIntended<C, L>(config: Config<C>, build: C -> Option<L>) returns (r: Result<SumArbitraryLoss<L>, LossError>)
    ensures CheckConfigIntended(config).Failure? ==> r == Failure(CheckConfigIntended(config).error)
    ensures CheckConfigIntended(config).Success? ==>
              var (cs, ws) := CheckConfigIntended(config).value;
              && (r.Success? <==> forall i :: 0 <= i < |cs| ==> build(cs[i]).Some?)
              && (r.Failure? ==> r.error == UnregisteredLoss)
              && (r.Success? ==>
                    && |r.value.losses| == |cs|
                    && (forall i :: 0 <= i < |cs| ==> build(cs[i]) == Some(r.value.losses[i]))
                    && (ws.Some? ==> r.value.weights == ws.value)
                    && (ws.None? ==> r.value.weights == Ones(|cs|)))
  {
    var checked := CheckConfigIntended(config);
    if checked.Failure? {
      return Failure(checked.error);
    }
    var (cs, ws) := checked.value;
    var built := BuildLosses(cs, build);
    if built.Failure? {
      return Failure(built.error);
    }
    r := Success(New(built.value, ws));
  }

  /** The sub-losses' values on one prediction and target, in list order. */
  function Evaluate<L, P, T>(losses: seq<L>, evaluate: (L, P, T) -> real, prediction: P, target: T): (vs: seq<real>)
    ensures |vs| == |losses|
    ensures forall i :: 0 <= i < |losses| ==> vs[i] == evaluate(losses[i], prediction, target)
  {
    seq(|losses|, i requires 0 <= i < |losses| => evaluate(losses[i], prediction, target))
  }

  /** `weights[1] * values[1] + ... + weights[n-1] * values[n-1]`. */
  function WeightedTail(values: seq<real>, weights: seq<real>, n: nat): real
    requires n <= |values| && (n <= 1 || n <= |weights|)
  {
    if n <= 1 then 0.0 else WeightedTail(values, weights, n - 1) + weights[n - 1] * values[n - 1]
  }

  /**
   * What `forward` returns for sub-loss values `values`: the first value plus every later
   * value times its weight. It raises when there is no sub-loss, and when a later sub-loss has
   * no weight.
   */
  function Total(values: seq<real>, weights: seq<real>): Result<real, LossError>
  {
    if |values| == 0 then Failure(TotalLossUnassigned)
    else if |values| > 1 && |weights| < |values| then Failure(WeightIndexOutOfRange)
    else Success(values[0] + WeightedTail(values, weights, |values|))
  }

  /** `forward`: evaluate the sub-losses in order and accumulate the weighted total. */
  method Forward<L, P, T>(m: SumArbitraryLoss<L>, evaluate: (L, P, T) -> real, prediction: P, target: T)
    returns (r: Result<real, LossError>)
    ensures r == Total(Evaluate(m.losses, evaluate, prediction, target), m.weights)
  {
    ghost var values := Evaluate(m.losses, evaluate, prediction, target);
    var totalLoss: Option<real> := None;
    var idx := 0;
    while idx < |m.losses|
      invariant 0 <= idx <= |m.losses|
      invariant idx <= 1 || idx <= |m.weights|
      invariant idx == 0 <==> totalLoss.None?
      invariant idx > 0 ==> totalLoss.value == values[0] + WeightedTail(values, m.weights, idx)
    {
      var currentLoss := evaluate(m.losses[idx], prediction, target);
      if idx == 0 {
        totalLoss := Some(currentLoss);
      } else {
        if idx >= |m.weights| {
          return Failure(WeightIndexOutOfRange);
        }
        totalLoss := Some(totalLoss.value + m.weights[idx] * currentLoss);
      }
      idx := idx + 1;
    }
    if totalLoss.None? {
      return Failure(TotalLossUnassigned);
    }
    r := Success(totalLoss.value);
  }

  /** The plain sum of a sequence of reals. */
  function Sum(values: seq<real>): real
  {
    if values == [] then 0.0 else Sum(values[..|values| - 1]) + values[|values| - 1]
  }

  /** The weighted tail never reads `weights[0]`. */
  lemma {:induction false} WeightedTailIgnoresFirstWeight(values: seq<real>, weights: seq<real>, n: nat, w0: real)
    requires n <= |values| && (n <= 1 || n <= |weights|) && |weights| > 0
    ensures WeightedTail(values, weights, n) == WeightedTail(values, weights[0 := w0], n)
  {
    if n > 1 {
      WeightedTailIgnoresFirstWeight(values, weights, n - 1, w0);
    }
  }

  /** `weights[0]` is never applied: changing it does not change the total. */
  lemma TotalIgnoresFirstWeight(values: seq<real>, weights: seq<real>, w0: real)
    requires |weights| > 0
    ensures Total(values, weights) == Total(values, weights[0 := w0])
  {
    if |values| > 0 && !(|values| > 1 && |weights| < |values|) {
      WeightedTailIgnoresFirstWeight(values, weights, |values|, w0);
    }
  }

  /** With unit weights the weighted tail is the plain sum of the values after the first. */
  lemma {:induction false} UnitWeightedTail(values: seq<real>, weights: seq<real>, n: nat)
    requires 1 <= n <= |values| && n <= |weights|
    requires forall i :: 0 <= i < |weights| ==> weights[i] == 1.0
    ensures values[0] + WeightedTail(values, weights, n) == Sum(values[..n])
  {
    if n == 1 {
      assert values[..1][..0] == [];
    } else {
      UnitWeightedTail(values, weights, n - 1);
      assert values[..n][..n - 1] == values[..n - 1];
    }
  }

  /** With the default weights, the loss is the plain sum of the sub-losses. */
  lemma DefaultWeightsGiveSum(values: seq<real>)
    requires |values| > 0
    ensures Total(values, Ones(|values|)) == Success(Sum(values))
  {
    UnitWeightedTail(values, Ones(|values|), |values|);
    assert values[..|values|] == values;
  }

  /** A single sub-loss is returned unchanged, whatever the weights. */
  lemma SingleLossUnchanged(v: real, weights: seq<real>)
    ensures Total([v], weights) == Success(v)
  {
  }

  /** With no sub-loss, `forward` raises instead of returning 0. */
  lemma NoLossesRaise(weights: seq<real>)
    ensures Total([], weights) == Failure(TotalLossUnassigned)
  {
  }

  /** A loss built from a valid config never fails `forward` for lack of a weight. */
  lemma ConfiguredWeightsSuffice<L>(m: SumArbitraryLoss<L>, values: seq<real>)
    requires |m.weights| == |m.losses| > 0 && |values| == |m.losses|
    ensures Total(values, m.weights).Success?
  {
  }
}
