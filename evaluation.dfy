/**
 * The loss/gradient evaluator of generate_art.py: an adapter between one joint
 * computation of (loss, gradient) and an optimizer that asks for the two parts
 * through separate callbacks, `loss(x)` then `grads(x)`. It is a single-slot
 * cache with two states, empty and holding one result.
 */
module Evaluation {
  import opened Wrappers
  import opened Tensors
  import opened ImageOps

  /** What the compiled network function returns: the loss and its gradient array. */
  datatype NetOutput = NetOutput(loss: real, grad: Batch)

  /**
   * The compiled Keras function `f_outputs`, which maps the combination image
   * (shape `(1, Height, Width, Channels)`) to the loss and the gradient of the
   * loss with respect to that image. Its internals are foreign.
   */
  type Network = Batch -> NetOutput

  /** The gradient of the loss has the shape of the image it is taken with respect to. */
  ghost predicate PreservesShape(net: Network)
  {
    forall b: Batch :: HasShape4(b, 1, Height, Width, Channels) ==>
      HasShape4(net(b).grad, 1, Height, Width, Channels)
  }

  /** The number of elements of the flattened combination image. */
  const Size: nat := Height * Width * Channels

  /** One result of the joint computation: the loss and the flattened gradient. */
  datatype LossAndGrads = LossAndGrads(loss: real, grad: Vector)

  /**
   * `eval_loss_and_grads(x)`: reshape `x` to `(1, Height, Width, Channels)`
   * (a ValueError unless it has exactly `Size` elements), run the network once
   * and flatten the gradient.
   */
  function EvalLossAndGrads(net: Network, x: Vector): (r: Result<LossAndGrads>)
    ensures r.Ok? <==> |x| == Size
    ensures r.Err? ==> r.error == ValueError
    ensures r.Ok? && PreservesShape(net) ==> |r.value.grad| == |x|
    ensures r.Ok? ==>
      exists b :: HasShape4(b, 1, Height, Width, Channels) && Flatten4(b) == x &&
        r.value == LossAndGrads(net(b).loss, Flatten4(net(b).grad))
  {
    if |x| != Size then Err(ValueError)
    else
      var outs := net(Reshape4(x, Height, Width, Channels));
      Ok(LossAndGrads(outs.loss, Flatten4(outs.grad)))
  }

  /** The evaluator's two fields: `loss_value` and `grad_values`. */
  datatype Cache = Cache(lossValue: Option<real>, gradValues: Option<Vector>)

  /** The state of a freshly constructed evaluator. */
  const Empty: Cache := Cache(None, None)

  /** The loss slot is empty exactly when the gradient slot is. */
  predicate Consistent(c: Cache)
  {
    c.lossValue.None? <==> c.gradValues.None?
  }

  /**
   * `Evaluator.loss(x)`: fails its assertion when a result is cached;
   * otherwise runs the joint computation once, stores both parts and returns
   * the loss. The new cache comes first in the result.
   */
  function LossStep(net: Network, c: Cache, x: Vector): (r: Result<(Cache, real)>)
    ensures c.lossValue.Some? ==> r == Err(AssertionError)
    ensures c.lossValue.None? ==> (r.Ok? <==> |x| == Size)
    ensures c.lossValue.None? && r.Err? ==> r.error == ValueError
    ensures r.Ok? ==> Consistent(r.value.0) && r.value.0.lossValue == Some(r.value.1)
    ensures r.Ok? ==> EvalLossAndGrads(net, x) == Ok(LossAndGrads(r.value.1, r.value.0.gradValues.value))
  {
    if c.lossValue.Some? then Err(AssertionError)
    else
      match EvalLossAndGrads(net, x)
      case Err(e) => Err(e)
      case Ok(ev) => Ok((Cache(Some(ev.loss), Some(ev.grad)), ev.loss))
  }

  /**
   * `Evaluator.grads(x)`: fails its assertion when no result is cached;
   * otherwise returns the cached gradient and empties both slots. The
   * argument is not used.
   */
  function GradsStep(c: Cache, x: Vector): (r: Result<(Cache, Vector)>)
    requires Consistent(c)
    ensures r.Err? <==> c.lossValue.None?
    ensures r.Err? ==> r.error == AssertionError
    ensures r.Ok? ==> r.value.0 == Empty && c.gradValues == Some(r.value.1)
  {
    if c.lossValue.None? then Err(AssertionError)
    else Ok((Empty, c.gradValues.value))
  }

  /** `grads` ignores its argument. */
  lemma GradsIgnoresArgument(c: Cache, x: Vector, y: Vector)
    requires Consistent(c)
    ensures GradsStep(c, x) == GradsStep(c, y)
  {
  }

  /** A request of the optimizer, and its answer. */
  datatype Call = Loss(x: Vector) | Grads(x: Vector)
  datatype Reply = LossValue(loss: real) | GradValues(grad: Vector)

  /**
   * One request against the cache. A loss request answers the loss of its
   * input and leaves that input's gradient cached; a grads request answers the
   * cached gradient and leaves the cache empty.
   */
  function Step(net: Network, c: Cache, call: Call): (r: Result<(Cache, Reply)>)
    requires Consistent(c)
    ensures r.Ok? ==> Consistent(r.value.0)
    ensures r.Ok? ==> (call.Loss? <==> c.lossValue.None?) && (call.Loss? <==> r.value.0.lossValue.Some?)
    ensures r.Ok? && call.Loss? ==>
      EvalLossAndGrads(net, call.x).Ok? &&
      r.value.1 == LossValue(EvalLossAndGrads(net, call.x).value.loss) &&
      r.value.0.gradValues == Some(EvalLossAndGrads(net, call.x).value.grad) &&
      r.value.0.lossValue.Some?
    ensures r.Ok? && call.Grads? ==>
      c.gradValues.Some? && r.value.1 == GradValues(c.gradValues.value) && r.value.0 == Empty
  {
    if call.Loss? then
      var s := LossStep(net, c, call.x);
      if s.Err? then Err(s.error) else Ok((s.value.0, LossValue(s.value.1)))
    else
      var s := GradsStep(c, call.x);
      if s.Err? then Err(s.error) else Ok((s.value.0, GradValues(s.value.1)))
  }

  /**
   * A sequence of requests against one evaluator; the first exception ends
   * the run. On success, the final cache and one reply per request.
   */
  function Run(net: Network, c: Cache, calls: seq<Call>): (r: Result<(Cache, seq<Reply>)>)
    requires Consistent(c)
    ensures r.Ok? ==> Consistent(r.value.0) && |r.value.1| == |calls|
    decreases |calls|
  {
    if calls == [] then Ok((c, []))
    else
      var first := Step(net, c, calls[0]);
      if first.Err? then Err(first.error)
      else
        var rest := Run(net, first.value.0, calls[1..]);
        if rest.Err? then Err(rest.error)
        else Ok((rest.value.0, [first.value.1] + rest.value.1))
  }

  /** The requests alternate loss, grads, ..., starting with a loss request when `lossFirst`. */
  predicate AlternatesFrom(lossFirst: bool, calls: seq<Call>)
  {
    forall i :: 0 <= i < |calls| ==> (calls[i].Loss? <==> ((i % 2 == 0) == lossFirst))
  }

  /** Every loss request carries a vector that can be reshaped to the image. */
  predicate LossInputsFit(calls: seq<Call>)
  {
    forall i :: 0 <= i < |calls| && calls[i].Loss? ==> |calls[i].x| == Size
  }

  lemma AlternatesFromCons(lossFirst: bool, calls: seq<Call>)
    requires calls != []
    ensures AlternatesFrom(lossFirst, calls) <==>
      (calls[0].Loss? == lossFirst) && AlternatesFrom(!lossFirst, calls[1..])
  {
    if calls[0].Loss? == lossFirst && AlternatesFrom(!lossFirst, calls[1..]) {
      forall i | 0 < i < |calls| ensures (calls[i].Loss? <==> ((i % 2 == 0) == lossFirst)) {
        assert calls[i] == calls[1..][i - 1];
      }
    }
  }

  lemma LossInputsFitCons(calls: seq<Call>)
    requires calls != []
    ensures LossInputsFit(calls) <==>
      (calls[0].Loss? ==> |calls[0].x| == Size) && LossInputsFit(calls[1..])
  {
    if (calls[0].Loss? ==> |calls[0].x| == Size) && LossInputsFit(calls[1..]) {
      forall i | 0 < i < |calls| && calls[i].Loss? ensures |calls[i].x| == Size {
        assert calls[i] == calls[1..][i - 1];
      }
    }
  }

  /**
   * A sequence of requests succeeds exactly when it strictly alternates loss
   * and grads, starting with loss on an empty cache and with grads on a full
   * one, and every loss request has an input of the right size.
   */
  lemma {:induction false} RunSucceedsIff(net: Network, c: Cache, calls: seq<Call>)
    requires Consistent(c)
    ensures Run(net, c, calls).Ok? <==>
      AlternatesFrom(c.lossValue.None?, calls) && LossInputsFit(calls)
    decreases |calls|
  {
    if calls != [] {
      AlternatesFromCons(c.lossValue.None?, calls);
      LossInputsFitCons(calls);
      var first := Step(net, c, calls[0]);
      if first.Ok? {
        RunSucceedsIff(net, first.value.0, calls[1..]);
      }
    }
  }

  /** Starting from a fresh evaluator: success exactly on loss, grads, loss, grads, ... */
  lemma FreshRunSucceedsIff(net: Network, calls: seq<Call>)
    ensures Run(net, Empty, calls).Ok? <==>
      (forall i :: 0 <= i < |calls| ==> (calls[i].Loss? <==> i % 2 == 0)) && LossInputsFit(calls)
  {
    RunSucceedsIff(net, Empty, calls);
  }

  /**
   * The answer to request `i` is the right one: a loss request gets the loss
   * of its own input; a grads request gets the gradient computed by the loss
   * request just before it or, when it is the first request, the gradient
   * already cached in `c`.
   */
  ghost predicate AnswerIsCached(net: Network, c: Cache, calls: seq<Call>, replies: seq<Reply>, i: nat)
    requires i < |calls| && |replies| == |calls|
  {
    if calls[i].Loss? then
      EvalLossAndGrads(net, calls[i].x).Ok? &&
      replies[i] == LossValue(EvalLossAndGrads(net, calls[i].x).value.loss)
    else if i == 0 then
      c.gradValues.Some? && replies[i] == GradValues(c.gradValues.value)
    else
      calls[i - 1].Loss? && EvalLossAndGrads(net, calls[i - 1].x).Ok? &&
      replies[i] == GradValues(EvalLossAndGrads(net, calls[i - 1].x).value.grad)
  }

  /** The answer to the first request of a successful run is the cached one. */
  lemma FirstAnswer(net: Network, c: Cache, calls: seq<Call>)
    requires Consistent(c) && calls != [] && Run(net, c, calls).Ok?
    ensures AnswerIsCached(net, c, calls, Run(net, c, calls).value.1, 0)
  {
    var first := Step(net, c, calls[0]);
    assert Run(net, c, calls).value.1[0] == first.value.1;
  }

  /**
   * A later answer is the cached one when it is so for the requests after the
   * first, answered from the cache `c'` the first request left behind.
   */
  lemma LaterAnswer(net: Network, c: Cache, c': Cache, calls: seq<Call>, replies: seq<Reply>, i: nat)
    requires 0 < i < |calls| && |replies| == |calls|
    requires calls[0].Loss? ==>
      EvalLossAndGrads(net, calls[0].x).Ok? &&
      c'.gradValues == Some(EvalLossAndGrads(net, calls[0].x).value.grad)
    requires calls[0].Grads? ==> c' == Empty
    requires AnswerIsCached(net, c', calls[1..], replies[1..], i - 1)
    ensures AnswerIsCached(net, c, calls, replies, i)
  {
    assert calls[i] == calls[1..][i - 1] && replies[i] == replies[1..][i - 1];
  }

  /**
   * What a successful run answers: every reply is the cached one, with no
   * recomputation and no drift.
   */
  lemma {:induction false} RunReplies(net: Network, c: Cache, calls: seq<Call>)
    requires Consistent(c) && Run(net, c, calls).Ok?
    ensures forall i :: 0 <= i < |calls| ==> AnswerIsCached(net, c, calls, Run(net, c, calls).value.1, i)
    decreases |calls|
  {
    if calls != [] {
      var c' := Step(net, c, calls[0]).value.0;
      RunReplies(net, c', calls[1..]);
      FirstAnswer(net, c, calls);
      var replies := Run(net, c, calls).value.1;
      assert replies[1..] == Run(net, c', calls[1..]).value.1;
      forall i | 0 < i < |calls| ensures AnswerIsCached(net, c, calls, replies, i) {
        LaterAnswer(net, c, c', calls, replies, i);
      }
    }
  }

  /** After a successful run from an empty cache, the cache is empty exactly after an even number of requests. */
  lemma {:induction false} RunFinalCache(net: Network, c: Cache, calls: seq<Call>)
    requires Consistent(c) && Run(net, c, calls).Ok?
    ensures Run(net, c, calls).value.0.lossValue.None? <==> ((|calls| % 2 == 0) == c.lossValue.None?)
    decreases |calls|
  {
    if calls != [] {
      var first := Step(net, c, calls[0]);
      RunFinalCache(net, first.value.0, calls[1..]);
      assert Run(net, c, calls).value.0 == Run(net, first.value.0, calls[1..]).value.0;
      assert first.value.0.lossValue.None? == c.lossValue.Some?;
      assert (|calls| % 2 == 0) == (|calls[1..]| % 2 != 0);
    }
  }

  /** A run of one request followed by more: the first step, then the rest from the cache it leaves. */
  lemma RunCons(net: Network, c: Cache, call: Call, rest: seq<Call>)
    requires Consistent(c)
    ensures var first := Step(net, c, call);
      first.Ok? && Run(net, first.value.0, rest).Ok? ==>
        Run(net, c, [call] + rest) ==
          Ok((Run(net, first.value.0, rest).value.0, [first.value.1] + Run(net, first.value.0, rest).value.1))
  {
    assert ([call] + rest)[0] == call && ([call] + rest)[1..] == rest;
  }

  /**
   * With a network that returns a fixed loss and a fixed gradient for every
   * input, loss, grads, loss answers that loss, that flattened gradient and
   * that loss again, and leaves the second result cached.
   */
  lemma ConstantNetworkRun(x: Vector, loss: real, grad: Batch)
    requires |x| == Size
    ensures var net := (b: Batch) => NetOutput(loss, grad);
      Run(net, Empty, [Loss(x), Grads(x), Loss(x)]) ==
        Ok((Cache(Some(loss), Some(Flatten4(grad))),
            [LossValue(loss), GradValues(Flatten4(grad)), LossValue(loss)]))
  {
    var net := (b: Batch) => NetOutput(loss, grad);
    var held := Cache(Some(loss), Some(Flatten4(grad)));
    assert Step(net, Empty, Loss(x)) == Ok((held, LossValue(loss)));
    assert Step(net, held, Grads(x)) == Ok((Empty, GradValues(Flatten4(grad))));
    var last := [LossValue(loss)];
    assert Run(net, Empty, [Loss(x)]) == Ok((held, last)) by {
      RunCons(net, Empty, Loss(x), []);
      assert [Loss(x)] + [] == [Loss(x)] && [LossValue(loss)] + [] == last;
    }
    RunCons(net, held, Grads(x), [Loss(x)]);
    assert Run(net, held, [Grads(x), Loss(x)]) == Ok((held, [GradValues(Flatten4(grad))] + last));
    RunCons(net, Empty, Loss(x), [Grads(x), Loss(x)]);
    assert [Loss(x)] + [Grads(x), Loss(x)] == [Loss(x), Grads(x), Loss(x)];
    assert [LossValue(loss)] + ([GradValues(Flatten4(grad))] + last) ==
      [LossValue(loss), GradValues(Flatten4(grad)), LossValue(loss)];
  }

  /**
   * The evaluator object. `net` stands for the module-level `f_outputs` that
   * `eval_loss_and_grads` calls.
   */
  class Evaluator {
    const net: Network
    var lossValue: Option<real>
    var gradValues: Option<Vector>

    /** The two fields as one cache value. */
    function State(): Cache
      reads this
    {
      Cache(lossValue, gradValues)
    }

    ghost predicate Valid()
      reads this
    {
      Consistent(State())
    }

    /** `__init__`: nothing is cached. */
    constructor (net: Network)
      ensures this.net == net
      ensures State() == Empty && Valid()
    {
      this.net := net;
      lossValue := None;
      gradValues := None;
    }

    /** `loss(x)`: the state and the result follow LossStep; on an exception nothing changes. */
    method Loss(x: Vector) returns (r: Result<real>)
      requires Valid()
      modifies this
      ensures Valid()
      ensures var step := LossStep(net, old(State()), x);
        if step.Ok? then r == Ok(step.value.1) && State() == step.value.0
        else r == Err(step.error) && State() == old(State())
    {
      if lossValue.Some? {
        return Err(AssertionError);
      }
      var ev := EvalLossAndGrads(net, x);
      if ev.Err? {
        return Err(ev.error);
      }
      lossValue := Some(ev.value.loss);
      gradValues := Some(ev.value.grad);
      r := Ok(lossValue.value);
    }

    /** `grads(x)`: the state and the result follow GradsStep; on an exception nothing changes. */
    method Grads(x: Vector) returns (r: Result<Vector>)
      requires Valid()
      modifies this
      ensures Valid()
      ensures var step := GradsStep(old(State()), x);
        if step.Ok? then r == Ok(step.value.1) && State() == step.value.0
        else r == Err(step.error) && State() == old(State())
    {
      if lossValue.None? {
        return Err(AssertionError);
      }
      var copy := gradValues.value;
      lossValue := None;
      gradValues := None;
      r := Ok(copy);
    }
  }

  /**
   * One function evaluation as `fmin_l_bfgs_b` performs it with the two
   * callbacks: `loss(x)` and, if that returned, `grads(x)` on the same
   * evaluator. An exception from `loss` leaves the optimizer at once, so
   * `grads` is not called then. From an empty evaluator, both answers come
   * from one joint computation at `x`, and the evaluator is empty again
   * afterwards.
   */
  method Evaluate(e: Evaluator, x: Vector) returns (r: Result<(real, Vector)>)
    requires e.Valid() && e.State() == Empty
    modifies e
    ensures e.Valid() && e.State() == Empty
    ensures var ev := EvalLossAndGrads(e.net, x);
      if ev.Ok? then r == Ok((ev.value.loss, ev.value.grad))
      else r == Err(ValueError)
  {
    var f := e.Loss(x);
    if f.Err? {
      return Err(f.error);
    }
    var g := e.Grads(x);
    r := Ok((f.value, g.value));
  }
}
