/**
 The single-sequence greedy decoder. It is the specification that the batched
 scheduler and the draft/verify decoder are proved to refine.
 */
module Generation {
  import opened Wrappers

  /** The next token a model selects after reading a context. */
  type Model = seq<int> -> int

  datatype Limits = Limits(vocabSize: nat, maxSequenceLength: nat)

  datatype Config = Config(maxNewTokens: nat, eos: seq<int>) {
    function Stop(): set<int> {
      set t | t in eos
    }
  }

  datatype Output = Output(tokenIds: seq<int>, generated: seq<int>, stoppedOnEos: bool)

  /** Every token of `out` is the model's choice after the context and the earlier tokens. */
  ghost predicate FollowsModel(next: Model, context: seq<int>, out: seq<int>) {
    forall i :: 0 <= i < |out| ==> out[i] == next(context + out[..i])
  }

  ghost predicate NoneIn(tokens: seq<int>, stop: set<int>) {
    forall i :: 0 <= i < |tokens| ==> tokens[i] !in stop
  }

  /** The model iterated from the prompt, cut at the first stop token or at `maxNew` tokens. */
  ghost predicate GreedyOutput(next: Model, prompt: seq<int>, maxNew: nat, stop: set<int>, out: seq<int>) {
    && FollowsModel(next, prompt, out)
    && |out| <= maxNew
    && (out != [] ==> NoneIn(out[..|out| - 1], stop))
    && (|out| < maxNew ==> out != [] && out[|out| - 1] in stop)
  }

  /** One step of the iteration. */
  lemma FollowsModelExtend(next: Model, context: seq<int>, out: seq<int>, token: int)
    requires FollowsModel(next, context, out)
    requires token == next(context + out)
    ensures FollowsModel(next, context, out + [token])
  {
    var longer := out + [token];
    forall i | 0 <= i < |longer|
      ensures longer[i] == next(context + longer[..i])
    {
      if i < |out| {
        assert longer[..i] == out[..i];
      } else {
        assert longer[..i] == out;
      }
    }
  }

  /** Two streams of one model agree as far as both go. */
  lemma {:induction false} StreamsAgree(next: Model, context: seq<int>, a: seq<int>, b: seq<int>, n: nat)
    requires FollowsModel(next, context, a) && FollowsModel(next, context, b)
    requires n <= |a| && n <= |b|
    ensures forall i :: 0 <= i < n ==> a[i] == b[i]
  {
    if n > 0 {
      StreamsAgree(next, context, a, b, n - 1);
      assert a[..n - 1] == b[..n - 1];
    }
  }

  /** The specification fixes the output completely. */
  lemma GreedyOutputUnique(next: Model, prompt: seq<int>, maxNew: nat, stop: set<int>, a: seq<int>, b: seq<int>)
    requires GreedyOutput(next, prompt, maxNew, stop, a)
    requires GreedyOutput(next, prompt, maxNew, stop, b)
    ensures a == b
  {
    StreamsAgree(next, prompt, a, b, if |a| <= |b| then |a| else |b|);
    if |a| != |b| {
      assert false;
    }
  }

  predicate InVocabulary(limits: Limits, token: int) {
    0 <= token < limits.vocabSize
  }

  /** The checks of `validate_generation`. */
  predicate Valid(limits: Limits, prompt: seq<int>, config: Config) {
    && 0 < limits.vocabSize && limits.vocabSize - 1 <= 0x7FFF_FFFF
    && prompt != []
    && (forall i :: 0 <= i < |prompt| ==> InVocabulary(limits, prompt[i]))
    && |prompt| + config.maxNewTokens <= limits.maxSequenceLength
    && (forall i :: 0 <= i < |config.eos| ==> InVocabulary(limits, config.eos[i]))
  }

  /**
   The cached decode loop, without stop sequences and without cancellation: the cache holds what has
   been fed to the model, and the model's choice is a function of the cache alone.
   */
  method GenerateGreedy(next: Model, limits: Limits, prompt: seq<int>, config: Config) returns (r: Result<Output>)
    ensures !Valid(limits, prompt, config) ==> r.Failure?
    ensures Valid(limits, prompt, config) && (forall context :: InVocabulary(limits, next(context))) ==> r.Success?
    ensures r.Success? ==>
      && GreedyOutput(next, prompt, config.maxNewTokens, config.Stop(), r.value.generated)
      && r.value.tokenIds == prompt + r.value.generated
      && r.value.stoppedOnEos == (r.value.generated != [] && r.value.generated[|r.value.generated| - 1] in config.Stop())
      && (forall i :: 0 <= i < |r.value.generated| ==> InVocabulary(limits, r.value.generated[i]))
  {
    if !Valid(limits, prompt, config) {
      return Failure;
    }
    var stop := config.Stop();
    var output := Output(prompt, [], false);
    if config.maxNewTokens == 0 {
      return Success(output);
    }
    var cache := prompt;
    var logits := next(cache);
    var step := 0;
    while step < config.maxNewTokens
      invariant 0 <= step <= config.maxNewTokens
      invariant |output.generated| == step && output.tokenIds == prompt + output.generated
      invariant FollowsModel(next, prompt, output.generated) && NoneIn(output.generated, stop)
      invariant step < config.maxNewTokens ==> cache == prompt + output.generated && logits == next(cache)
      invariant !output.stoppedOnEos
      invariant forall i :: 0 <= i < step ==> InVocabulary(limits, output.generated[i])
    {
      var token := logits;
      if !InVocabulary(limits, token) {
        return Failure;
      }
      FollowsModelExtend(next, prompt, output.generated, token);
      ghost var before := output.generated;
      output := Output(output.tokenIds + [token], output.generated + [token], false);
      assert output.tokenIds == prompt + output.generated;
      assert output.generated[..|output.generated| - 1] == before;
      if token in stop {
        return Success(output.(stoppedOnEos := true));
      }
      if step + 1 == config.maxNewTokens {
        return Success(output);
      }
      cache := cache + [token];
      assert cache == prompt + output.generated;
      logits := next(cache);
      step := step + 1;
    }
    return Success(output);
  }
}
