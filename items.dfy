/** The per-item loop every node runs: each input item is processed in turn;
    its response becomes one output item, or one per element when it is an
    array; a failing item either becomes one `{ error }` item (when the node is
    set to continue on failure) or aborts the whole run with its error. */
module ItemLoop {
  import opened Json

  /** One output item: its JSON and the index of the input item it came from. */
  datatype Output = Output(json: Value, pairedItem: nat)

  /** `returnJsonArray(data)` tagged with input item `i`: an array fans out into
      one output per element, anything else is a single output. */
  function Emit(data: Value, i: nat): (out: seq<Output>)
  {
    if data.Arr? then seq(|data.elems|, k requires 0 <= k < |data.elems| => Output(data.elems[k], i))
    else [Output(data, i)]
  }

  /** The output item that records a failed input item. */
  function ErrorItem(message: string, i: nat): Output
  {
    Output(Obj(map["error" := Str(message)]), i)
  }

  /** What input item `i` adds to the output when the run goes on past it. */
  function Contribution(reply: Reply, i: nat): seq<Output>
  {
    match reply
    case Ok(data) => Emit(data, i)
    case Fail(m) => [ErrorItem(m, i)]
  }

  /** Reference definition of a run over the outcomes of items 0 .. n-1: their
      contributions in item order, unless an item fails while the node is not
      set to continue on failure, in which case the run fails with that error. */
  function Run(replies: seq<Reply>, continueOnFail: bool): Outcome<seq<Output>>
  {
    if replies == [] then Ok([])
    else
      var n := |replies| - 1;
      match Run(replies[..n], continueOnFail)
      case Fail(m) => Fail(m)
      case Ok(out) =>
        if replies[n].Fail? && !continueOnFail then Fail(replies[n].message)
        else Ok(out + Contribution(replies[n], n))
  }

  /** Number of output items item `i` contributes. */
  function Size(reply: Reply): nat
  {
    if reply.Ok? && reply.value.Arr? then |reply.value.elems| else 1
  }

  /** Total number of output items of a run that goes past every item. */
  function Total(replies: seq<Reply>): nat
  {
    if replies == [] then 0 else Total(replies[..|replies| - 1]) + Size(replies[|replies| - 1])
  }

  /** Item `i` contributes `Size` outputs, each paired with `i`. */
  lemma ContributionShape(reply: Reply, i: nat)
    ensures |Contribution(reply, i)| == Size(reply)
    ensures forall k :: 0 <= k < Size(reply) ==> Contribution(reply, i)[k].pairedItem == i
    ensures reply.Ok? && !reply.value.Arr? ==> Contribution(reply, i) == [Output(reply.value, i)]
    ensures reply.Ok? && reply.value.Arr? ==>
      forall k :: 0 <= k < Size(reply) ==> Contribution(reply, i)[k].json == reply.value.elems[k]
    ensures reply.Fail? ==> Contribution(reply, i) == [Output(Obj(map["error" := Str(reply.message)]), i)]
  {
  }

  /** A run that completes emits, in item order, `Size` outputs per item, each
      paired with the item it came from. */
  lemma {:induction false} RunShape(replies: seq<Reply>, continueOnFail: bool)
    requires Run(replies, continueOnFail).Ok?
    ensures var out := Run(replies, continueOnFail).value;
      && |out| == Total(replies)
      && (forall k :: 0 <= k < |out| ==> out[k].pairedItem < |replies|)
      && (forall a, b :: 0 <= a < b < |out| ==> out[a].pairedItem <= out[b].pairedItem)
  {
    if replies != [] {
      var n := |replies| - 1;
      RunShape(replies[..n], continueOnFail);
      ContributionShape(replies[n], n);
    }
  }

  /** With continue-on-failure the run always completes and every item is
      processed: a failing item contributes exactly one `{ error }` item. */
  lemma {:induction false} ContinueCompletes(replies: seq<Reply>)
    ensures Run(replies, true).Ok?
    ensures |Run(replies, true).value| == Total(replies)
  {
    if replies != [] {
      ContinueCompletes(replies[..|replies| - 1]);
      RunShape(replies, true);
    }
  }

  /** When no response is an array, a completed run has exactly one output per
      input item, the k-th paired with item k. */
  lemma {:induction false} OnePerItem(replies: seq<Reply>, continueOnFail: bool)
    requires Run(replies, continueOnFail).Ok?
    requires forall k :: 0 <= k < |replies| ==> Size(replies[k]) == 1
    ensures var out := Run(replies, continueOnFail).value;
      && |out| == |replies|
      && forall k :: 0 <= k < |out| ==> out[k].pairedItem == k
  {
    if replies != [] {
      var n := |replies| - 1;
      OnePerItem(replies[..n], continueOnFail);
      ContributionShape(replies[n], n);
    }
  }

  /** Item `k` is the first that failed. */
  predicate FirstFailure(replies: seq<Reply>, k: int)
  {
    0 <= k < |replies| && replies[k].Fail? && forall j :: 0 <= j < k ==> replies[j].Ok?
  }

  /** Without continue-on-failure the run fails exactly when some item fails,
      and then with the error of the first item that failed. */
  lemma AbortOnFailure(replies: seq<Reply>)
    ensures Run(replies, false).Fail? <==> exists k :: 0 <= k < |replies| && replies[k].Fail?
    ensures forall k :: FirstFailure(replies, k) ==> Run(replies, false) == Fail(replies[k].message)
  {
    CompletesWithoutFailure(replies);
    forall k | FirstFailure(replies, k)
      ensures Run(replies, false) == Fail(replies[k].message)
    {
      FailsAtFirst(replies, k);
    }
  }

  /** Without continue-on-failure the run completes exactly when no item fails. */
  lemma {:induction false} CompletesWithoutFailure(replies: seq<Reply>)
    ensures Run(replies, false).Ok? <==> forall k :: 0 <= k < |replies| ==> replies[k].Ok?
  {
    if replies != [] {
      var n := |replies| - 1;
      var init := replies[..n];
      CompletesWithoutFailure(init);
      assert forall k :: 0 <= k < n ==> init[k] == replies[k];
    }
  }

  /** The run fails with the error of the first item that failed. */
  lemma {:induction false} FailsAtFirst(replies: seq<Reply>, k: nat)
    requires FirstFailure(replies, k)
    ensures Run(replies, false) == Fail(replies[k].message)
  {
    var n := |replies| - 1;
    var init := replies[..n];
    if k < n {
      assert FirstFailure(init, k);
      FailsAtFirst(init, k);
    } else {
      CompletesWithoutFailure(init);
    }
  }

  /** Reference view of a completed run: the contributions of items
      `from` .. `to`-1, concatenated front to back. */
  function Concat(replies: seq<Reply>, from: nat, to: nat): seq<Output>
    requires from <= to <= |replies|
    decreases |replies| - from
  {
    if from == to then [] else Contribution(replies[from], from) + Concat(replies, from + 1, to)
  }

  /** A run that goes past every item emits the concatenation of their contributions. */
  lemma {:induction false} RunConcat(replies: seq<Reply>, continueOnFail: bool)
    requires Run(replies, continueOnFail).Ok?
    ensures Run(replies, continueOnFail).value == Concat(replies, 0, |replies|)
  {
    if replies != [] {
      var n := |replies| - 1;
      RunConcat(replies[..n], continueOnFail);
      ConcatPrefix(replies, n, 0);
      ConcatSnoc(replies, n, 0);
    }
  }

  /** The contributions of items below `n` are the same in any longer run. */
  lemma {:induction false} ConcatPrefix(replies: seq<Reply>, n: nat, from: nat)
    requires from <= n <= |replies|
    ensures Concat(replies[..n], from, n) == Concat(replies, from, n)
    decreases n - from
  {
    if from < n {
      ConcatPrefix(replies, n, from + 1);
    }
  }

  /** Appending item `n` to the contributions of items `from` .. `n`-1. */
  lemma {:induction false} ConcatSnoc(replies: seq<Reply>, n: nat, from: nat)
    requires from <= n < |replies|
    ensures Concat(replies, from, n) + Contribution(replies[n], n) == Concat(replies, from, n + 1)
    decreases n - from
  {
    if from < n {
      ConcatSnoc(replies, n, from + 1);
    }
  }
}
