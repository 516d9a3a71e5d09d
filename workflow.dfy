/** A node's `execute`: the operation is read once, then every input item is
    processed in turn by the node's own branch, and the per-item outcomes go
    through the loop that every node repeats (fan-out of array responses, an
    `{ error }` item or an abort on failure). */
module Workflow {
  import opened Json
  import opened Host
  import opened Gateway
  import opened Effects
  import opened ItemLoop
  import PostNode
  import TaskNode
  import ShortLinkNode
  import QrCodeNode
  import HtmlHostingNode
  import FormSubmissionNode
  import WorkspaceNode
  import VariablesNode

  /** The nodes of the package. The post node talks to the service through
      the HTTP helper; the others through their library client. */
  datatype Node = Post | Task | ShortLink | QrCode | HtmlHosting | FormSubmission | Workspace | Variables

  /** What a run has sent so far: the library calls and the HTTP requests. */
  datatype Log = Log(calls: seq<Call>, sent: seq<HttpRequest>)

  /** What a library-backed node does for item `i`. */
  function PlanOf(node: Node, operation: string, item: Item, i: nat): Effect
    requires node != Post
  {
    match node
    case Task => TaskNode.Plan(operation, item, i)
    case ShortLink => ShortLinkNode.Plan(operation, item)
    case QrCode => QrCodeNode.Plan(operation, item)
    case HtmlHosting => HtmlHostingNode.Plan(operation, item, i)
    case FormSubmission => FormSubmissionNode.Plan(operation, item)
    case Workspace => WorkspaceNode.Plan(operation, item, i)
    case Variables => VariablesNode.Plan(operation, item)
  }

  /** Item `i` took the log from `before` to `after` and its response, or the
      error it threw, is `r`: the post node's trace of requests, or a library
      node's plan, carried out against the service's replies. */
  ghost predicate Step(client: ApiClient, http: HttpHelper, apiKey: string, node: Node, operation: string,
                       item: Item, i: nat, before: Log, after: Log, r: Reply)
  {
    if node == Post then
      var t := PostNode.Trace(http.server, http.environment, before.sent, apiKey, PostNode.Prefix, operation, item, i);
      after == Log(before.calls, t.sent) && r == t.reply
    else
      after.sent == before.sent && Carried(client, before.calls, after.calls, PlanOf(node, operation, item, i), r)
  }

  /** The run's record: one step per item processed, each starting where the
      previous one ended. */
  ghost predicate Steps(client: ApiClient, http: HttpHelper, apiKey: string, node: Node, operation: string,
                        items: seq<Item>, logs: seq<Log>, replies: seq<Reply>)
  {
    && |replies| <= |items| && |logs| == |replies| + 1
    && forall k :: 0 <= k < |replies| ==>
         Step(client, http, apiKey, node, operation, items[k], k, logs[k], logs[k + 1], replies[k])
  }

  /** One more item processed extends the run's record. */
  lemma StepsExtend(client: ApiClient, http: HttpHelper, apiKey: string, node: Node, operation: string,
                    items: seq<Item>, logs: seq<Log>, replies: seq<Reply>, after: Log, r: Reply)
    requires Steps(client, http, apiKey, node, operation, items, logs, replies) && |replies| < |items|
    requires Step(client, http, apiKey, node, operation, items[|replies|], |replies|, logs[|replies|], after, r)
    ensures Steps(client, http, apiKey, node, operation, items, logs + [after], replies + [r])
  {
    var n := |replies|;
    forall k | 0 <= k <= n
      ensures Step(client, http, apiKey, node, operation, items[k], k, (logs + [after])[k], (logs + [after])[k + 1], (replies + [r])[k])
    {
      if k < n {
        assert (logs + [after])[k] == logs[k] && (logs + [after])[k + 1] == logs[k + 1] && (replies + [r])[k] == replies[k];
      }
    }
  }

  /** The body of the loop for one item, before its error handling. */
  method ProcessItem(client: ApiClient, http: HttpHelper, apiKey: string, node: Node, operation: string, item: Item, i: nat)
    returns (r: Reply)
    requires client.ListingsEnd()
    modifies client, http
    ensures Step(client, http, apiKey, node, operation, item, i,
                 Log(old(client.calls), old(http.sent)), Log(client.calls, http.sent), r)
  {
    match node
    case Post => r := PostNode.Process(http, apiKey, operation, item, i);
    case Task => r := TaskNode.Process(client, operation, item, i);
    case ShortLink => r := ShortLinkNode.Process(client, operation, item);
    case QrCode => r := QrCodeNode.Process(client, operation, item);
    case HtmlHosting => r := HtmlHostingNode.Process(client, operation, item, i);
    case FormSubmission => r := FormSubmissionNode.Process(client, operation, item);
    case Workspace => r := WorkspaceNode.Process(client, operation, item, i);
    case Variables => r := VariablesNode.Process(client, operation, item);
  }

  /** `execute`: processes the items in order, as long as the run goes on,
      and returns the outputs the reference loop `Run` gives for the items'
      responses, or the error that aborted it. Processing stops right after
      the first failing item unless the node continues on failure. */
  method Execute(client: ApiClient, http: HttpHelper, apiKey: string, node: Node, operation: string,
                 items: seq<Item>, continueOnFail: bool)
    returns (out: Outcome<seq<Output>>, ghost replies: seq<Reply>, ghost logs: seq<Log>)
    requires client.ListingsEnd()
    modifies client, http
    ensures Steps(client, http, apiKey, node, operation, items, logs, replies)
    ensures logs[0] == Log(old(client.calls), old(http.sent)) && logs[|replies|] == Log(client.calls, http.sent)
    ensures out == Run(replies, continueOnFail)
    ensures out.Ok? ==> |replies| == |items|
    ensures |replies| < |items| ==> !continueOnFail && replies[|replies| - 1].Fail?
  {
    var returnData: seq<Output> := [];
    replies, logs := [], [Log(client.calls, http.sent)];
    var i := 0;
    while i < |items|
      invariant i == |replies| && Steps(client, http, apiKey, node, operation, items, logs, replies)
      invariant logs[0] == Log(old(client.calls), old(http.sent)) && logs[i] == Log(client.calls, http.sent)
      invariant Run(replies, continueOnFail) == Ok(returnData)
    {
      var r := ProcessItem(client, http, apiKey, node, operation, items[i], i);
      assert (replies + [r])[..i] == replies;
      StepsExtend(client, http, apiKey, node, operation, items, logs, replies, Log(client.calls, http.sent), r);
      replies, logs := replies + [r], logs + [Log(client.calls, http.sent)];
      if r.Fail? {
        if !continueOnFail {
          out := Fail(r.message);
          return;
        }
        returnData := returnData + [ErrorItem(r.message, i)];
      } else {
        returnData := returnData + Emit(r.value, i);
      }
      i := i + 1;
    }
    out := Ok(returnData);
  }
}
