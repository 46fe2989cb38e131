/** How a kops validation is judged: EvaluateKopsValidationResult of pkg/utils/kops_utils.go. */
module Validation {
  import opened Common

  datatype Failure = Failure(kind: string, message: string)

  datatype ConditionStatus = True | False | Unknown

  datatype Node = Node(hostname: string, status: ConditionStatus)

  datatype Report = Report(failures: seq<Failure>, nodes: seq<Node>)

  /** No failure outside of pods, and no node reported not ready; an unknown status passes. */
  predicate Healthy(report: Report) {
    && (forall i :: 0 <= i < |report.failures| ==> report.failures[i].kind == "Pod")
    && (forall i :: 0 <= i < |report.nodes| ==> report.nodes[i].status != False)
  }

  function NodeMessage(node: Node): string {
    "node " + node.hostname + " condition is False"
  }

  function FailureMessages(failures: seq<Failure>): seq<string> {
    if failures == [] then []
    else if failures[|failures| - 1].kind == "Pod" then FailureMessages(failures[..|failures| - 1])
    else FailureMessages(failures[..|failures| - 1]) + [failures[|failures| - 1].message]
  }

  function NodeMessages(nodes: seq<Node>): seq<string> {
    if nodes == [] then []
    else if nodes[|nodes| - 1].status != False then NodeMessages(nodes[..|nodes| - 1])
    else NodeMessages(nodes[..|nodes| - 1]) + [NodeMessage(nodes[|nodes| - 1])]
  }

  /** The verdict, with one message for every failure that counts, failures before nodes. */
  method EvaluateKopsValidationResult(report: Report) returns (healthy: bool, messages: seq<string>)
    ensures healthy == Healthy(report)
    ensures healthy <==>
      && (forall failure :: failure in report.failures ==> failure.kind == "Pod")
      && (forall node :: node in report.nodes ==> node.status.True? || node.status.Unknown?)
    ensures messages == FailureMessages(report.failures) + NodeMessages(report.nodes)
    ensures healthy <==> messages == []
  {
    healthy, messages := true, [];
    var i := 0;
    while i < |report.failures|
      invariant 0 <= i <= |report.failures|
      invariant messages == FailureMessages(report.failures[..i])
      invariant messages == [] <==> forall k :: 0 <= k < i ==> report.failures[k].kind == "Pod"
    {
      assert report.failures[..i + 1][..i] == report.failures[..i];
      if report.failures[i].kind != "Pod" {
        messages := messages + [report.failures[i].message];
      }
      i := i + 1;
    }
    assert report.failures[..i] == report.failures;
    ghost var first := messages;
    i := 0;
    while i < |report.nodes|
      invariant 0 <= i <= |report.nodes|
      invariant messages == first + NodeMessages(report.nodes[..i])
      invariant messages == [] <==> first == [] && forall k :: 0 <= k < i ==> report.nodes[k].status != False
    {
      assert report.nodes[..i + 1][..i] == report.nodes[..i];
      if report.nodes[i].status == False {
        messages := messages + [NodeMessage(report.nodes[i])];
      }
      i := i + 1;
    }
    assert report.nodes[..i] == report.nodes;
    if |messages| > 0 {
      healthy := false;
    }
  }

  // ---------------------------------------------------------------- what the messages are

  /** One message for every failure outside of pods, in their order: its own text. */
  lemma FailuresTold(failures: seq<Failure>) returns (at: seq<nat>)
    ensures Increasing(at) && |at| == |FailureMessages(failures)|
    ensures forall i :: 0 <= i < |at| ==>
      at[i] < |failures| && FailureMessages(failures)[i] == failures[at[i]].message
    ensures forall k: nat :: k < |failures| ==> (k in at <==> failures[k].kind != "Pod")
  {
    at := Positions(failures, (f: Failure) => f.kind != "Pod");
    PositionsAre(failures, (f: Failure) => f.kind != "Pod");
    FailurePositions(failures);
  }

  lemma {:induction false} FailurePositions(failures: seq<Failure>)
    ensures var at := Positions(failures, (f: Failure) => f.kind != "Pod");
            |at| == |FailureMessages(failures)| && forall i :: 0 <= i < |at| ==>
              at[i] < |failures| && FailureMessages(failures)[i] == failures[at[i]].message
  {
    if failures != [] {
      FailurePositions(failures[..|failures| - 1]);
    }
  }

  /** One message for every node that is reported not ready, in their order: its name. */
  lemma NodesTold(nodes: seq<Node>) returns (at: seq<nat>)
    ensures Increasing(at) && |at| == |NodeMessages(nodes)|
    ensures forall i :: 0 <= i < |at| ==>
      at[i] < |nodes| && NodeMessages(nodes)[i] == "node " + nodes[at[i]].hostname + " condition is False"
    ensures forall k: nat :: k < |nodes| ==> (k in at <==> nodes[k].status == False)
  {
    at := Positions(nodes, (n: Node) => n.status == False);
    PositionsAre(nodes, (n: Node) => n.status == False);
    NodePositions(nodes);
  }

  lemma {:induction false} NodePositions(nodes: seq<Node>)
    ensures var at := Positions(nodes, (n: Node) => n.status == False);
            |at| == |NodeMessages(nodes)| && forall i :: 0 <= i < |at| ==>
              at[i] < |nodes| && NodeMessages(nodes)[i] == NodeMessage(nodes[at[i]])
  {
    if nodes != [] {
      NodePositions(nodes[..|nodes| - 1]);
    }
  }
}
