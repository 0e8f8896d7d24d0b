/**
 * The declaration pass of `main`: six declarations made in a fixed order,
 * the dependency edges between them, and the early return on the first
 * declaration the engine refuses.
 *
 * Creating the cloud and cluster objects is the engine's business; here a
 * declaration either registers or fails with the engine's error message.
 */
module Program {
  import opened Wrappers
  import Outputs
  import Kubeconfig

  /** What each declaration asks for, with the constants `main` passes. */
  datatype Kind =
    | ServiceAccount(accountId: string, displayName: string)
    | Cluster(location: string, removeDefaultNodePool: bool, initialNodeCount: int)
    | NodePool(location: string, nodeCount: int, preemptible: bool, machineType: string, oauthScopes: seq<string>)
    | Export(value: Outputs.Deferred<string>)
    | Provider(kubeconfig: Outputs.Deferred<string>)
    | Namespace(metadataName: string)

  /** A declaration under its logical name; for the export, the name is the output key. */
  datatype Declaration = Declaration(name: string, kind: Kind)

  /** How a declaration comes to depend on another. */
  datatype Via =
    | Output(field: string)   // it consumes one of the other's outputs
    | DependsOn               // an explicit `pulumi.DependsOn` option
    | ProviderOption          // a `pulumi.Provider` option naming the other

  /** Declaration `from` cannot be created before declaration `to`. */
  datatype Edge = Edge(from: nat, to: nat, via: Via)

  /** The cluster's outputs that the kubeconfig is generated from. */
  datatype ClusterOutputs = ClusterOutputs(
    endpoint: Outputs.Deferred<string>,
    name: Outputs.Deferred<string>,
    masterAuth: Outputs.Deferred<Kubeconfig.MasterAuth>)

  /** Positions of the declarations in program order. */
  const DefaultSA: nat := 0
  const GitOps: nat := 1
  const NodePoolStep: nat := 2
  const KubeconfigExport: nat := 3
  const K8sProvider: nat := 4
  const TestNamespace: nat := 5

  /** The declarations of `main`, in order, for the cluster's outputs `c`. */
  function Plan(c: ClusterOutputs): seq<Declaration> {
    [ Declaration("_default", ServiceAccount("service-account-id", "Service Account")),
      Declaration("gitops", Cluster("us-east1", true, 1)),
      Declaration("gitops-reemptiblenodes",
        NodePool("us-east1", 1, true, "e2-medium", ["https://www.googleapis.com/auth/cloud-platform"])),
      Declaration("kubeconfig",
        Export(Kubeconfig.GenerateKubeconfig(c.endpoint, c.name, c.masterAuth))),
      Declaration("k8sprovider",
        Provider(Kubeconfig.GenerateKubeconfig(c.endpoint, c.name, c.masterAuth))),
      Declaration("pulumi-test", Namespace("pulumi-test-ns"))
    ]
  }

  /** The dependency edges of `main`, read off the arguments and options of each declaration. */
  const Edges: set<Edge> := {
    Edge(NodePoolStep, GitOps, Output("name")),
    Edge(NodePoolStep, DefaultSA, Output("email")),
    Edge(KubeconfigExport, GitOps, Output("endpoint")),
    Edge(KubeconfigExport, GitOps, Output("name")),
    Edge(KubeconfigExport, GitOps, Output("masterAuth")),
    Edge(K8sProvider, GitOps, Output("endpoint")),
    Edge(K8sProvider, GitOps, Output("name")),
    Edge(K8sProvider, GitOps, Output("masterAuth")),
    Edge(K8sProvider, GitOps, DependsOn),
    Edge(TestNamespace, K8sProvider, ProviderOption)
  }

  /** Every edge leaves a declaration of the plan and points to an earlier one. */
  predicate PointsBackward(n: nat, edges: set<Edge>) {
    forall e :: e in edges ==> e.to < e.from < n
  }

  ghost predicate Linked(edges: set<Edge>, a: nat, b: nat) {
    exists e :: e in edges && e.from == a && e.to == b
  }

  /** `p` follows edges from its first declaration to its last. */
  ghost predicate IsPath(edges: set<Edge>, p: seq<nat>) {
    forall i :: 0 <= i < |p| - 1 ==> Linked(edges, p[i], p[i + 1])
  }

  /** No path of one or more edges returns to where it started. */
  ghost predicate Acyclic(edges: set<Edge>) {
    forall p :: |p| >= 2 && IsPath(edges, p) ==> p[0] != p[|p| - 1]
  }

  /** The plan is a valid creation order for the edges of `main`. */
  lemma EdgesPointBackward(c: ClusterOutputs)
    ensures PointsBackward(|Plan(c)|, Edges)
    ensures forall e :: e in Edges && e.via.DependsOn? ==> Plan(c)[e.from].kind.Provider? && Plan(c)[e.to].kind.Cluster?
  {
  }

  /** Along a path of backward edges, positions strictly decrease. */
  lemma {:induction false} PathDescends(n: nat, edges: set<Edge>, p: seq<nat>)
    requires PointsBackward(n, edges)
    requires |p| >= 2 && IsPath(edges, p)
    ensures p[|p| - 1] < p[0]
  {
    assert Linked(edges, p[0], p[1]);
    if |p| > 2 {
      assert IsPath(edges, p[1..]) by {
        forall i | 0 <= i < |p[1..]| - 1 ensures Linked(edges, p[1..][i], p[1..][i + 1]) {
          assert Linked(edges, p[i + 1], p[i + 2]);
        }
      }
      PathDescends(n, edges, p[1..]);
    }
  }

  /** Backward edges form an acyclic graph. */
  lemma BackwardEdgesAcyclic(n: nat, edges: set<Edge>)
    requires PointsBackward(n, edges)
    ensures Acyclic(edges)
  {
    forall p | |p| >= 2 && IsPath(edges, p) ensures p[0] != p[|p| - 1] {
      PathDescends(n, edges, p);
    }
  }

  /** The declaration graph of `main` has no cycle. */
  lemma ProgramAcyclic()
    ensures Acyclic(Edges)
  {
    EdgesPointBackward(ClusterOutputs(Outputs.Pending, Outputs.Pending, Outputs.Pending));
    BackwardEdgesAcyclic(6, Edges);
  }

  /** The engine refuses `d`; the export step always succeeds. */
  predicate Refused(d: Declaration, refusals: map<string, string>) {
    !d.kind.Export? && d.name in refusals
  }

  /** The declarations registered, and the error `main` returns, if any. */
  datatype RunResult = RunResult(registered: seq<Declaration>, error: Option<string>)

  /**
   * Makes the declarations in order and stops at the first the engine
   * refuses, returning its error. `refusals` maps the logical name of each
   * declaration the engine would refuse to the error it reports.
   */
  function Run(plan: seq<Declaration>, refusals: map<string, string>): (r: RunResult)
    ensures r.registered <= plan
    ensures forall j :: 0 <= j < |r.registered| ==> !Refused(plan[j], refusals)
    ensures r.error.None? <==> r.registered == plan
    ensures r.error.Some? ==>
      var k := |r.registered|;
      k < |plan| && Refused(plan[k], refusals) && r.error.value == refusals[plan[k].name]
  {
    if |plan| == 0 then RunResult([], None)
    else if Refused(plan[0], refusals) then RunResult([], Some(refusals[plan[0].name]))
    else
      var rest := Run(plan[1..], refusals);
      assert forall j :: 1 <= j < |plan| ==> plan[j] == plan[1..][j - 1];
      RunResult([plan[0]] + rest.registered, rest.error)
  }

  /**
   * A declaration is only registered once every declaration it depends on
   * has been registered.
   */
  lemma RunRespectsEdges(c: ClusterOutputs, refusals: map<string, string>)
    ensures forall e :: e in Edges && e.from < |Run(Plan(c), refusals).registered| ==>
      && e.to < e.from
      && e.to < |Run(Plan(c), refusals).registered|
      && Run(Plan(c), refusals).registered[e.to] == Plan(c)[e.to]
  {
  }

  /**
   * The exported kubeconfig and the provider's kubeconfig are the same
   * output, resolved once the cluster's endpoint, name and master-auth are.
   */
  lemma ExportMatchesProvider(c: ClusterOutputs)
    ensures Plan(c)[KubeconfigExport].kind.value == Plan(c)[K8sProvider].kind.kubeconfig
    ensures Plan(c)[KubeconfigExport].kind.value.Resolved?
        <==> c.endpoint.Resolved? && c.name.Resolved? && c.masterAuth.Resolved?
  {
  }

  /**
   * When the engine refuses the cluster, `main` returns its error with only
   * the service account declared: no node pool, export, provider or namespace.
   */
  lemma ClusterRefusedStopsRun(c: ClusterOutputs, refusals: map<string, string>)
    requires "_default" !in refusals && "gitops" in refusals
    ensures Run(Plan(c), refusals) == RunResult(Plan(c)[..1], Some(refusals["gitops"]))
  {
  }
}
