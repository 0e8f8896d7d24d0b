/**
 * `generateKubeconfig`: the client credential document derived from a
 * cluster's endpoint, name and master-auth bundle. One identifier, the
 * cluster name behind a fixed prefix, keys the cluster, context and user
 * entries and the current-context pointer; the user entry carries a fixed
 * gcloud credential-helper recipe rather than a token.
 */
module Kubeconfig {
  import opened Wrappers
  import opened Format
  import Outputs

  /** The prefix that turns a cluster name into the kubeconfig identifier. */
  const Prefix: string := "pulumi_"

  /** `"pulumi_%s"`. */
  const ContextFormat: Template := Template(Prefix, [""])

  /** The fixed text before the first slot: the document header and the cluster entry's opening. */
  const Header: string :=
    "apiVersion: v1"
    + "\nclusters:"
    + "\n- cluster:"
    + "\n    certificate-authority-data: "

  /** The fixed text after the last slot: the user's gcloud credential-helper recipe. */
  const UserAuthProvider: string :=
    "\n  user:"
    + "\n    auth-provider:"
    + "\n      config:"
    + "\n        cmd-args: config config-helper --format=json"
    + "\n        cmd-path: gcloud"
    + "\n        expiry-key: '{.credential.token_expiry}'"
    + "\n        token-key: '{.credential.access_token}'"
    + "\n      name: gcp"

  /**
   * The kubeconfig format string, one literal per source line. Its eight
   * `%s` verbs take, in order: the CA certificate, the endpoint, and the
   * identifier for the cluster name, the context's cluster and user, the
   * context name, `current-context` and the user name.
   */
  const KubeconfigFormat: Template := Template(
    Header,
    [ "\n    server: https://",
      "\n  name: ",
      "\ncontexts:"
      + "\n- context:"
      + "\n    cluster: ",
      "\n    user: ",
      "\n  name: ",
      "\ncurrent-context: ",
      "\nkind: Config"
      + "\npreferences: {}"
      + "\nusers:"
      + "\n- name: ",
      UserAuthProvider
    ])

  /** The part of the cluster's master-auth bundle the generator reads. */
  datatype MasterAuth = MasterAuth(clusterCaCertificate: string)

  /** The resolved values the document is built from. */
  datatype Inputs = Inputs(caCertificate: string, endpoint: string, clusterName: string)

  /** The identifier that keys every section: `Sprintf("pulumi_%s", clusterName)`. */
  function ContextName(clusterName: string): (id: string)
    ensures id == Prefix + clusterName
  {
    var args := [clusterName];
    assert Interleave(args, ContextFormat.trails) == clusterName + "" + Interleave([], []);
    Sprintf(ContextFormat, args)
  }

  /** Inverse of `ContextName`: the cluster name behind an identifier, if it has the prefix. */
  function ClusterNameOf(id: string): (r: Option<string>)
    ensures r.Some? <==> Prefix <= id
    ensures r.Some? ==> ContextName(r.value) == id
  {
    if Prefix <= id then
      assert id == Prefix + id[|Prefix|..];
      Some(id[|Prefix|..])
    else None
  }

  /**
   * The operand list of the kubeconfig `Sprintf`: the CA certificate, the
   * endpoint, then the identifier six times.
   */
  function Operands(ca: string, endpoint: string, id: string): seq<string> {
    [ca, endpoint, id, id, id, id, id, id]
  }

  /** The document for resolved inputs. */
  function Render(x: Inputs): string {
    Sprintf(KubeconfigFormat, Operands(x.caCertificate, x.endpoint, ContextName(x.clusterName)))
  }

  /**
   * Reads a document back into the inputs it was rendered from: `None` unless
   * the fixed text is intact, the six identifier slots agree and the
   * identifier carries the prefix.
   */
  function Decode(doc: string): (r: Option<Inputs>)
    ensures r.Some? ==> Render(r.value) == doc
  {
    match Scan(KubeconfigFormat, doc)
    case None => None
    case Some(ops) =>
      var id := ops[2];
      if ops == Operands(ops[0], ops[1], id) then
        match ClusterNameOf(id)
        case None => None
        case Some(name) => Some(Inputs(ops[0], ops[1], name))
      else None
  }

  /** The identifier for cluster name `n` determines `n`. */
  lemma ContextNameInjective(a: string, b: string)
    requires ContextName(a) == ContextName(b)
    ensures a == b
  {
    assert a == ContextName(a)[|Prefix|..];
  }

  /** Every `%s` of the kubeconfig format ends its line. */
  lemma KubeconfigVerbsEndLines()
    ensures VerbsEndLines(KubeconfigFormat)
  {
  }

  /**
   * Reading the document's slots back gives the CA certificate, the
   * endpoint and the one identifier in all six identifier positions.
   */
  lemma RenderSlots(x: Inputs)
    requires SingleLine(x.caCertificate) && SingleLine(x.endpoint) && SingleLine(x.clusterName)
    ensures Scan(KubeconfigFormat, Render(x))
         == Some(Operands(x.caCertificate, x.endpoint, Prefix + x.clusterName))
  {
    var ops := Operands(x.caCertificate, x.endpoint, ContextName(x.clusterName));
    KubeconfigVerbsEndLines();
    ScanSprintf(KubeconfigFormat, ops);
  }

  /**
   * Whatever the inputs, the document opens with the fixed header and closes
   * with the identifier followed by the fixed auth-provider block.
   */
  lemma FixedEnds(x: Inputs)
    ensures Header <= Render(x)
    ensures
      var d := Render(x);
      var tail := ContextName(x.clusterName) + UserAuthProvider;
      |tail| <= |d| && d[|d| - |tail|..] == tail
  {
    SprintfEnds(KubeconfigFormat, Operands(x.caCertificate, x.endpoint, ContextName(x.clusterName)));
  }

  /** Round trip: a document decodes to the single-line inputs it was rendered from. */
  lemma DecodeRender(x: Inputs)
    requires SingleLine(x.caCertificate) && SingleLine(x.endpoint) && SingleLine(x.clusterName)
    ensures Decode(Render(x)) == Some(x)
  {
    RenderSlots(x);
    assert (Prefix + x.clusterName)[|Prefix|..] == x.clusterName;
  }

  /**
   * `generateKubeconfig` over the cluster's outputs: the identifier output
   * is formatted from the name, and the document from the CA certificate,
   * the endpoint and six copies of the identifier. Nothing waits; the result
   * resolves when its inputs do.
   */
  function GenerateKubeconfig(
    endpoint: Outputs.Deferred<string>,
    clusterName: Outputs.Deferred<string>,
    masterAuth: Outputs.Deferred<MasterAuth>
  ): (r: Outputs.Deferred<string>)
    ensures r.Resolved? <==> endpoint.Resolved? && clusterName.Resolved? && masterAuth.Resolved?
    ensures r.Resolved? ==>
      r.value == Render(Inputs(masterAuth.value.clusterCaCertificate, endpoint.value, clusterName.value))
  {
    var context := Outputs.Sprintf(ContextFormat, [clusterName]);
    var ca := Outputs.Map(masterAuth, (a: MasterAuth) => a.clusterCaCertificate);
    var args := [ca, endpoint, context, context, context, context, context, context];
    var r := Outputs.Sprintf(KubeconfigFormat, args);
    assert r.Resolved? ==>
      && Outputs.All(args).value == Operands(ca.value, endpoint.value, context.value)
      && context.value == ContextName(clusterName.value)
    by {
      if r.Resolved? {
        assert args[0].Resolved? && args[1].Resolved? && args[2].Resolved?;
        assert Outputs.All([clusterName]).value == [clusterName.value];
      }
    }
    r
  }
}
