# pulumi-gitops kubeconfig and declaration chain, in Dafny

This project models the logic of `main.go` in the pulumi-gitops program,
which declares a GKE cluster. It covers two parts.

- `generateKubeconfig`. It derives the identifier `pulumi_<cluster name>`.
  It then formats a kubeconfig document around the cluster's CA certificate,
  its endpoint and six copies of that identifier. Both steps are
  `pulumi.Sprintf` calls over outputs that are not yet known.
- The declaration pass of `main`. It declares a service account, a cluster,
  a node pool, the `kubeconfig` export, a Kubernetes provider and a
  namespace, in that order. It returns the first error a declaration reports.

Three facts of the code shape the model:

- Empty inputs are not rejected. `generateKubeconfig` performs no check, so
  an empty value renders as an empty slot.
- The identifier fills six slots, `current-context` included
  (main.go:77-87).
- The namespace's error is returned like every other (main.go:60-62).

Files:

- `wrappers.dfy`: the `Option` type.
- `format.dfy`: `fmt.Sprintf` restricted to `%s` verbs with string
  operands. It also holds its inverse `Scan`, which reads the operands back
  from a rendered string, and the round-trip lemma linking the two.
- `outputs.dfy`: Pulumi outputs as `Deferred<T> = Pending | Resolved(value)`,
  with `All`, which combines outputs, `Map` (`ApplyT`), which reads one
  output's value, and `pulumi.Sprintf` built on `All`.
- `kubeconfig.dfy`: the identifier, the kubeconfig format string (one
  literal per source line), the pure document `Render`, its reader `Decode`,
  and the lifted `GenerateKubeconfig` that `main` calls.
- `program.dfy`: the six declarations and their dependency edges, the proof
  that the edges form an acyclic graph, and `Run`, a fold that stops at the
  first declaration the engine refuses.

## Model

| member | source | states |
|---|---|---|
| Kubeconfig.ContextName | main.go:70 | the identifier formatted by `"pulumi_%s"` is exactly `pulumi_` followed by the cluster name |
| Kubeconfig.ClusterNameOf | main.go:70 | an identifier gives back a cluster name exactly when it starts with `pulumi_`, and that name formats back to the identifier |
| Kubeconfig.ContextNameInjective | main.go:70 | distinct cluster names get distinct identifiers |
| Outputs.All | main.go:70-72 | combining outputs resolves exactly when every input has resolved, and then holds their values in order |
| Outputs.Sprintf | main.go:70-72 | a formatted output resolves exactly when all its operands have, and then holds the format applied to the operands' values, index by index |
| Kubeconfig.GenerateKubeconfig | main.go:68-98 | the generated kubeconfig resolves exactly when the endpoint, the name and the master-auth have all resolved, and it is then the pure document for the CA certificate, the endpoint and the name |
| Format.Scan | main.go:72-97 | any operand list read back from a string is one single-line operand per verb, and formatting it gives that string again |
| Format.ScanSprintf | main.go:72-97 | when every verb ends a line, reading a rendering with single-line operands gives back exactly those operands |
| Format.SprintfEnds | main.go:72-97 | a rendering starts with the format's leading text and ends with the last operand and the text after it |
| Kubeconfig.KubeconfigVerbsEndLines | main.go:72-95 | each `%s` in the kubeconfig format is the last thing on its line |
| Kubeconfig.RenderSlots | main.go:75-97 | the document's slots hold, in order, the CA certificate verbatim, the endpoint after `server: https://`, and `pulumi_<name>` in all six identifier positions: cluster name, context cluster, context user, context name, current-context and user name |
| Kubeconfig.FixedEnds | main.go:72-95 | for all inputs, the document opens with the fixed `apiVersion: v1` header and ends with the identifier followed by the fixed gcloud auth-provider block |
| Kubeconfig.Decode | main.go:72-97 | any string the reader accepts is exactly the document of the inputs it returns |
| Kubeconfig.DecodeRender | main.go:72-97 | the document of single-line inputs reads back to those inputs, so the document determines its inputs |
| Program.EdgesPointBackward | main.go:29-59 | every dependency edge of `main` goes from a declaration to an earlier one, and the explicit `DependsOn` goes from the provider to the cluster |
| Program.PathDescends | main.go:29-59 | along any path of backward edges, positions strictly decrease |
| Program.BackwardEdgesAcyclic | main.go:29-59 | edges that all point backward admit no cycle |
| Program.ProgramAcyclic | main.go:29-59 | the declaration graph of `main` is acyclic |
| Program.Run | main.go:14-64 | the registered declarations are the longest prefix of the plan the engine accepts; the run returns no error exactly when it registers the whole plan, and otherwise the error of the first refused declaration |
| Program.RunRespectsEdges | main.go:14-64 | every dependency edge points to an earlier declaration, and whatever the engine refuses, each dependency of a registered declaration is itself registered, at its own position in the plan |
| Program.ExportMatchesProvider | main.go:46-50 | the exported kubeconfig and the provider's kubeconfig are the same output, resolved exactly when the cluster's three outputs are |
| Program.ClusterRefusedStopsRun | main.go:14-28 | when the cluster is refused, `main` returns its error with only the service account declared |

## Left out

- Creating the service account, cluster, node pool, provider and namespace.
  These are calls into the GCP and Kubernetes SDKs with remote effects. Each
  is modelled as a declaration that either registers or returns the error
  given for it in `refusals`.
- The Pulumi engine (`pulumi.Run`): scheduling, state, diffing, and how
  `ctx.Export` stores outputs. The export is a declaration that cannot fail,
  because `ctx.Export` returns no error.
- Secret-ness and dependency tracking inside Pulumi outputs. `Deferred`
  keeps only "pending or resolved". Dependencies are stated by the edge set.
- The nil-pointer behaviour of `.Elem()` on the CA certificate pointer
  (main.go:96), which belongs to the SDK. `MasterAuth` keeps only the CA
  certificate, the one field the generator reads.
- YAML parsing and validity of the document. No parser is modelled.
- Splitting the document into its 24 lines is not proved. `RenderSlots`,
  `FixedEnds` and the round trip state the fixed text and the slots instead.
- Helm chart installation and the `apiVersion` rewrite transformation. They
  do not appear in `main.go`, so nothing is modelled for them.
- Outputs.Sprintf: requires one operand per `%s`. Go's `fmt` instead writes
  `%!s(MISSING)` or `%!(EXTRA …)` on a mismatch. Both calls in `main.go`
  pass exactly as many operands as verbs.
- Kubeconfig.DecodeRender: holds only for inputs without a newline. An
  operand containing a newline makes the document ambiguous to read back.
- Kubeconfig.RenderSlots: holds only for inputs without a newline, for the
  same reason.
