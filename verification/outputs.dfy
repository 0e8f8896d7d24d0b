/**
 * Pulumi outputs: values owned by a resource that are not known until the
 * engine has provisioned it. The program never reads one synchronously; it
 * only combines them into new outputs, which resolve once all their inputs
 * have.
 */
module Outputs {
  import Format

  datatype Deferred<+T> = Pending | Resolved(value: T)

  /** `Output.ApplyT` with a pure function: resolves with `d`. */
  function Map<A, B>(d: Deferred<A>, f: A -> B): Deferred<B> {
    match d
    case Pending => Pending
    case Resolved(v) => Resolved(f(v))
  }

  /**
   * `pulumi.All`: one output holding every value of `ds`, in order. It is
   * pending while any of them is.
   */
  function All<T>(ds: seq<Deferred<T>>): (r: Deferred<seq<T>>)
    ensures r.Resolved? <==> forall i :: 0 <= i < |ds| ==> ds[i].Resolved?
    ensures r.Resolved? ==> |r.value| == |ds|
    ensures r.Resolved? ==> forall i :: 0 <= i < |ds| ==> r.value[i] == ds[i].value
  {
    if |ds| == 0 then Resolved([])
    else
      match (ds[0], All(ds[1..]))
      case (Resolved(v), Resolved(vs)) =>
        assert forall i :: 1 <= i < |ds| ==> ds[i] == ds[1..][i - 1];
        Resolved([v] + vs)
      case _ =>
        Pending
  }

  /**
   * `pulumi.Sprintf`: formats the operands once all of them resolve,
   * without waiting for them.
   */
  function Sprintf(t: Format.Template, args: seq<Deferred<string>>): (r: Deferred<string>)
    requires |args| == |t.trails|
    ensures r.Resolved? <==> forall i :: 0 <= i < |args| ==> args[i].Resolved?
    ensures r.Resolved? ==>
      r.value == Format.Sprintf(t, seq(|args|, i requires 0 <= i < |args| && args[i].Resolved? => args[i].value))
  {
    match All(args)
    case Pending => Pending
    case Resolved(vs) =>
      assert vs == seq(|args|, i requires 0 <= i < |args| && args[i].Resolved? => args[i].value);
      Resolved(Format.Sprintf(t, vs))
  }
}
