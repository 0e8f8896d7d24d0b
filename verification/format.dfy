/**
 * Go's `fmt.Sprintf` restricted to what the kubeconfig generator uses: a
 * format string whose only verbs are `%s`, each consuming one string operand.
 *
 * A format is kept as its literal text cut at the verbs: `lead`, then for
 * every verb the literal that follows it. `"pulumi_%s"` is
 * `Template("pulumi_", [""])`, so the number of verbs is `|trails|`.
 *
 * `Scan` reads a rendered string back into its operands. It is the partner
 * of `Sprintf`: every string it accepts is a rendering of what it returns,
 * and when every verb ends a line it recovers the operands of any rendering
 * whose operands are single lines.
 */
module Format {
  import opened Wrappers

  datatype Template = Template(lead: string, trails: seq<string>)

  /** Operands placed after their verbs, each followed by its trailing literal. */
  function Interleave(args: seq<string>, trails: seq<string>): string
    requires |args| == |trails|
  {
    if |args| == 0 then "" else args[0] + trails[0] + Interleave(args[1..], trails[1..])
  }

  /** `fmt.Sprintf` of template `t` with one string operand per `%s` verb. */
  function Sprintf(t: Template, args: seq<string>): string
    requires |args| == |t.trails|
  {
    t.lead + Interleave(args, t.trails)
  }

  /** A value that fits on one line of a line-oriented document. */
  predicate SingleLine(s: string) {
    forall i :: 0 <= i < |s| ==> s[i] != '\n'
  }

  predicate AllSingleLine(ss: seq<string>) {
    forall i :: 0 <= i < |ss| ==> SingleLine(ss[i])
  }

  /** The literal after a verb starts a new line, or, for the last verb, is empty. */
  predicate EndsLine(trails: seq<string>, i: int)
    requires 0 <= i < |trails|
  {
    || (|trails[i]| > 0 && trails[i][0] == '\n')
    || (i == |trails| - 1 && trails[i] == "")
  }

  /** Every `%s` verb of `t` is the last thing on its line. */
  predicate VerbsEndLines(t: Template) {
    forall i :: 0 <= i < |t.trails| ==> EndsLine(t.trails, i)
  }

  /** Length of the first line of `s`: the index of its first newline, or `|s|`. */
  function LineLength(s: string): (n: nat)
    ensures n <= |s|
    ensures forall i :: 0 <= i < n ==> s[i] != '\n'
    ensures n < |s| ==> s[n] == '\n'
  {
    if |s| == 0 || s[0] == '\n' then 0
    else 1 + LineLength(s[1..])
  }

  /** The first line of a string holds no line break. */
  lemma FirstLineSingle(s: string)
    ensures SingleLine(s[..LineLength(s)])
  {
    var n := LineLength(s);
    assert forall i :: 0 <= i < n ==> s[..n][i] == s[i];
  }

  /** Prepending a single-line operand keeps an operand list single-line. */
  lemma SingleLineCons(op: string, ops: seq<string>)
    requires SingleLine(op) && AllSingleLine(ops)
    ensures AllSingleLine([op] + ops)
  {
    assert forall i :: 1 <= i < |ops| + 1 ==> ([op] + ops)[i] == ops[i - 1];
  }

  /** One step of `ScanTrails`: the first line, then the rest read back. */
  lemma ScanStep(s: string, trails: seq<string>, ops: seq<string>)
    requires |trails| > 0 && |ops| + 1 == |trails| && AllSingleLine(ops)
    requires trails[0] <= s[LineLength(s)..]
    requires Interleave(ops, trails[1..]) == s[LineLength(s)..][|trails[0]|..]
    ensures AllSingleLine([s[..LineLength(s)]] + ops)
    ensures Interleave([s[..LineLength(s)]] + ops, trails) == s
  {
    var n := LineLength(s);
    FirstLineSingle(s);
    SingleLineCons(s[..n], ops);
    ScanStepText(s, n, trails, ops);
  }

  /** The text half of `ScanStep`, for any cut point `n`. */
  lemma ScanStepText(s: string, n: nat, trails: seq<string>, ops: seq<string>)
    requires n <= |s| && |trails| > 0 && |ops| + 1 == |trails|
    requires trails[0] <= s[n..]
    requires Interleave(ops, trails[1..]) == s[n..][|trails[0]|..]
    ensures Interleave([s[..n]] + ops, trails) == s
  {
    var a, rest, b, c := s[..n], s[n..], trails[0], Interleave(ops, trails[1..]);
    InterleaveCons(a, ops, trails);
    assert rest == b + c;
    assert a + b + c == a + (b + c);
  }

  /** Reads the operands of `Interleave(_, trails)` back from `s`. */
  function ScanTrails(trails: seq<string>, s: string): (r: Option<seq<string>>)
    ensures r.Some? ==> |r.value| == |trails| && AllSingleLine(r.value)
    ensures r.Some? ==> Interleave(r.value, trails) == s
  {
    if |trails| == 0 then
      if s == "" then Some([]) else None
    else
      var n := LineLength(s);
      var operand, rest := s[..n], s[n..];
      if trails[0] <= rest then
        var after := rest[|trails[0]|..];
        match ScanTrails(trails[1..], after)
        case None => None
        case Some(ops) =>
          ScanStep(s, trails, ops);
          Some([operand] + ops)
      else None
  }

  /**
   * Reads the operands of a rendering of `t` back from `s`: `None` when `s`
   * does not carry `t`'s literal text around single-line operands.
   */
  function Scan(t: Template, s: string): (r: Option<seq<string>>)
    ensures r.Some? ==> |r.value| == |t.trails| && AllSingleLine(r.value)
    ensures r.Some? ==> Sprintf(t, r.value) == s
  {
    if t.lead <= s then
      assert s == t.lead + s[|t.lead|..];
      ScanTrails(t.trails, s[|t.lead|..])
    else None
  }

  /** Unfolds `Interleave` at its first operand. */
  lemma InterleaveCons(op: string, ops: seq<string>, trails: seq<string>)
    requires |ops| + 1 == |trails|
    ensures Interleave([op] + ops, trails) == op + trails[0] + Interleave(ops, trails[1..])
  {
    assert ([op] + ops)[1..] == ops;
  }

  /** A single-line prefix followed by a line break or the end is the whole first line. */
  lemma LineLengthOfLine(a: string, rest: string)
    requires SingleLine(a)
    requires rest == "" || rest[0] == '\n'
    ensures LineLength(a + rest) == |a|
  {
    var s := a + rest;
    assert forall i :: 0 <= i < |a| ==> s[i] == a[i];
    if rest != "" {
      assert s[|a|] == rest[0];
    }
  }

  /** `ScanTrails` undoes `Interleave` when every verb ends a line and the operands are single lines. */
  lemma {:induction false} ScanTrailsInterleave(args: seq<string>, trails: seq<string>)
    requires |args| == |trails|
    requires AllSingleLine(args)
    requires forall i :: 0 <= i < |trails| ==> EndsLine(trails, i)
    ensures ScanTrails(trails, Interleave(args, trails)) == Some(args)
  {
    if |args| > 0 {
      var a, ops := args[0], args[1..];
      var tail := Interleave(ops, trails[1..]);
      var rest := trails[0] + tail;
      var s := Interleave(args, trails);
      assert args == [a] + ops;
      InterleaveCons(a, ops, trails);
      assert a + trails[0] + tail == a + (trails[0] + tail);
      assert s == a + rest;
      DropFirstVerb(args, trails);
      ScanTrailsInterleave(ops, trails[1..]);
      assert SingleLine(a);
      assert rest == "" || rest[0] == '\n' by {
        assert EndsLine(trails, 0);
        if |trails[0]| > 0 {
          assert rest[0] == trails[0][0];
        }
      }
      LineLengthOfLine(a, rest);
      assert s[..|a|] == a && s[|a|..] == rest;
      assert rest[|trails[0]|..] == tail;
    }
  }

  /** The preconditions of `ScanTrailsInterleave` carry over past the first verb. */
  lemma DropFirstVerb(args: seq<string>, trails: seq<string>)
    requires |args| == |trails| > 0
    requires AllSingleLine(args)
    requires forall i :: 0 <= i < |trails| ==> EndsLine(trails, i)
    ensures AllSingleLine(args[1..])
    ensures forall i :: 0 <= i < |trails[1..]| ==> EndsLine(trails[1..], i)
  {
    forall i | 0 <= i < |trails[1..]| ensures EndsLine(trails[1..], i) {
      assert EndsLine(trails, i + 1);
    }
    forall i | 0 <= i < |args[1..]| ensures SingleLine(args[1..][i]) {
      assert args[1..][i] == args[i + 1];
    }
  }

  /**
   * Round trip: when every verb ends a line, scanning a rendering whose
   * operands are single lines gives back exactly those operands.
   */
  lemma ScanSprintf(t: Template, args: seq<string>)
    requires |args| == |t.trails|
    requires VerbsEndLines(t)
    requires AllSingleLine(args)
    ensures Scan(t, Sprintf(t, args)) == Some(args)
  {
    var s := Sprintf(t, args);
    assert s[|t.lead|..] == Interleave(args, t.trails);
    ScanTrailsInterleave(args, t.trails);
  }

  /** The last operand and the literal after it close every rendering. */
  lemma {:induction false} InterleaveLast(args: seq<string>, trails: seq<string>)
    requires |args| == |trails| > 0
    ensures
      var k := |args| - 1;
      Interleave(args, trails) == Interleave(args[..k], trails[..k]) + args[k] + trails[k]
  {
    var k := |args| - 1;
    if k > 0 {
      InterleaveLast(args[1..], trails[1..]);
      assert args[1..][..k - 1] == args[..k][1..];
      assert trails[1..][..k - 1] == trails[..k][1..];
      assert args[1..][k - 1] == args[k];
      assert trails[1..][k - 1] == trails[k];
    }
  }

  /** A rendering opens with the lead and closes with the last operand and the literal after it. */
  lemma SprintfEnds(t: Template, args: seq<string>)
    requires |args| == |t.trails| > 0
    ensures t.lead <= Sprintf(t, args)
    ensures
      var d, k := Sprintf(t, args), |args| - 1;
      var tail := args[k] + t.trails[k];
      |tail| <= |d| && d[|d| - |tail|..] == tail
  {
    var k := |args| - 1;
    InterleaveLast(args, t.trails);
    var front := t.lead + Interleave(args[..k], t.trails[..k]);
    var tail := args[k] + t.trails[k];
    assert Sprintf(t, args) == front + tail;
  }
}
