/** The text of the proxy auto-config (PAC) scripts the extension
    generates, and a small syntax of their `if` conditions.

    The browser evaluates `dnsDomainIs` and `shExpMatch`; their semantics is
    not modelled. `Eval` takes the outcome of each call as a parameter, so
    what a condition means is stated for every possible outcome. */
module Pac {
  import opened Text

  /** A call on the requested host. */
  datatype PacTest = DnsDomainIs(domain: string) | ShExpMatch(pattern: string)

  /** A condition built from calls with `!`, `||` and `&&`. */
  datatype PacCond =
    | Test(test: PacTest)
    | Not(negated: PacTest)
    | Or(left: PacCond, right: PacCond)
    | And(left: PacCond, right: PacCond)

  function CallText(t: PacTest): string
  {
    match t
    case DnsDomainIs(d) => "dnsDomainIs(host, \"" + d + "\")"
    case ShExpMatch(p) => "shExpMatch(host, \"" + p + "\")"
  }

  /** JavaScript source text of a condition. `&&` binds tighter than `||`,
      so only a disjunction under a conjunction needs parentheses. */
  function Render(c: PacCond): string
  {
    match c
    case Test(t) => CallText(t)
    case Not(t) => "!" + CallText(t)
    case Or(l, r) => Render(l) + " || " + Render(r)
    case And(l, r) =>
      (if l.Or? then "(" + Render(l) + ")" else Render(l)) + " && "
      + (if r.Or? then "(" + Render(r) + ")" else Render(r))
  }

  /** Truth of a condition, given the outcome `holds` of every call. */
  predicate Eval(c: PacCond, holds: PacTest -> bool)
  {
    match c
    case Test(t) => holds(t)
    case Not(t) => !holds(t)
    case Or(l, r) => Eval(l, holds) || Eval(r, holds)
    case And(l, r) => Eval(l, holds) && Eval(r, holds)
  }

  /** `t1 || t2 || ...`, in list order. */
  function AnyOf(ts: seq<PacTest>): PacCond
    requires |ts| > 0
  {
    if |ts| == 1 then Test(ts[0]) else Or(Test(ts[0]), AnyOf(ts[1..]))
  }

  /** `!t1 && !t2 && ...`, in list order. */
  function NoneOf(ts: seq<PacTest>): PacCond
    requires |ts| > 0
  {
    if |ts| == 1 then Not(ts[0]) else And(Not(ts[0]), NoneOf(ts[1..]))
  }

  /** The call text of every test, in order. */
  function Calls(ts: seq<PacTest>): (r: seq<string>)
    ensures |r| == |ts|
  {
    if |ts| == 0 then [] else [CallText(ts[0])] + Calls(ts[1..])
  }

  /** The negated call text of every test, in order. */
  function NegatedCalls(ts: seq<PacTest>): (r: seq<string>)
    ensures |r| == |ts|
  {
    if |ts| == 0 then [] else ["!" + CallText(ts[0])] + NegatedCalls(ts[1..])
  }

  /** Joining the calls with " || " is the text of their disjunction. */
  lemma {:induction false} RenderAnyOf(ts: seq<PacTest>)
    requires |ts| > 0
    ensures Render(AnyOf(ts)) == Join(" || ", Calls(ts))
  {
    if |ts| > 1 {
      RenderAnyOf(ts[1..]);
      assert Calls(ts)[1..] == Calls(ts[1..]);
    }
  }

  /** Joining the negated calls with " && " is the text of the conjunction
      of their negations. */
  lemma {:induction false} RenderNoneOf(ts: seq<PacTest>)
    requires |ts| > 0
    ensures Render(NoneOf(ts)) == Join(" && ", NegatedCalls(ts))
  {
    if |ts| > 1 {
      RenderNoneOf(ts[1..]);
      assert NegatedCalls(ts)[1..] == NegatedCalls(ts[1..]);
    }
  }

  /** A disjunction of calls holds exactly when one of the calls holds. */
  lemma {:induction false} EvalAnyOf(ts: seq<PacTest>, holds: PacTest -> bool)
    requires |ts| > 0
    ensures Eval(AnyOf(ts), holds) <==> exists i :: 0 <= i < |ts| && holds(ts[i])
  {
    if |ts| > 1 {
      EvalAnyOf(ts[1..], holds);
      if exists i :: 0 <= i < |ts| && holds(ts[i]) {
        var i :| 0 <= i < |ts| && holds(ts[i]);
        if i > 0 { assert holds(ts[1..][i - 1]); }
      }
      if exists j :: 0 <= j < |ts[1..]| && holds(ts[1..][j]) {
        var j :| 0 <= j < |ts[1..]| && holds(ts[1..][j]);
        assert holds(ts[j + 1]);
      }
    }
  }

  /** A conjunction of negated calls holds exactly when no call holds. */
  lemma {:induction false} EvalNoneOf(ts: seq<PacTest>, holds: PacTest -> bool)
    requires |ts| > 0
    ensures Eval(NoneOf(ts), holds) <==> forall i :: 0 <= i < |ts| ==> !holds(ts[i])
  {
    if |ts| > 1 {
      EvalNoneOf(ts[1..], holds);
      if !Eval(NoneOf(ts), holds) && !holds(ts[0]) {
        var j :| 0 <= j < |ts[1..]| && holds(ts[1..][j]);
        assert holds(ts[j + 1]);
      }
    }
  }

  /** Every rendered condition ends with a closing parenthesis; in
      particular no condition renders as text ending in " || ". */
  lemma {:induction false} RenderEndsWithParen(c: PacCond)
    ensures |Render(c)| > 0 && Render(c)[|Render(c)| - 1] == ')'
  {
    match c
    case Test(_) =>
    case Not(_) =>
    case Or(l, r) => RenderEndsWithParen(r);
    case And(l, r) => RenderEndsWithParen(r);
  }

  // ---------------------------------------------------------------------
  // The script text

  const Head: string := "function FindProxyForURL(url, host){"
  const IfOpen: string := "    if ("
  const IfClose: string := "){"
  const ReturnOpen: string := "      return \""
  const ReturnClose: string := "\";"
  const BlockClose: string := "    }"
  const DirectLine: string := "    return \"DIRECT\";"
  const FunctionClose: string := "  }"

  /** The six lines of a script that returns `directive` when `cond` holds
      and "DIRECT" otherwise. */
  function ScriptLines(cond: string, directive: string): seq<string>
  {
    [Head, IfOpen + cond + IfClose, ReturnOpen + directive + ReturnClose,
     BlockClose, DirectLine, FunctionClose]
  }

  /** The script as the template literal writes it, over six lines. */
  function Template(cond: string, directive: string): string
  {
    Join("\n", ScriptLines(cond, directive))
  }

  /** The same script on one line. */
  function ScriptText(cond: string, directive: string): string
  {
    Concat(ScriptLines(cond, directive))
  }

  /** Removing the line feeds of the template gives the one-line script over
      the condition and directive with their own line feeds removed. */
  lemma OneLine(cond: string, directive: string)
    ensures StripNewlines(Template(cond, directive))
         == ScriptText(StripNewlines(cond), StripNewlines(directive))
  {
    OneLineOf(Head, IfOpen, IfClose, ReturnOpen, ReturnClose, BlockClose, DirectLine, FunctionClose,
              cond, directive);
  }

  /** `OneLine` for any fixed pieces free of line feeds. */
  lemma OneLineOf(h: string, io: string, ic: string, ro: string, rc: string, bc: string, dl: string,
                  fc: string, cond: string, directive: string)
    requires '\n' !in h && '\n' !in io && '\n' !in ic && '\n' !in ro && '\n' !in rc
    requires '\n' !in bc && '\n' !in dl && '\n' !in fc
    ensures StripNewlines(Join("\n", [h, io + cond + ic, ro + directive + rc, bc, dl, fc]))
         == Concat([h, io + StripNewlines(cond) + ic, ro + StripNewlines(directive) + rc, bc, dl, fc])
  {
    StripNewlinesNoop(h);
    StripNewlinesNoop(bc);
    StripNewlinesNoop(dl);
    StripNewlinesNoop(fc);
    StripBetween(io, cond, ic);
    StripBetween(ro, directive, rc);
    var lines := [h, io + cond + ic, ro + directive + rc, bc, dl, fc];
    StripJoinLines(lines);
    assert StripAll(lines)
        == [h, io + StripNewlines(cond) + ic, ro + StripNewlines(directive) + rc, bc, dl, fc];
  }

  lemma StripBetween(a: string, x: string, b: string)
    requires '\n' !in a && '\n' !in b
    ensures StripNewlines(a + x + b) == a + StripNewlines(x) + b
  {
    StripNewlinesConcat(a + x, b);
    StripNewlinesConcat(a, x);
    StripNewlinesNoop(a);
    StripNewlinesNoop(b);
  }

  function Concat(parts: seq<string>): string
  {
    if |parts| == 0 then "" else parts[0] + Concat(parts[1..])
  }

  function StripAll(parts: seq<string>): (r: seq<string>)
    ensures |r| == |parts|
    ensures forall i :: 0 <= i < |parts| ==> r[i] == StripNewlines(parts[i])
  {
    if |parts| == 0 then [] else [StripNewlines(parts[0])] + StripAll(parts[1..])
  }

  /** Removing the line feeds of lines joined by line feeds concatenates the
      lines with their own line feeds removed. */
  lemma {:induction false} StripJoinLines(lines: seq<string>)
    ensures StripNewlines(Join("\n", lines)) == Concat(StripAll(lines))
  {
    if |lines| == 1 {
      assert StripAll(lines)[1..] == [];
    } else if |lines| > 1 {
      StripJoinLines(lines[1..]);
      StripNewlinesConcat(lines[0] + "\n", Join("\n", lines[1..]));
      StripNewlinesConcat(lines[0], "\n");
      assert StripNewlines("\n") == "";
      assert StripAll(lines)[1..] == StripAll(lines[1..]);
    }
  }
}
