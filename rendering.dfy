/** How Sultan.__str__ turns the buffer into one shell line: fragments
    with separators, a trailing ';', then the context's layers. */
module Rendering {
  import opened Outcomes
  import opened Text
  import opened Tokens
  import opened Contexts

  /** What goes before the i-th token: nothing before the first, a space
      before an operator or after one, "; " between two plain commands. */
  function Separator(ts: seq<Token>, i: nat): string
    requires i < |ts|
  {
    if i == 0 then ""
    else if IsOperator(ts[i]) then " "
    else if IsOperator(ts[i - 1]) then " "
    else "; "
  }

  /** The accumulated output before it is stripped. */
  function RawBody(ts: seq<Token>): string
    decreases |ts|
  {
    if ts == [] then ""
    else RawBody(ts[..|ts| - 1]) + Separator(ts, |ts| - 1) + Render(ts[|ts| - 1])
  }

  /** The body of a prefix grows by one separator and one fragment. */
  lemma RawBodyStep(ts: seq<Token>, i: nat)
    requires i < |ts|
    ensures RawBody(ts[..i + 1]) == RawBody(ts[..i]) + Separator(ts, i) + Render(ts[i])
  {
    assert ts[..i + 1][..i] == ts[..i];
  }

  /** An operator, and anything right after one, follows a single space. */
  lemma SpacedStep(ts: seq<Token>, t: Token)
    requires ts != [] && (IsOperator(t) || IsOperator(ts[|ts| - 1]))
    ensures RawBody(ts + [t]) == RawBody(ts) + " " + Render(t)
  {
    assert (ts + [t])[..|ts|] == ts;
  }

  function Body(ts: seq<Token>): string {
    Strip(RawBody(ts)) + ";"
  }

  function Renders(ts: seq<Token>): (r: seq<string>)
    ensures |r| == |ts|
    decreases |ts|
  {
    if ts == [] then [] else Renders(ts[..|ts| - 1]) + [Render(ts[|ts| - 1])]
  }

  /** Appending one token adds its separator and fragment at the end. */
  lemma AppendToken(ts: seq<Token>, t: Token)
    ensures ts == [] ==> RawBody(ts + [t]) == Render(t)
    ensures ts != [] && IsOperator(t) ==> RawBody(ts + [t]) == RawBody(ts) + " " + Render(t)
    ensures ts != [] && !IsOperator(t) && IsOperator(ts[|ts| - 1]) ==>
              RawBody(ts + [t]) == RawBody(ts) + " " + Render(t)
    ensures ts != [] && !IsOperator(t) && !IsOperator(ts[|ts| - 1]) ==>
              RawBody(ts + [t]) == RawBody(ts) + "; " + Render(t)
  {
    assert (ts + [t])[..|ts|] == ts;
  }

  /** Plain commands alone run one after the other, joined by "; ". */
  lemma {:induction false} PlainCommandsInSequence(ts: seq<Token>)
    requires forall i :: 0 <= i < |ts| ==> ts[i].Command?
    ensures RawBody(ts) == Join(Renders(ts), "; ")
    decreases |ts|
  {
    if |ts| > 1 {
      var init := ts[..|ts| - 1];
      PlainCommandsInSequence(init);
      assert Renders(ts)[..|ts| - 1] == Renders(init);
    }
  }

  /** When no two plain commands are adjacent every separator is one space. */
  lemma {:induction false} OperatorsJoinWithSpaces(ts: seq<Token>)
    requires forall i :: 0 < i < |ts| ==> IsOperator(ts[i]) || IsOperator(ts[i - 1])
    ensures RawBody(ts) == Join(Renders(ts), " ")
    decreases |ts|
  {
    if |ts| > 1 {
      var n := |ts| - 1;
      var init := ts[..n];
      assert forall i :: 0 < i < |init| ==> IsOperator(init[i]) || IsOperator(init[i - 1]) by {
        forall i | 0 < i < |init| ensures IsOperator(init[i]) || IsOperator(init[i - 1]) {
          assert init[i] == ts[i] && init[i - 1] == ts[i - 1];
        }
      }
      OperatorsJoinWithSpaces(init);
      assert IsOperator(ts[n]) || IsOperator(ts[n - 1]);
      assert Separator(ts, n) == " ";
      var rs := Renders(ts);
      assert rs[..n] == Renders(init);
      calc {
        RawBody(ts);
        RawBody(init) + Separator(ts, n) + Render(ts[n]);
        Join(Renders(init), " ") + " " + Render(ts[n]);
        Join(rs, " ");
      }
    }
  }

  /** One layer of context wrapping: text put before and after the line. */
  datatype Layer = Layer(prefix: string, suffix: string)

  function CdLayer(ctx: Context): seq<Layer> {
    if ctx.cwd != "" then [Layer("cd " + ctx.cwd + " && ", "")] else []
  }

  function SourceLayer(ctx: Context): seq<Layer> {
    if ctx.src != "" then [Layer("source " + ctx.src + " && ", "")] else []
  }

  /** Switch to another user with sudo su, switch as root with su, or run
      the line under sudo as the same user. */
  function SudoLayer(ctx: Context, invokingUser: string): seq<Layer> {
    if !ctx.sudo then []
    else if ctx.user != invokingUser then [Layer("sudo su - " + ctx.user + " -c '", "'")]
    else if invokingUser == "root" then [Layer("su - " + ctx.user + " -c '", "'")]
    else [Layer("sudo ", "")]
  }

  function SshLayer(ctx: Context): seq<Layer> {
    if ctx.hostname == "" then []
    else
      var options := if ctx.sshOptions != "" then " " + ctx.sshOptions + " " else " ";
      [Layer("ssh" + options + ctx.user + "@" + ctx.hostname + " '", "'")]
  }

  /** The layers, outermost first: ssh, sudo, source, cd. */
  function Layers(ctx: Context, invokingUser: string): seq<Layer> {
    SshLayer(ctx) + SudoLayer(ctx, invokingUser) + SourceLayer(ctx) + CdLayer(ctx)
  }

  function Enclose(ls: seq<Layer>, x: string): string
    decreases |ls|
  {
    if ls == [] then x else ls[0].prefix + Enclose(ls[1..], x) + ls[0].suffix
  }

  /** The rendered command line. */
  function Line(ts: seq<Token>, ctx: Context, invokingUser: string): string {
    Enclose(Layers(ctx, invokingUser), Body(ts))
  }

  lemma {:induction false} EncloseAppend(a: seq<Layer>, b: seq<Layer>, x: string)
    ensures Enclose(a + b, x) == Enclose(a, Enclose(b, x))
    decreases |a|
  {
    if a != [] {
      var ab := a + b;
      assert ab != [] && ab[0] == a[0];
      assert ab[1..] == a[1..] + b;
      EncloseAppend(a[1..], b, x);
      calc {
        Enclose(ab, x);
        a[0].prefix + Enclose(a[1..] + b, x) + a[0].suffix;
        a[0].prefix + Enclose(a[1..], Enclose(b, x)) + a[0].suffix;
        Enclose(a, Enclose(b, x));
      }
    } else {
      assert a + b == b;
    }
  }

  lemma EncloseFour(a: seq<Layer>, b: seq<Layer>, c: seq<Layer>, d: seq<Layer>, x: string)
    ensures Enclose(a + b + c + d, x) == Enclose(a, Enclose(b, Enclose(c, Enclose(d, x))))
  {
    EncloseAppend(a + b + c, d, x);
    EncloseAppend(a + b, c, Enclose(d, x));
    EncloseAppend(a, b, Enclose(c, Enclose(d, x)));
  }

  /** The line is built from the inside out: cd, source, sudo, then ssh. */
  lemma LayersInsideOut(ctx: Context, invokingUser: string, body: string)
    ensures Enclose(Layers(ctx, invokingUser), body)
         == Enclose(SshLayer(ctx), Enclose(SudoLayer(ctx, invokingUser), Enclose(SourceLayer(ctx), Enclose(CdLayer(ctx), body))))
  {
    EncloseFour(SshLayer(ctx), SudoLayer(ctx, invokingUser), SourceLayer(ctx), CdLayer(ctx), body);
  }

  lemma EncloseOne(l: Layer, x: string)
    ensures Enclose([l], x) == l.prefix + x + l.suffix
  {
    assert [l][1..] == [];
  }

  lemma CdStep(ctx: Context, x: string)
    ensures Enclose(CdLayer(ctx), x) == if ctx.cwd != "" then "cd " + ctx.cwd + " && " + x else x
  {
    if ctx.cwd != "" { EncloseOne(CdLayer(ctx)[0], x); }
  }

  lemma SourceStep(ctx: Context, x: string)
    ensures Enclose(SourceLayer(ctx), x) == if ctx.src != "" then "source " + ctx.src + " && " + x else x
  {
    if ctx.src != "" { EncloseOne(SourceLayer(ctx)[0], x); }
  }

  lemma SudoStep(ctx: Context, invokingUser: string, x: string)
    ensures Enclose(SudoLayer(ctx, invokingUser), x) ==
              if !ctx.sudo then x
              else if ctx.user != invokingUser then "sudo su - " + ctx.user + " -c '" + x + "'"
              else if invokingUser == "root" then "su - " + ctx.user + " -c '" + x + "'"
              else "sudo " + x
  {
    if ctx.sudo { EncloseOne(SudoLayer(ctx, invokingUser)[0], x); }
  }

  lemma SshStep(ctx: Context, x: string)
    ensures Enclose(SshLayer(ctx), x) ==
              if ctx.hostname == "" then x
              else "ssh" + (if ctx.sshOptions != "" then " " + ctx.sshOptions + " " else " ")
                   + ctx.user + "@" + ctx.hostname + " '" + x + "'"
  {
    if ctx.hostname != "" { EncloseOne(SshLayer(ctx)[0], x); }
  }

  /** Removes one layer's prefix and suffix, if they are there. */
  function Unwrap(l: Layer, s: string): Option<string> {
    if |l.prefix| + |l.suffix| <= |s| && s[..|l.prefix|] == l.prefix && s[|s| - |l.suffix|..] == l.suffix
    then Some(s[|l.prefix|..|s| - |l.suffix|])
    else None
  }

  /** Removes the layers from the outside in. */
  function Peel(ls: seq<Layer>, s: string): Option<string>
    decreases |ls|
  {
    if ls == [] then Some(s)
    else
      match Unwrap(ls[0], s)
      case None => None
      case Some(inner) => Peel(ls[1..], inner)
  }

  /** The layers nest without ambiguity: peeling them in order gives back
      exactly the line they enclosed. */
  lemma {:induction false} PeelEnclose(ls: seq<Layer>, x: string)
    ensures Peel(ls, Enclose(ls, x)) == Some(x)
    decreases |ls|
  {
    if ls != [] {
      var l, inner := ls[0], Enclose(ls[1..], x);
      var s := l.prefix + inner + l.suffix;
      assert s[..|l.prefix|] == l.prefix;
      assert s[|s| - |l.suffix|..] == l.suffix;
      assert s[|l.prefix|..|s| - |l.suffix|] == inner;
      PeelEnclose(ls[1..], x);
    }
  }

  /** Any rendered line gives back its body once its context's layers are
      peeled. */
  lemma LineRecoversBody(ts: seq<Token>, ctx: Context, invokingUser: string)
    ensures Peel(Layers(ctx, invokingUser), Line(ts, ctx, invokingUser)) == Some(Body(ts))
  {
    PeelEnclose(Layers(ctx, invokingUser), Body(ts));
  }

  /** Without sudo and ssh, source comes first and cd sits inside it. */
  lemma SourceThenCd(ctx: Context, invokingUser: string, body: string)
    requires !ctx.sudo && ctx.hostname == "" && ctx.src != "" && ctx.cwd != ""
    ensures Enclose(Layers(ctx, invokingUser), body) == "source " + ctx.src + " && cd " + ctx.cwd + " && " + body
  {
    LayersInsideOut(ctx, invokingUser, body);
    CdStep(ctx, body);
    var located := "cd " + ctx.cwd + " && " + body;
    SourceStep(ctx, located);
    SudoStep(ctx, invokingUser, "source " + ctx.src + " && " + located);
    SshStep(ctx, "source " + ctx.src + " && " + located);
  }

  /** With an empty context, and beyond that an empty buffer. */
  lemma EmptyContextLine(ts: seq<Token>, invokingUser: string)
    ensures Line(ts, EmptyContext, invokingUser) == Strip(RawBody(ts)) + ";"
    ensures Line([], EmptyContext, invokingUser) == ";"
  {
    assert Layers(EmptyContext, invokingUser) == [];
  }
}
