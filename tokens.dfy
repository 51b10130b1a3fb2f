/** The pieces a command line is assembled from: plain commands, the pipe,
    and, or operators and redirections, each rendering itself to a
    fragment without looking at any context. */
module Tokens {
  import opened Outcomes
  import opened Text
  import opened Dicts

  /** Which streams a redirection sends to the file. */
  datatype Stream = Stdout | Stderr | Both

  datatype Token =
    | Command(name: string, args: seq<string>, options: Dict<string>)
    | PipeOp
    | AndOp
    | OrOp
    | RedirectOp(target: string, append: bool, stream: Stream)

  /** The tokens the source groups as SPECIAL_CASES: everything but a
      plain command. */
  predicate IsOperator(t: Token) {
    !t.Command?
  }

  /** One keyword option: a one-letter key gets one dash, any other two. */
  function Flag(key: string, value: string): string {
    (if |key| == 1 then "-" + key else "--" + key) + "=" + value
  }

  function Flags(options: Dict<string>): seq<string> {
    if options == [] then []
    else Flags(options[..|options| - 1]) + [Flag(options[|options| - 1].0, options[|options| - 1].1)]
  }

  function OptionsText(options: Dict<string>): string {
    Strip(Join(Flags(options), " "))
  }

  function ArgsText(args: seq<string>): string {
    Strip(Join(args, " "))
  }

  function Descriptor(s: Stream): string {
    match s
    case Both => "&"
    case Stdout => "1"
    case Stderr => "2"
  }

  /** The name, then the options text, then the arguments text, each of the
      latter two only when non-empty. */
  function CommandLayout(name: string, options: string, args: string): string {
    name + (if options != "" then " " + options else "") + (if args != "" then " " + args else "")
  }

  /** The fragment each token contributes to the command line. */
  function Render(t: Token): string {
    match t
    case Command(name, args, options) => CommandLayout(name, OptionsText(options), ArgsText(args))
    case PipeOp => "|"
    case AndOp => "&&"
    case OrOp => "||"
    case RedirectOp(target, append, s) =>
      Descriptor(s) + ">" + (if append then ">" else "") + " " + target
  }

  function NonEmpty(parts: seq<string>): (r: seq<string>)
    ensures forall p :: p in r <==> p in parts && p != ""
  {
    if parts == [] then []
    else if parts[0] == "" then NonEmpty(parts[1..])
    else [parts[0]] + NonEmpty(parts[1..])
  }

  /** A plain command is its name, its options and its positional
      arguments, in that order, the non-empty ones joined by single spaces. */
  lemma CommandSegments(name: string, args: seq<string>, options: Dict<string>)
    ensures Render(Command(name, args, options))
         == Join([name] + NonEmpty([OptionsText(options), ArgsText(args)]), " ")
  {
    LayoutSegments(name, OptionsText(options), ArgsText(args));
  }

  lemma LayoutSegments(name: string, o: string, a: string)
    ensures CommandLayout(name, o, a) == Join([name] + NonEmpty([o, a]), " ")
  {
    assert [o, a][1..] == [a];
    assert [a][1..] == [];
    assert NonEmpty([a]) == (if a == "" then [] else [a]);
    if o != "" && a != "" {
      assert NonEmpty([o, a]) == [o] + NonEmpty([a]) == [o, a];
      JoinCons(name, [o, a], " ");
      assert [o, a][..1] == [o];
      assert Join([o, a], " ") == o + " " + a;
    } else if o != "" {
      JoinCons(name, [o], " ");
    } else if a != "" {
      JoinCons(name, [a], " ");
    }
  }

  /** The loop of Command.__str__ that turns each keyword option, in
      insertion order, into its flag. */
  method OptionFlags(options: Dict<string>) returns (flags: seq<string>)
    ensures flags == Flags(options)
  {
    flags := [];
    var i := 0;
    while i < |options|
      invariant 0 <= i <= |options|
      invariant flags == Flags(options[..i])
    {
      assert options[..i + 1][..i] == options[..i];
      var k, v := options[i].0, options[i].1;
      var key := if |k| == 1 then "-" + k else "--" + k;
      flags := flags + [key + "=" + v];
      i := i + 1;
    }
    assert options[..i] == options;
  }

  /** Command.__str__: builds the flags, then lays out the name, the
      options and the arguments. */
  method CommandString(name: string, args: seq<string>, options: Dict<string>) returns (output: string)
    ensures output == Render(Command(name, args, options))
  {
    var argsText := Strip(Join(args, " "));
    var flags := OptionFlags(options);
    var optionsText := Strip(Join(flags, " "));
    output := CommandLayout(name, optionsText, argsText);
  }

  /** Splits at the first '='. */
  function SplitAtEquals(s: string): Option<(string, string)> {
    if s == [] then None
    else if s[0] == '=' then Some(("", s[1..]))
    else
      match SplitAtEquals(s[1..])
      case Some((k, v)) => Some(([s[0]] + k, v))
      case None => None
  }

  /** Reads a key and value back from a rendered option. */
  function ParseFlag(f: string): Option<(string, string)> {
    if |f| >= 2 && f[0] == '-' && f[1] == '-' then SplitAtEquals(f[2..])
    else if |f| >= 1 && f[0] == '-' then SplitAtEquals(f[1..])
    else None
  }

  lemma {:induction false} SplitAtEqualsAfterKey(k: string, v: string)
    requires '=' !in k
    ensures SplitAtEquals(k + "=" + v) == Some((k, v))
  {
    if k != [] {
      assert (k + "=" + v)[1..] == k[1..] + "=" + v;
      SplitAtEqualsAfterKey(k[1..], v);
      assert [k[0]] + k[1..] == k;
    } else {
      assert (k + "=" + v)[1..] == v;
    }
  }

  /** A keyword option renders so that its key and value can be read back,
      for every key that does not itself begin with a dash or hold '='. */
  lemma FlagRoundTrip(key: string, value: string)
    requires key != "" && key[0] != '-' && '=' !in key
    ensures ParseFlag(Flag(key, value)) == Some((key, value))
  {
    var f := Flag(key, value);
    if |key| == 1 {
      assert f[1..] == key + "=" + value;
    } else {
      assert f[2..] == key + "=" + value;
    }
    SplitAtEqualsAfterKey(key, value);
  }

  /** Redirect.__call__: picks the descriptor from the two stream flags and
      refuses a redirection of neither stream. */
  function MakeRedirect(target: string, append: bool, stdout: bool, stderr: bool): (r: Result<Token>)
    ensures r.Err? <==> !stdout && !stderr
    ensures r.Err? ==> r.error == NoRedirectStream
    ensures r.Ok? ==> r.value.RedirectOp? && r.value.target == target && r.value.append == append
    ensures r.Ok? ==> (r.value.stream == Both <==> stdout && stderr)
    ensures r.Ok? ==> (r.value.stream == Stdout <==> stdout && !stderr)
    ensures r.Ok? ==> (r.value.stream == Stderr <==> !stdout && stderr)
  {
    if stdout && stderr then Ok(RedirectOp(target, append, Both))
    else if stdout then Ok(RedirectOp(target, append, Stdout))
    else if stderr then Ok(RedirectOp(target, append, Stderr))
    else Err(NoRedirectStream)
  }

  /** Reads the streams, the append flag and the file back from a rendered
      redirection. */
  function ParseRedirect(f: string): Option<(Stream, bool, string)> {
    if |f| < 3 || f[1] != '>' then None
    else
      var s :=
        if f[0] == '&' then Some(Both)
        else if f[0] == '1' then Some(Stdout)
        else if f[0] == '2' then Some(Stderr)
        else None;
      if s.None? then None
      else if f[2] == ' ' then Some((s.value, false, f[3..]))
      else if |f| >= 4 && f[2] == '>' && f[3] == ' ' then Some((s.value, true, f[4..]))
      else None
  }

  /** A redirection's fragment determines its streams, mode and file. */
  lemma RedirectRoundTrip(target: string, append: bool, s: Stream)
    ensures ParseRedirect(Render(RedirectOp(target, append, s))) == Some((s, append, target))
  {
    var f := Render(RedirectOp(target, append, s));
    if append {
      assert f == Descriptor(s) + ">> " + target;
      assert f[4..] == target;
    } else {
      assert f == Descriptor(s) + "> " + target;
      assert f[3..] == target;
    }
  }

  /** os.path.join(a, b) for POSIX paths. */
  function PathJoin(a: string, b: string): string {
    if |b| > 0 && b[0] == '/' then b
    else if a == [] || a[|a| - 1] == '/' then a + b
    else a + "/" + b
  }

  /** The lookup of a command in the directory given as 'where', as
      intended: where and where/name must exist, and the path that was
      checked is the one the command runs as. */
  function Locate(where: string, name: string, fs: set<string>): (r: Result<string>)
    ensures r.Ok? <==> where in fs && PathJoin(where, name) in fs
    ensures r.Ok? ==> r.value == PathJoin(where, name) && r.value in fs
    ensures where !in fs ==> r == Err(WhereMissing(where))
    ensures where in fs && r.Err? ==> r == Err(CommandMissing(PathJoin(where, name)))
  {
    if where !in fs then Err(WhereMissing(where))
    else
      var cmd := PathJoin(where, name);
      if cmd !in fs then Err(CommandMissing(cmd)) else Ok(cmd)
  }

  /** The same lookup as the source writes it: after checking where/name it
      joins where onto that path once more. */
  function LocateAsWritten(where: string, name: string, fs: set<string>): (r: Result<string>)
    ensures r.Ok? <==> Locate(where, name, fs).Ok?
    ensures r.Ok? ==> r.value == PathJoin(where, PathJoin(where, name))
    ensures r.Err? ==> r == Locate(where, name, fs)
  {
    if where !in fs then Err(WhereMissing(where))
    else
      var cmd := PathJoin(where, name);
      if cmd !in fs then Err(CommandMissing(cmd)) else Ok(PathJoin(where, cmd))
  }

  /** With a relative 'where' the source runs a path it never checked. */
  lemma LocateAsWrittenDoublesRelativeWhere()
    ensures LocateAsWritten("bin", "ls", {"bin", "bin/ls"}) == Ok("bin/bin/ls")
    ensures "bin/bin/ls" !in {"bin", "bin/ls"}
    ensures Locate("bin", "ls", {"bin", "bin/ls"}) == Ok("bin/ls")
  {
    assert PathJoin("bin", "ls") == "bin/ls";
    assert PathJoin("bin", "bin/ls") == "bin/bin/ls";
    assert "bin/bin/ls" != "bin/ls" by { assert |"bin/bin/ls"| != |"bin/ls"|; }
    assert "bin/bin/ls" != "bin" by { assert |"bin/bin/ls"| != |"bin"|; }
  }

  /** With an absolute 'where' the extra join is harmless. */
  lemma LocateAgreesForAbsoluteWhere(where: string, name: string, fs: set<string>)
    requires |where| > 0 && where[0] == '/'
    ensures LocateAsWritten(where, name, fs) == Locate(where, name, fs)
  {
  }

  /** Command.__call__: consumes the 'where' and 'sudo' keyword arguments
      and keeps the positional arguments and the other options as given. */
  function CommandToken(name: string, args: seq<string>, kwargs: Dict<string>, fs: set<string>): (r: Result<Token>)
    ensures r.Err? <==> HasKey(kwargs, "where") && Locate(Get(kwargs, "where"), name, fs).Err?
    ensures r.Err? ==> r.error == Locate(Get(kwargs, "where"), name, fs).error
    ensures r.Ok? ==> r.value.Command? && r.value.args == args
    ensures r.Ok? ==> forall e :: e in r.value.options <==> e in kwargs && e.0 != "where" && e.0 != "sudo"
    ensures r.Ok? ==> r.value.options == Remove(Remove(kwargs, "where"), "sudo")
    ensures r.Ok? ==>
              r.value.name == (if HasKey(kwargs, "sudo") then "sudo " else "")
                              + (if HasKey(kwargs, "where") then PathJoin(Get(kwargs, "where"), name) else name)
  {
    var located := if HasKey(kwargs, "where") then Locate(Get(kwargs, "where"), name, fs) else Ok(name);
    if located.Err? then Err(located.error)
    else
      var rest := Remove(kwargs, "where");
      assert HasKey(rest, "sudo") <==> HasKey(kwargs, "sudo") by {
        if HasKey(kwargs, "sudo") {
          var i :| 0 <= i < |kwargs| && kwargs[i].0 == "sudo";
          assert kwargs[i] in rest;
          var j :| 0 <= j < |rest| && rest[j] == kwargs[i];
        }
        if HasKey(rest, "sudo") {
          var i :| 0 <= i < |rest| && rest[i].0 == "sudo";
          assert rest[i] in kwargs;
          var j :| 0 <= j < |kwargs| && kwargs[j] == rest[i];
        }
      }
      var elevated := HasKey(rest, "sudo");
      Ok(Command(if elevated then "sudo " + located.value else located.value, args, Remove(rest, "sudo")))
  }
}
