/** Config and SSHConfig: a recognised set of parameters, each with its
    flag and whether it is required, checked against what the caller
    supplied and rendered as flag/value pairs. */
module Configs {
  import opened Outcomes
  import opened Text
  import opened Dicts

  datatype ParamSpec = ParamSpec(shorthand: string, required: bool)

  /** A config keeps the parameter table of its class and the supplied
      entries in insertion order. */
  datatype Config = Config(params: Dict<ParamSpec>, entries: Dict<string>)

  /** SSHConfig.params_map: both parameters optional. */
  const SshParams: Dict<ParamSpec> := [
    ("identity_file", ParamSpec("-i", false)),
    ("port", ParamSpec("-p", false))
  ]

  /** The first required parameter, in table order, that was not supplied. */
  function FirstMissing(params: Dict<ParamSpec>, entries: Dict<string>): (r: Option<string>)
    ensures r.None? <==> forall i :: 0 <= i < |params| && params[i].1.required ==> HasKey(entries, params[i].0)
    ensures r.Some? ==>
              && !HasKey(entries, r.value)
              && exists i :: 0 <= i < |params| && params[i].1.required && params[i].0 == r.value
  {
    if params == [] then None
    else if params[0].1.required && !HasKey(entries, params[0].0) then Some(params[0].0)
    else
      var r := FirstMissing(params[1..], entries);
      assert forall i :: 1 <= i < |params| ==> params[i] == params[1..][i - 1];
      r
  }

  /** The first supplied key, in insertion order, that the table does not
      recognise. */
  function FirstUnknown(params: Dict<ParamSpec>, entries: Dict<string>): (r: Option<string>)
    ensures r.None? <==> forall j :: 0 <= j < |entries| ==> HasKey(params, entries[j].0)
    ensures r.Some? ==> !HasKey(params, r.value) && exists j :: 0 <= j < |entries| && entries[j].0 == r.value
  {
    if entries == [] then None
    else if !HasKey(params, entries[0].0) then Some(entries[0].0)
    else
      var r := FirstUnknown(params, entries[1..]);
      assert forall j :: 1 <= j < |entries| ==> entries[j] == entries[1..][j - 1];
      r
  }

  /** The reported parameter is the first missing one: every required
      parameter before it in the table was supplied. */
  lemma {:induction false} FirstMissingIsFirst(params: Dict<ParamSpec>, entries: Dict<string>)
    requires FirstMissing(params, entries).Some?
    ensures exists i :: 0 <= i < |params| && params[i].1.required && params[i].0 == FirstMissing(params, entries).value
              && forall k :: 0 <= k < i && params[k].1.required ==> HasKey(entries, params[k].0)
    decreases |params|
  {
    var r := FirstMissing(params, entries).value;
    if params[0].1.required && !HasKey(entries, params[0].0) {
      assert params[0].0 == r;
    } else {
      var tail := params[1..];
      FirstMissingIsFirst(tail, entries);
      var i :| 0 <= i < |tail| && tail[i].1.required && tail[i].0 == r
                && forall k :: 0 <= k < i && tail[k].1.required ==> HasKey(entries, tail[k].0);
      assert params[i + 1] == tail[i];
      forall k | 0 <= k < i + 1 && params[k].1.required ensures HasKey(entries, params[k].0) {
        if k > 0 { assert params[k] == tail[k - 1]; }
      }
    }
  }

  /** The reported key is the first unknown one: every entry before it was
      recognised. */
  lemma {:induction false} FirstUnknownIsFirst(params: Dict<ParamSpec>, entries: Dict<string>)
    requires FirstUnknown(params, entries).Some?
    ensures exists j :: 0 <= j < |entries| && entries[j].0 == FirstUnknown(params, entries).value
              && forall k :: 0 <= k < j ==> HasKey(params, entries[k].0)
    decreases |entries|
  {
    var r := FirstUnknown(params, entries).value;
    if !HasKey(params, entries[0].0) {
      assert entries[0].0 == r;
    } else {
      var tail := entries[1..];
      FirstUnknownIsFirst(params, tail);
      var j :| 0 <= j < |tail| && tail[j].0 == r && forall k :: 0 <= k < j ==> HasKey(params, tail[k].0);
      assert entries[j + 1] == tail[j];
      forall k | 0 <= k < j + 1 ensures HasKey(params, entries[k].0) {
        if k > 0 { assert entries[k] == tail[k - 1]; }
      }
    }
  }

  /** Every required parameter supplied and every supplied key recognised. */
  predicate Acceptable(params: Dict<ParamSpec>, entries: Dict<string>) {
    && (forall i :: 0 <= i < |params| && params[i].1.required ==> HasKey(entries, params[i].0))
    && (forall j :: 0 <= j < |entries| ==> HasKey(params, entries[j].0))
  }

  /** Config.validate_config: missing required parameters are reported
      before unknown keys. */
  function Check(params: Dict<ParamSpec>, entries: Dict<string>): (r: Outcome)
    ensures r.Pass? <==> Acceptable(params, entries)
    ensures r.Fail? ==> r.error.MissingRequired? || r.error.UnknownKey?
    ensures r.Fail? && r.error.MissingRequired? ==> !HasKey(entries, r.error.key)
    ensures r.Fail? && r.error.UnknownKey? ==>
              && !HasKey(params, r.error.key)
              && forall i :: 0 <= i < |params| && params[i].1.required ==> HasKey(entries, params[i].0)
  {
    match FirstMissing(params, entries)
    case Some(k) => Fail(MissingRequired(k))
    case None =>
      match FirstUnknown(params, entries)
      case Some(k) => Fail(UnknownKey(k))
      case None => Pass
  }

  /** The loops of Config.validate_config. */
  method ValidateConfig(params: Dict<ParamSpec>, entries: Dict<string>) returns (r: Outcome)
    ensures r == Check(params, entries)
  {
    var i := 0;
    while i < |params|
      invariant 0 <= i <= |params|
      invariant FirstMissing(params, entries) == FirstMissing(params[i..], entries)
    {
      assert params[i..][1..] == params[i + 1..];
      if params[i].1.required {
        if !HasKey(entries, params[i].0) {
          return Fail(MissingRequired(params[i].0));
        }
      }
      i := i + 1;
    }
    var j := 0;
    while j < |entries|
      invariant 0 <= j <= |entries|
      invariant FirstUnknown(params, entries) == FirstUnknown(params, entries[j..])
    {
      assert entries[j..][1..] == entries[j + 1..];
      if !HasKey(params, entries[j].0) {
        return Fail(UnknownKey(entries[j].0));
      }
      j := j + 1;
    }
    return Pass;
  }

  /** Config.__init__: the config exists only if it validates. */
  function NewConfig(params: Dict<ParamSpec>, entries: Dict<string>): (r: Result<Config>)
    ensures r.Ok? <==> Acceptable(params, entries)
    ensures r.Ok? ==> r.value == Config(params, entries)
    ensures r.Err? ==> Fail(r.error) == Check(params, entries)
  {
    match Check(params, entries)
    case Pass => Ok(Config(params, entries))
    case Fail(e) => Err(e)
  }

  /** The shorthand, then the value, of every entry in insertion order. */
  function Pairs(params: Dict<ParamSpec>, entries: Dict<string>): (r: seq<string>)
    requires forall j :: 0 <= j < |entries| ==> HasKey(params, entries[j].0)
    ensures |r| == 2 * |entries|
  {
    if entries == [] then []
    else
      var n := |entries| - 1;
      Pairs(params, entries[..n]) + [Get(params, entries[n].0).shorthand, entries[n].1]
  }

  /** Entry j supplies the flag at position 2j and its value right after. */
  lemma {:induction false} PairsContents(params: Dict<ParamSpec>, entries: Dict<string>)
    requires forall j :: 0 <= j < |entries| ==> HasKey(params, entries[j].0)
    ensures forall j :: 0 <= j < |entries| ==>
              Pairs(params, entries)[2 * j] == Get(params, entries[j].0).shorthand
              && Pairs(params, entries)[2 * j + 1] == entries[j].1
    decreases |entries|
  {
    if entries != [] {
      var n := |entries| - 1;
      var front := entries[..n];
      PairsContents(params, front);
      var r := Pairs(params, entries);
      assert r == Pairs(params, front) + [Get(params, entries[n].0).shorthand, entries[n].1];
      forall j | 0 <= j < |entries|
        ensures r[2 * j] == Get(params, entries[j].0).shorthand && r[2 * j + 1] == entries[j].1
      {
        if j < n { assert front[j] == entries[j]; }
      }
    }
  }

  /** Config.__str__ */
  function Arguments(c: Config): string
    requires Acceptable(c.params, c.entries)
  {
    Join(Pairs(c.params, c.entries), " ")
  }

  /** The loop of Config.__str__. */
  method ConfigString(c: Config) returns (s: string)
    requires Acceptable(c.params, c.entries)
    ensures s == Arguments(c)
  {
    var output: seq<string> := [];
    var j := 0;
    while j < |c.entries|
      invariant 0 <= j <= |c.entries|
      invariant output == Pairs(c.params, c.entries[..j])
    {
      assert c.entries[..j + 1][..j] == c.entries[..j];
      var key, value := c.entries[j].0, c.entries[j].1;
      var shorthand := Get(c.params, key).shorthand;
      output := output + [shorthand, value];
      j := j + 1;
    }
    assert c.entries[..j] == c.entries;
    s := Join(output, " ");
  }

  /** The config of SSH options, validated against SshParams. */
  function NewSshConfig(entries: Dict<string>): (r: Result<Config>)
    ensures r.Ok? ==> r.value.params == SshParams
  {
    NewConfig(SshParams, entries)
  }

  /** SSH options accept exactly identity_file and port, neither required;
      any other key is refused by name. */
  lemma SshKeys(entries: Dict<string>)
    ensures NewSshConfig(entries).Ok?
        <==> forall j :: 0 <= j < |entries| ==> entries[j].0 == "identity_file" || entries[j].0 == "port"
    ensures NewSshConfig(entries).Err? ==> NewSshConfig(entries).error.UnknownKey?
  {
    assert forall k :: HasKey(SshParams, k) <==> k == "identity_file" || k == "port" by {
      forall k ensures HasKey(SshParams, k) <==> k == "identity_file" || k == "port" {
        if k == "identity_file" { assert SshParams[0].0 == k; }
        if k == "port" { assert SshParams[1].0 == k; }
      }
    }
  }
}
