/** The execution context Sultan.load assembles. */
module Contexts {
  import opened Outcomes
  import Configs

  /** The context dict as rendering reads it. An empty string stands for a
      value Python treats as false (None or ""), which rendering skips. */
  datatype Context = Context(
    cwd: string,
    sudo: bool,
    user: string,
    hostname: string,
    sshOptions: string,
    src: string)

  /** The {} that current_context yields when no context was given. */
  const EmptyContext: Context := Context("", false, "", "", "", "")

  /** Sultan.load: refuses a config that is not an SSHConfig and a source
      file that does not exist; the user defaults to the invoking user and
      the SSH config is stored rendered. */
  function Load(
    cwd: string, sudo: bool, user: string, hostname: string,
    sshConfig: Option<Configs.Config>, src: string,
    invokingUser: string, existing: set<string>): (r: Result<Context>)
    requires sshConfig.Some? ==> Configs.Acceptable(sshConfig.value.params, sshConfig.value.entries)
    ensures r.Err? <==>
              || (sshConfig.Some? && sshConfig.value.params != Configs.SshParams)
              || (src != "" && src !in existing)
    ensures sshConfig.Some? && sshConfig.value.params != Configs.SshParams ==> r == Err(NotSshConfig)
    ensures (sshConfig.None? || sshConfig.value.params == Configs.SshParams) && src != "" && src !in existing ==>
              r == Err(SourceMissing(src))
    ensures r.Ok? ==> r.value.user == (if user != "" then user else invokingUser)
    ensures r.Ok? ==> r.value.sshOptions == (if sshConfig.Some? then Configs.Arguments(sshConfig.value) else "")
    ensures r.Ok? ==>
              && r.value.cwd == cwd && r.value.sudo == sudo
              && r.value.hostname == hostname && r.value.src == src
  {
    if sshConfig.Some? && sshConfig.value.params != Configs.SshParams then Err(NotSshConfig)
    else if src != "" && src !in existing then Err(SourceMissing(src))
    else
      Ok(Context(
        cwd, sudo,
        if user != "" then user else invokingUser,
        hostname,
        if sshConfig.Some? then Configs.Arguments(sshConfig.value) else "",
        src))
  }
}
