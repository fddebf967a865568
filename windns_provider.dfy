/**
 * `providerConfigure` of the current generation: three early-return checks on
 * the provider settings, then a client record that copies them. The lock-file
 * path, which the source obtains from a temporary file it removes at once, is an
 * input here.
 */
module WinDNSProvider {
  import opened Wrappers

  /** The provider block as Terraform hands it over; the flags are the strings "0"/"1". */
  datatype Config = Config(
    username: string,
    password: string,
    server: string,
    usessl: string,
    usessh: string,
    usejumphost: string,
    autocreateptr: string)

  /** The session every resource operation receives. */
  datatype DNSClient = DNSClient(
    username: string,
    password: string,
    server: string,
    usessl: string,
    usessh: string,
    usejumphost: string,
    lockfile: string,
    autocreateptr: string)

  /** Go's `(interface{}, error)` return: a client, an error, or (in principle) both. */
  datatype Configured = Configured(client: Option<DNSClient>, err: Option<string>)

  const UsernameMissing: string := "The 'username' property was not specified."
  const PasswordMissing: string := "The 'password' property was not specified and usessh was false."
  const ServerMissing: string := "The 'server' property was not specified."

  /**
   * Checks username, then password (only when usessh is exactly "0"), then
   * server; the first that fails decides the error and no client is built.
   * Otherwise every setting is copied verbatim and the lock file is the path
   * fixed for this configuration.
   */
  function ProviderConfigure(cfg: Config, lockfile: string): (r: Configured)
    ensures r.client.None? <==> r.err.Some?
    ensures r.err.Some? <==> cfg.username == "" || (cfg.password == "" && cfg.usessh == "0") || cfg.server == ""
    ensures cfg.username == "" ==> r.err == Some(UsernameMissing)
    ensures cfg.username != "" && cfg.password == "" && cfg.usessh == "0" ==> r.err == Some(PasswordMissing)
    ensures cfg.username != "" && !(cfg.password == "" && cfg.usessh == "0") && cfg.server == "" ==> r.err == Some(ServerMissing)
    ensures r.client.Some? ==>
      && r.client.value.username == cfg.username
      && r.client.value.password == cfg.password
      && r.client.value.server == cfg.server
      && r.client.value.usessl == cfg.usessl
      && r.client.value.usessh == cfg.usessh
      && r.client.value.usejumphost == cfg.usejumphost
      && r.client.value.autocreateptr == cfg.autocreateptr
      && r.client.value.lockfile == lockfile
  {
    if cfg.username == "" then Configured(None, Some(UsernameMissing))
    else if cfg.password == "" && cfg.usessh == "0" then Configured(None, Some(PasswordMissing))
    else if cfg.server == "" then Configured(None, Some(ServerMissing))
    else
      Configured(Some(DNSClient(cfg.username, cfg.password, cfg.server, cfg.usessl,
                                cfg.usessh, cfg.usejumphost, lockfile, cfg.autocreateptr)), None)
  }

  /**
   * An empty password is refused only when usessh is exactly "0": with any other
   * usessh value ("1", "false", "") the same settings yield a client.
   */
  lemma EmptyPasswordNeedsSshOff(cfg: Config, lockfile: string)
    requires cfg.username != "" && cfg.server != "" && cfg.password == ""
    ensures ProviderConfigure(cfg, lockfile).err == Some(PasswordMissing) <==> cfg.usessh == "0"
    ensures ProviderConfigure(cfg, lockfile).client.Some? <==> cfg.usessh != "0"
  {
  }
}
