/** Resolution of the parameter set used to open an SSH connection
    (`Session.prototype._getSshConnInfo`). */
module ConnectionInfo {
  import opened Wrappers
  import opened Values

  /** The connect-phase timeout, in milliseconds, set before the overrides. */
  const ReadyTimeoutMs: int := 60000

  /** The `auth` argument of a session; a property the caller left out is `Undefined`. */
  datatype Auth = Auth(username: Value, password: Value, pem: Value)

  /** The credential key the defaults carry: the private key when `auth.pem`
      is truthy, the password otherwise. */
  function CredentialKey(auth: Auth): string {
    if Truthy(auth.pem) then "privateKey" else "password"
  }

  /** The connection info before the `ssh` overrides are laid over it. */
  function Defaults(host: string, auth: Auth): (d: Object)
    ensures d.Keys == {"host", "username", "readyTimeout", CredentialKey(auth)}
    ensures d["host"] == Str(host) && d["username"] == auth.username
    ensures d["readyTimeout"] == Num(ReadyTimeoutMs)
    ensures "privateKey" in d <==> Truthy(auth.pem)
    ensures "password" in d <==> !Truthy(auth.pem)
    ensures Truthy(auth.pem) ==> d["privateKey"] == auth.pem
    ensures !Truthy(auth.pem) ==> d["password"] == auth.password
  {
    var base := map["host" := Str(host), "username" := auth.username, "readyTimeout" := Num(ReadyTimeoutMs)];
    if Truthy(auth.pem) then base["privateKey" := auth.pem]
    else base["password" := auth.password]
  }

  /** The connection info: the defaults with every `ssh` override laid over
      them last, so that an override wins over any default. */
  function Resolve(host: string, auth: Auth, ssh: Option<Object>): (info: Object)
    ensures info.Keys == Defaults(host, auth).Keys + ssh.GetOr(map[]).Keys
    ensures forall k :: k in ssh.GetOr(map[]) ==> info[k] == ssh.GetOr(map[])[k]
    ensures forall k :: k in Defaults(host, auth) && k !in ssh.GetOr(map[]) ==>
              info[k] == Defaults(host, auth)[k]
  {
    match ssh
    case None => Defaults(host, auth)
    case Some(overrides) => Defaults(host, auth) + overrides
  }

  /** Without overrides exactly one credential key is set: `privateKey`
      holding the key material when `pem` is truthy, else `password` holding
      `auth.password`, even when that is undefined. */
  lemma CredentialIsExclusive(host: string, auth: Auth, ssh: Option<Object>)
    requires "privateKey" !in ssh.GetOr(map[]) && "password" !in ssh.GetOr(map[])
    ensures var info := Resolve(host, auth, ssh);
      && ("privateKey" in info <==> "password" !in info)
      && (Truthy(auth.pem) ==> "privateKey" in info && info["privateKey"] == auth.pem)
      && (!Truthy(auth.pem) ==> "password" in info && info["password"] == auth.password)
  {
  }

  /** An absent `ssh` option leaves the defaults as they are. */
  lemma NoOverridesKeepDefaults(host: string, auth: Auth)
    ensures var info := Resolve(host, auth, None);
      && info.Keys == {"host", "username", "readyTimeout", CredentialKey(auth)}
      && info["host"] == Str(host) && info["username"] == auth.username
      && info["readyTimeout"] == Num(ReadyTimeoutMs)
      && info[CredentialKey(auth)] == (if Truthy(auth.pem) then auth.pem else auth.password)
    ensures Resolve(host, auth, None) == Defaults(host, auth)
  {
  }

  /** Overrides reach the keys the defaults set too: `ssh = {port: 2222, host: h2}`
      yields that port and redirects the host. */
  lemma OverrideRedirects(host: string, host2: string, auth: Auth)
    ensures var info := Resolve(host, auth, Some(map["port" := Num(2222), "host" := Str(host2)]));
      info["port"] == Num(2222) && info["host"] == Str(host2)
      && info["readyTimeout"] == Num(ReadyTimeoutMs)
  {
  }
}
