/**
 * The credentials callback handed to the git transport: pick plaintext
 * user/token authentication or an SSH key file, or refuse.
 */
module Credentials {
  import opened Wrappers
  import opened Paths

  /** The credential kinds a git transport may ask for (git2's CredentialType flags). */
  datatype CredentialType =
    | UserPassPlaintext
    | SshKey
    | SshCustom
    | Default
    | SshInteractive
    | Username
    | SshMemory

  /** The credential chosen; key files carry no public key and no passphrase. */
  datatype Credential =
    | Plaintext(username: string, password: string)
    | SshKeyFile(username: string, privateKey: string)

  datatype CredentialError =
    | NoHomeDirectory
    | NoUsernameInUrl
    | Unsupported(requested: set<CredentialType>)

  /**
   * The private key path: a path whose first component is `~` is rebased onto
   * the home directory, which must then be known; any other path is used as
   * given.
   */
  function ResolveKeyPath(keyPath: string, home: Option<string>): (r: Result<string, CredentialError>)
    ensures !TildeLed(keyPath) ==> r == Ok(keyPath)
    ensures TildeLed(keyPath) ==> (r.Err? <==> home.None?)
    ensures r.Err? ==> r.error == NoHomeDirectory
    ensures TildeLed(keyPath) && r.Ok? ==> home.value <= r.value
    ensures TildeLed(keyPath) && home.Some? ==> r == Ok(Join(home.value, StripTilde(keyPath).value))
  {
    match StripTilde(keyPath)
    case None => Ok(keyPath)
    case Some(suffix) =>
      if home.None? then Err(NoHomeDirectory) else Ok(Join(home.value, suffix))
  }

  /** "~/" followed by a tidy path lands at that path under the home directory. */
  lemma ResolveTidyKeyPath(rest: string, home: string)
    requires Tidy(rest)
    requires |home| > 0 && home[|home| - 1] != '/'
    ensures ResolveKeyPath("~/" + rest, Some(home)) == Ok(home + "/" + rest)
  {
    StripTildeTidy(rest);
  }

  /**
   * A `~` path with no real component after the `~` ("~", "~/", "~/./")
   * resolves to the home directory followed by a separator.
   */
  lemma BareTildeResolves(keyPath: string, home: string)
    requires TildeLed(keyPath)
    requires forall k :: 1 <= k < |Segments(keyPath)| ==> Skipped(Segments(keyPath)[k])
    requires |home| > 0 && home[|home| - 1] != '/'
    ensures ResolveKeyPath(keyPath, Some(home)) == Ok(home + "/")
  {
    var segs := Segments(keyPath);
    FirstSegmentTilde(keyPath);
    TrimmedRunOf(segs);
    assert RunStart(segs) == RunEnd(segs);
    assert TrimBack(TrimFront(segs[1..])) == [];
    assert StripTilde(keyPath) == Some("");
    JoinEmpty(home);
  }

  /**
   * The callback: plaintext authentication whenever the transport allows it,
   * otherwise an SSH key when allowed, otherwise an error naming the request.
   * For SSH a missing home directory is reported before a missing URL username.
   */
  function SelectCredential(
    allowed: set<CredentialType>, urlUsername: Option<string>,
    username: string, token: string, keyPath: string, home: Option<string>
  ): (r: Result<Credential, CredentialError>)
    ensures UserPassPlaintext in allowed ==> r == Ok(Plaintext(username, token))
    ensures UserPassPlaintext !in allowed && SshKey in allowed ==>
      && (r.Ok? <==> urlUsername.Some? && (TildeLed(keyPath) ==> home.Some?))
      && (r.Ok? ==> r.value == SshKeyFile(urlUsername.value, ResolveKeyPath(keyPath, home).value))
      && (TildeLed(keyPath) && home.None? ==> r == Err(NoHomeDirectory))
      && ((!TildeLed(keyPath) || home.Some?) && urlUsername.None? ==> r == Err(NoUsernameInUrl))
    ensures UserPassPlaintext !in allowed && SshKey !in allowed ==> r == Err(Unsupported(allowed))
  {
    if UserPassPlaintext in allowed then
      Ok(Plaintext(username, token))
    else if SshKey in allowed then
      match ResolveKeyPath(keyPath, home)
      case Err(e) => Err(e)
      case Ok(privateKey) =>
        if urlUsername.None? then Err(NoUsernameInUrl)
        else Ok(SshKeyFile(urlUsername.value, privateKey))
    else
      Err(Unsupported(allowed))
  }

  /**
   * The usernames the callback hands over: the GitLab account's for
   * plaintext, the remote URL's for SSH, never anything else.
   */
  lemma CredentialUsername(
    allowed: set<CredentialType>, urlUsername: Option<string>,
    username: string, token: string, keyPath: string, home: Option<string>)
    ensures var r := SelectCredential(allowed, urlUsername, username, token, keyPath, home);
      r.Ok? ==>
        (r.value.Plaintext? <==> UserPassPlaintext in allowed)
        && (r.value.Plaintext? ==> r.value.username == username && r.value.password == token)
        && (r.value.SshKeyFile? ==> urlUsername == Some(r.value.username))
  {
  }

  /**
   * A key under "~/" (the default is "~/.ssh/id_rsa") is found under the home
   * directory, offered with the URL's username, when only SSH is allowed.
   */
  lemma SshKeyUnderHome(rest: string, home: string, urlUsername: string, username: string, token: string)
    requires Tidy(rest)
    requires |home| > 0 && home[|home| - 1] != '/'
    ensures SelectCredential({SshKey}, Some(urlUsername), username, token, "~/" + rest, Some(home))
      == Ok(SshKeyFile(urlUsername, home + "/" + rest))
  {
    ResolveTidyKeyPath(rest, home);
  }
}
