/** The validation rules of `LinuxSSHTool.load_config` and the choice of
    authentication method made from the accepted `ssh` section. */
module Config {
  import opened Values

  datatype ConfigError =
    | MissingUser             // no `ssh` section, an empty one, or no usable `user`
    | ConflictingCredentials  // both `key_path` and `password` are given

  /** The credential `run_command` hands to the SSH connection. A truthy
      `key_path` that is not a string cannot be handed over: the path
      expansion applied to it raises. */
  datatype Auth =
    | KeyFile(path: string)
    | UnusableKeyPath(value: Scalar)
    | Password(secret: Scalar)
    | NoCredential

  predicate HasUser(section: Record)
  {
    Truthy(Get(section, "user"))
  }

  predicate HasKey(section: Record)
  {
    Truthy(Get(section, "key_path"))
  }

  predicate HasPassword(section: Record)
  {
    Truthy(Get(section, "password"))
  }

  /** Validation of the parsed `ssh` entry (None when the entry is missing or
      null). The accepted section is returned unchanged and becomes the
      tool's configuration. An empty section is rejected by its own test in
      the source; the contract shows that it is one case of a missing user.
      Giving neither credential is accepted. */
  function LoadConfig(ssh: Option<Record>): (r: Result<Record, ConfigError>)
    ensures r == Err(MissingUser) <==> ssh.None? || !HasUser(ssh.value)
    ensures r == Err(ConflictingCredentials) <==>
              ssh.Some? && HasUser(ssh.value) && HasKey(ssh.value) && HasPassword(ssh.value)
    ensures r.Ok? ==> ssh == Some(r.value) && "user" in r.value
    ensures ssh == Some(map[]) ==> r == Err(MissingUser)
  {
    if ssh.None? || ssh.value == map[] || !Truthy(Get(ssh.value, "user")) then
      Err(MissingUser)
    else if Truthy(Get(ssh.value, "key_path")) && Truthy(Get(ssh.value, "password")) then
      Err(ConflictingCredentials)
    else
      Ok(ssh.value)
  }

  /** The `if key_path ... elif password ...` choice of `run_command`: a key
      file wins over a password, and neither may be given. */
  function AuthOf(config: Record): (a: Auth)
    ensures a.KeyFile? || a.UnusableKeyPath? <==> HasKey(config)
    ensures a.KeyFile? ==> config["key_path"] == Text(a.path)
    ensures a.UnusableKeyPath? ==> config["key_path"] == a.value && !a.value.Text?
    ensures a.Password? <==> !HasKey(config) && HasPassword(config)
    ensures a.Password? ==> a.secret == config["password"]
    ensures a == NoCredential <==> !HasKey(config) && !HasPassword(config)
  {
    if Truthy(Get(config, "key_path")) then
      match Get(config, "key_path")
      case Text(path) => KeyFile(path)
      case other => UnusableKeyPath(other)
    else if Truthy(Get(config, "password")) then Password(config["password"])
    else NoCredential
  }

  /** On an accepted configuration the credential used is exactly the one
      configured: the key-file-first rule never hides a password, because
      validation refused the configurations that give both. */
  lemma AcceptedConfigUsesItsCredential(ssh: Option<Record>)
    requires LoadConfig(ssh).Ok?
    ensures var c := LoadConfig(ssh).value;
      && (AuthOf(c).KeyFile? || AuthOf(c).UnusableKeyPath? <==> HasKey(c))
      && (AuthOf(c).Password? <==> HasPassword(c))
      && (AuthOf(c) == NoCredential <==> !HasKey(c) && !HasPassword(c))
  {
  }

  /** Without validation the rule would hide a configured password;
      validation rejects such a configuration, and when it names a user
      the reason given is the conflict. */
  lemma KeyFileHidesPassword(config: Record)
    requires HasKey(config) && HasPassword(config)
    ensures !AuthOf(config).Password?
    ensures LoadConfig(Some(config)).Err?
    ensures HasUser(config) ==> LoadConfig(Some(config)) == Err(ConflictingCredentials)
    ensures !HasUser(config) ==> LoadConfig(Some(config)) == Err(MissingUser)
  {
  }
}
