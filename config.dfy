/** The service configuration (configuration/config.h) and the loader that fills
    it from the process environment (configuration/config.cpp). The environment
    is a map from variable name to value: a name that is absent is a variable
    std::getenv does not find. */
module Config {
  import opened Wrappers
  import LexicalCast

  /** std::uint16_t */
  type Port = p: int | 0 <= p < 0x1_0000
  /** int */
  type Int32 = n: int | LexicalCast.INT_MIN <= n <= LexicalCast.INT_MAX

  /** SshConfig. `rsaHostPrivateKeyPath` is read by the loader and by the
      session although the header does not declare it; it defaults to "". */
  datatype SshConfig = SshConfig(
    bindAddr: string,
    bindPort: Port,
    hostPublicKey: string,
    rsaHostPrivateKeyPath: string)

  /** ThreadPoolConfig */
  datatype ThreadPoolConfig = ThreadPoolConfig(threads: Int32)

  /** AppConfig */
  datatype AppConfig = AppConfig(ssh: SshConfig, pool: ThreadPoolConfig)

  const DEFAULT_BIND_ADDR: string := "0.0.0.0"
  const DEFAULT_BIND_PORT: Port := 2222
  const DEFAULT_THREADS: Int32 := 4

  /** The value-initialised AppConfig{} the loader starts from. */
  const DefaultAppConfig: AppConfig :=
    AppConfig(SshConfig(DEFAULT_BIND_ADDR, DEFAULT_BIND_PORT, "", ""), ThreadPoolConfig(DEFAULT_THREADS))

  const BIND_ADDR_VAR: string := "PROMPT_BIND_ADDR"
  const BIND_PORT_VAR: string := "PROMPT_BIND_PORT"
  const HOST_PUBLIC_KEY_VAR: string := "PROMPT_SSH_HOST_PUBLIC_KEY"
  const RSA_HOST_PRIVATE_KEY_PATH_VAR: string := "PROMPT_SSH_RSA_HOST_PRIVATE_KEY_PATH"
  const THREADS_VAR: string := "PROMPT_THREADS"

  type Env = map<string, string>

  /** std::getenv: `None` plays the null pointer. */
  function Getenv(env: Env, name: string): (r: Option<string>)
    ensures r.Some? <==> name in env
    ensures r.Some? ==> r.value == env[name]
  {
    if name in env then Some(env[name]) else None
  }

  /** A string variable is taken only when it is set and non-empty. */
  function NonEmpty(v: Option<string>): (r: Option<string>)
    ensures r.Some? <==> v.Some? && v.value != ""
    ensures r.Some? ==> r == v
  {
    match v
    case Some(s) => if s != "" then v else None
    case None => None
  }

  /** PROMPT_BIND_PORT: cast to `long`, then accepted when 0 <= p <= 65535. A cast
      failure (the swallowed bad_lexical_cast) and an out-of-range value both
      give `None`. */
  function PortFrom(v: Option<string>): (r: Option<Port>)
    ensures r.Some? <==>
      v.Some? && LexicalCast.IsDecimal(v.value)
      && 0 <= LexicalCast.ParseDecimal(v.value).value <= 65535
    ensures r.Some? ==> r.value == LexicalCast.ParseDecimal(v.value).value
  {
    match v
    case None => None
    case Some(s) =>
      match LexicalCast.CastInteger(s, LexicalCast.LONG_MIN, LexicalCast.LONG_MAX)
      case Some(p) => if 0 <= p <= 65535 then Some(p) else None
      case None => None
  }

  /** PROMPT_THREADS: cast to `int`, then accepted when positive. */
  function ThreadsFrom(v: Option<string>): (r: Option<Int32>)
    ensures r.Some? <==>
      v.Some? && LexicalCast.IsDecimal(v.value)
      && 0 < LexicalCast.ParseDecimal(v.value).value <= LexicalCast.INT_MAX
    ensures r.Some? ==> r.value == LexicalCast.ParseDecimal(v.value).value && r.value > 0
  {
    match v
    case None => None
    case Some(s) =>
      match LexicalCast.CastInteger(s, LexicalCast.INT_MIN, LexicalCast.INT_MAX)
      case Some(n) => if n > 0 then Some(n) else None
      case None => None
  }

  /** ConfigLoader::Impl::load: start from the defaults and apply each variable
      in turn; every guard that fails leaves the field as it was. */
  function Load(env: Env): (cfg: AppConfig)
    ensures cfg.pool.threads > 0
  {
    var c0 := DefaultAppConfig;
    var c1 := match NonEmpty(Getenv(env, BIND_ADDR_VAR))
      case Some(a) => c0.(ssh := c0.ssh.(bindAddr := a))
      case None => c0;
    var c2 := match PortFrom(Getenv(env, BIND_PORT_VAR))
      case Some(p) => c1.(ssh := c1.ssh.(bindPort := p))
      case None => c1;
    var c3 := match NonEmpty(Getenv(env, HOST_PUBLIC_KEY_VAR))
      case Some(k) => c2.(ssh := c2.ssh.(hostPublicKey := k))
      case None => c2;
    var c4 := match NonEmpty(Getenv(env, RSA_HOST_PRIVATE_KEY_PATH_VAR))
      case Some(k) => c3.(ssh := c3.ssh.(rsaHostPrivateKeyPath := k))
      case None => c3;
    match ThreadsFrom(Getenv(env, THREADS_VAR))
    case Some(n) => c4.(pool := c4.pool.(threads := n))
    case None => c4
  }

  /** The defaults of config.h: thread count 4 is positive from the start. */
  lemma DefaultValues()
    ensures DefaultAppConfig.ssh.bindAddr == "0.0.0.0"
    ensures DefaultAppConfig.ssh.bindPort == 2222
    ensures DefaultAppConfig.ssh.hostPublicKey == ""
    ensures DefaultAppConfig.ssh.rsaHostPrivateKeyPath == ""
    ensures DefaultAppConfig.pool.threads == 4 && DefaultAppConfig.pool.threads > 0
  {
  }

  /** With no variable set the loader returns exactly the defaults. */
  lemma LoadEmptyEnvironment()
    ensures Load(map[]) == DefaultAppConfig
  {
  }

  /** bind_addr is replaced exactly when PROMPT_BIND_ADDR is set and non-empty. */
  lemma LoadBindAddr(env: Env)
    ensures BIND_ADDR_VAR in env && env[BIND_ADDR_VAR] != "" ==>
      Load(env).ssh.bindAddr == env[BIND_ADDR_VAR]
    ensures !(BIND_ADDR_VAR in env && env[BIND_ADDR_VAR] != "") ==>
      Load(env).ssh.bindAddr == DEFAULT_BIND_ADDR
  {
  }

  /** bind_port is replaced exactly when PROMPT_BIND_PORT casts to a long in
      [0, 65535]; port 0 is accepted. Anything else keeps 2222. */
  lemma LoadBindPort(env: Env)
    ensures var accepted := BIND_PORT_VAR in env && LexicalCast.IsDecimal(env[BIND_PORT_VAR])
                            && 0 <= LexicalCast.ParseDecimal(env[BIND_PORT_VAR]).value <= 65535;
      && (accepted ==> Load(env).ssh.bindPort == LexicalCast.ParseDecimal(env[BIND_PORT_VAR]).value)
      && (!accepted ==> Load(env).ssh.bindPort == DEFAULT_BIND_PORT)
  {
  }

  /** host_public_key and rsa_host_private_key_path are replaced exactly when
      their variable is set and non-empty; "" behaves as unset. */
  lemma LoadKeys(env: Env)
    ensures HOST_PUBLIC_KEY_VAR in env && env[HOST_PUBLIC_KEY_VAR] != "" ==>
      Load(env).ssh.hostPublicKey == env[HOST_PUBLIC_KEY_VAR]
    ensures !(HOST_PUBLIC_KEY_VAR in env && env[HOST_PUBLIC_KEY_VAR] != "") ==>
      Load(env).ssh.hostPublicKey == ""
    ensures RSA_HOST_PRIVATE_KEY_PATH_VAR in env && env[RSA_HOST_PRIVATE_KEY_PATH_VAR] != "" ==>
      Load(env).ssh.rsaHostPrivateKeyPath == env[RSA_HOST_PRIVATE_KEY_PATH_VAR]
    ensures !(RSA_HOST_PRIVATE_KEY_PATH_VAR in env && env[RSA_HOST_PRIVATE_KEY_PATH_VAR] != "") ==>
      Load(env).ssh.rsaHostPrivateKeyPath == ""
  {
  }

  /** threads is replaced exactly when PROMPT_THREADS casts to a positive int;
      a cast failure, 0 or a negative value keeps 4. */
  lemma LoadThreads(env: Env)
    ensures var accepted := THREADS_VAR in env && LexicalCast.IsDecimal(env[THREADS_VAR])
                            && 0 < LexicalCast.ParseDecimal(env[THREADS_VAR]).value <= LexicalCast.INT_MAX;
      && (accepted ==> Load(env).pool.threads == LexicalCast.ParseDecimal(env[THREADS_VAR]).value)
      && (!accepted ==> Load(env).pool.threads == DEFAULT_THREADS)
  {
  }

  /** Each field depends on its own variable only: two environments that agree
      on a variable give the same value for its field, whatever else differs. */
  lemma LoadFieldsIndependent(e1: Env, e2: Env)
    ensures Getenv(e1, BIND_ADDR_VAR) == Getenv(e2, BIND_ADDR_VAR) ==>
      Load(e1).ssh.bindAddr == Load(e2).ssh.bindAddr
    ensures Getenv(e1, BIND_PORT_VAR) == Getenv(e2, BIND_PORT_VAR) ==>
      Load(e1).ssh.bindPort == Load(e2).ssh.bindPort
    ensures Getenv(e1, HOST_PUBLIC_KEY_VAR) == Getenv(e2, HOST_PUBLIC_KEY_VAR) ==>
      Load(e1).ssh.hostPublicKey == Load(e2).ssh.hostPublicKey
    ensures Getenv(e1, RSA_HOST_PRIVATE_KEY_PATH_VAR) == Getenv(e2, RSA_HOST_PRIVATE_KEY_PATH_VAR) ==>
      Load(e1).ssh.rsaHostPrivateKeyPath == Load(e2).ssh.rsaHostPrivateKeyPath
    ensures Getenv(e1, THREADS_VAR) == Getenv(e2, THREADS_VAR) ==>
      Load(e1).pool.threads == Load(e2).pool.threads
  {
    LoadBindAddr(e1); LoadBindAddr(e2);
    LoadBindPort(e1); LoadBindPort(e2);
    LoadKeys(e1); LoadKeys(e2);
    LoadThreads(e1); LoadThreads(e2);
  }

  /** PROMPT_BIND_PORT=0 is taken (the loader's range includes 0) while
      PROMPT_THREADS=-3 is ignored. */
  lemma LoadPortZeroAndNegativeThreads()
    ensures var cfg := Load(map[BIND_PORT_VAR := "0", THREADS_VAR := "-3"]);
      cfg.ssh.bindPort == 0 && cfg.pool.threads == DEFAULT_THREADS
      && cfg.ssh.bindAddr == DEFAULT_BIND_ADDR
  {
    var env := map[BIND_PORT_VAR := "0", THREADS_VAR := "-3"];
    assert LexicalCast.DigitsValue("0") == 0 by {
      assert "0"[..0] == [];
    }
    assert "-3"[1..] == "3";
    assert LexicalCast.DigitsValue("3") == 3 by {
      assert "3"[..0] == [];
    }
  }

  /** A port or thread count that is not a number at all is ignored. */
  lemma LoadMalformedNumbers(env: Env)
    requires BIND_PORT_VAR in env && !LexicalCast.IsDecimal(env[BIND_PORT_VAR])
    requires THREADS_VAR in env && !LexicalCast.IsDecimal(env[THREADS_VAR])
    ensures Load(env).ssh.bindPort == DEFAULT_BIND_PORT
    ensures Load(env).pool.threads == DEFAULT_THREADS
  {
  }
}
