/** Configuring the local API (src-tauri/src/local_api.rs): persisted settings and the live server must agree,
    whatever read, write or bind fails. */
module ApiConfig {
  import opened Wrappers
  import Decimals

  const PORT_MIN: nat := 1024
  const DEFAULT_PORT: nat := 43210
  const PORT_MAX: nat := 65535

  /** A stored bind address: text that parses as an IP literal, or does not. */
  datatype Address = Literal(ip: nat) | Damaged(text: string)

  const LOOPBACK: nat := 0x7f00_0001

  /** The `api.*` settings as stored; `None` is an absent key. */
  datatype Settings = Settings(
    enabled: Option<string>, port: Option<string>, address: Option<Address>,
    token: Option<string>, readToken: Option<string>)

  datatype Server = Server(port: nat, ip: nat, readToken: Option<string>)

  datatype Problem =
    | AddressUnreadable | AddressInvalid | ReadCredentialUnreadable | NotPersisted | TokenNotPersisted
    | TokenAlreadyExists | NoTokenConfigured | CannotListen | StartupUnreadable

  /** The store and the runtime; the live legacy token is shared with the server. */
  datatype Api = Api(settings: Settings, server: Option<Server>, token: string, lastError: Option<Problem>)

  /** Which steps fail, and what the random source returns. */
  datatype Luck = Luck(
    enabledRead: bool, addressRead: bool, readTokenRead: bool, portRead: bool, batchWrite: bool, tokenRead: bool, tokenWrite: bool,
    bind: bool, generated: string)

  // Numbers in settings.

  predicate IsDigit(c: char) {
    '0' <= c <= '9'
  }

  function Digits(s: string): (n: Option<nat>) {
    if s == "" || !IsDigit(s[|s| - 1]) then None
    else
      var digit := s[|s| - 1] as int - '0' as int;
      if |s| == 1 then Some(digit)
      else
        var front := Digits(s[..|s| - 1]);
        if front.None? then None else Some(front.value * 10 + digit)
  }

  /** `str::parse::<u16>`. */
  function ParseU16(s: string): (n: Option<nat>) {
    var n := Digits(if s != "" && s[0] == '+' then s[1..] else s);
    if n.Some? && n.value <= PORT_MAX then n else None
  }

  lemma {:induction false} DigitsOfDecimal(n: nat)
    ensures Decimals.Decimal(n) != "" && Digits(Decimals.Decimal(n)) == Some(n)
    ensures IsDigit(Decimals.Decimal(n)[0])
    decreases n
  {
    var s := Decimals.Decimal(n);
    if n >= 10 {
      DigitsOfDecimal(n / 10);
      assert s[..|s| - 1] == Decimals.Decimal(n / 10);
      assert s[|s| - 1] == (0x30 + n % 10) as char;
    }
  }

  /** A port written to the settings reads back as itself. */
  lemma PortRoundTrip(n: nat)
    requires n <= PORT_MAX
    ensures ParseU16(Decimals.Decimal(n)) == Some(n)
  {
    DigitsOfDecimal(n);
  }

  // Reading the configuration, tolerantly.

  function Clamp(port: nat): (p: nat) {
    if port < PORT_MIN then PORT_MIN else port
  }

  predicate Enabled(s: Settings) {
    s.enabled == Some("true")
  }

  function PortOf(s: Settings): (p: nat) {
    if s.port.None? || ParseU16(s.port.value).None? then DEFAULT_PORT else Clamp(ParseU16(s.port.value).value)
  }

  function NonEmpty(s: Option<string>): (r: Option<string>) {
    if s == Some("") then None else s
  }

  function AddressOf(s: Settings): (a: Address) {
    if s.address.None? then Literal(LOOPBACK) else s.address.value
  }

  function BoolText(b: bool): (s: string) {
    if b then "true" else "false"
  }

  // `apply_api_config_locked`, step by step.

  datatype Outcome = Outcome(api: Api, error: Option<Problem>)

  function Target(s: Settings, enabled: bool, address: Option<Address>, luck: Luck): (r: Result<Address, Problem>) {
    if address.None? && !luck.addressRead then Err(AddressUnreadable)
    else
      var stored := if address.Some? then address.value else AddressOf(s);
      if stored.Literal? || (!enabled && address.None?) then Ok(stored) else Err(AddressInvalid)
  }

  function TargetPort(s: Settings, port: Option<nat>, luck: Luck): (p: nat) {
    Clamp(if port.Some? then port.value else if luck.portRead then PortOf(s) else DEFAULT_PORT)
  }

  function Persisted(s: Settings, enabled: bool, port: nat, address: Address): (r: Settings) {
    s.(enabled := Some(BoolText(enabled)), port := Some(Decimals.Decimal(port)), address := Some(address))
  }

  /** The live legacy token is kept once it is populated; otherwise it is read, or generated and stored. */
  function WithToken(api: Api, luck: Luck): (r: Outcome) {
    if api.token != "" then Outcome(api, None)
    else
      var stored := if luck.tokenRead then NonEmpty(api.settings.token) else None;
      if stored.Some? then Outcome(api.(token := stored.value), None)
      else if !luck.tokenWrite then Outcome(api, Some(TokenNotPersisted))
      else Outcome(api.(token := luck.generated, settings := api.settings.(token := Some(luck.generated))), None)
  }

  function Started(api: Api, ip: nat, port: nat, readToken: Option<string>, luck: Luck): (r: Api) {
    if luck.bind then api.(server := Some(Server(port, ip, readToken))) else api.(lastError := Some(CannotListen))
  }

  function Configured(api: Api, enabled: bool, port: Option<nat>, address: Option<Address>, luck: Luck): (r: Outcome) {
    var target := Target(api.settings, enabled, address, luck);
    if target.Err? then Outcome(api, Some(target.error))
    else if enabled && !luck.readTokenRead then Outcome(api, Some(ReadCredentialUnreadable))
    else if !luck.batchWrite then Outcome(api, Some(NotPersisted))
    else
      var targetPort := TargetPort(api.settings, port, luck);
      var readToken := NonEmpty(api.settings.readToken);
      var stopped := Api(Persisted(api.settings, enabled, targetPort, target.value), None, api.token, None);
      if !enabled || target.value.Damaged? then Outcome(stopped, None)
      else
        var withToken := WithToken(stopped, luck);
        if withToken.error.Some? then withToken
        else Outcome(Started(withToken.api, target.value.ip, targetPort, readToken, luck), None)
  }

  /** `rotate_legacy_token`. */
  function Rotated(api: Api, luck: Luck): (r: Outcome) {
    if !luck.tokenWrite then Outcome(api, Some(TokenNotPersisted))
    else Outcome(api.(settings := api.settings.(token := Some(luck.generated)), token := luck.generated), None)
  }

  datatype Change = Create | Rotate | Revoke

  /** `change_read_token`: persisted first, then installed in the running server. */
  function ReadTokenChanged(api: Api, change: Change, luck: Luck): (r: Outcome) {
    var existing := NonEmpty(api.settings.readToken);
    if !luck.readTokenRead then Outcome(api, Some(ReadCredentialUnreadable))
    else if change.Create? && existing.Some? then Outcome(api, Some(TokenAlreadyExists))
    else if change.Rotate? && existing.None? then Outcome(api, Some(NoTokenConfigured))
    else if !luck.tokenWrite then Outcome(api, Some(NotPersisted))
    else
      var token := if change.Revoke? then None else Some(luck.generated);
      var saved := if token.None? then "" else token.value;
      var stored := api.(settings := api.settings.(readToken := Some(saved)));
      Outcome(if api.server.None? then stored
              else stored.(server := Some(api.server.value.(readToken := token))), None)
  }

  datatype Op =
    | Configure(enabled: bool, port: Option<nat>, address: Option<Address>)
    | RotateLegacy
    | ChangeReadToken(change: Change)
    | Autostart
    | Stop
    | Restart

  /** `Restart` ends the process: the settings stay, everything live is gone. */
  function Perform(api: Api, op: Op, luck: Luck): (r: Outcome) {
    match op
    case Configure(enabled, port, address) => Configured(api, enabled, port, address, luck)
    case RotateLegacy => Rotated(api, luck)
    case ChangeReadToken(change) => ReadTokenChanged(api, change, luck)
    case Autostart =>
      if !luck.enabledRead then Outcome(api.(lastError := Some(StartupUnreadable)), Some(StartupUnreadable))
      else if !Enabled(api.settings) then Outcome(api, None)
      else
        var r := Configured(api, true, None, None, luck);
        if r.error.Some? then Outcome(r.api.(lastError := r.error), r.error) else r
    case Stop => Outcome(api.(server := None), None)
    case Restart => Outcome(Api(api.settings, None, "", None), None)
  }

  // Agreement.

  /** A running server is one the settings describe, behind the persisted credentials. */
  predicate Agrees(api: Api) {
    && (api.token != "" ==> api.settings.token == Some(api.token))
    && (api.server.Some? ==>
      && Enabled(api.settings)
      && api.server.value.port == PortOf(api.settings)
      && AddressOf(api.settings) == Literal(api.server.value.ip)
      && api.server.value.readToken == NonEmpty(api.settings.readToken)
      && api.token != "")
  }

  predicate ValidOp(op: Op) {
    op.Configure? && op.port.Some? ==> op.port.value <= PORT_MAX
  }

  lemma ConfiguredAgrees(api: Api, enabled: bool, port: Option<nat>, address: Option<Address>, luck: Luck)
    requires Agrees(api) && luck.generated != "" && (port.Some? ==> port.value <= PORT_MAX)
    ensures Agrees(Configured(api, enabled, port, address, luck).api)
  {
    var p := TargetPort(api.settings, port, luck);
    PortRoundTrip(p);
  }

  lemma PerformAgrees(api: Api, op: Op, luck: Luck)
    requires Agrees(api) && ValidOp(op) && luck.generated != ""
    ensures Agrees(Perform(api, op, luck).api)
  {
    match op
    case Configure(enabled, port, address) => ConfiguredAgrees(api, enabled, port, address, luck);
    case Autostart => ConfiguredAgrees(api, true, None, None, luck);
    case _ =>
  }

  datatype Step = Step(op: Op, luck: Luck)

  function Run(api: Api, steps: seq<Step>): (r: Api) {
    if steps == [] then api
    else Perform(Run(api, steps[..|steps| - 1]), steps[|steps| - 1].op, steps[|steps| - 1].luck).api
  }

  /** Over every sequence of commands, restarts and failures the live server agrees with the settings. */
  lemma {:induction false} RunAgrees(api: Api, steps: seq<Step>)
    requires Agrees(api)
    requires forall i :: 0 <= i < |steps| ==> ValidOp(steps[i].op) && steps[i].luck.generated != ""
    ensures Agrees(Run(api, steps))
  {
    if steps != [] {
      var n := |steps| - 1;
      RunAgrees(api, steps[..n]);
      PerformAgrees(Run(api, steps[..n]), steps[n].op, steps[n].luck);
    }
  }

  /** A refused credential change leaves everything as it was, stored and live. */
  lemma RefusedCredentialChange(api: Api, op: Op, luck: Luck)
    requires (op.RotateLegacy? || op.ChangeReadToken?) && Perform(api, op, luck).error.Some?
    ensures Perform(api, op, luck).api == api
  {
  }

  /** The server is to run, every earlier step succeeds, no legacy token is live or readable, and a new one cannot
      be stored. */
  predicate FirstTokenFails(api: Api, enabled: bool, address: Option<Address>, luck: Luck) {
    && enabled && Target(api.settings, enabled, address, luck).Ok? && luck.readTokenRead && luck.batchWrite
    && api.token == "" && (!luck.tokenRead || NonEmpty(api.settings.token).None?) && !luck.tokenWrite
  }

  /** A refused configuration never touches a running server or its credentials. It leaves the settings alone as
      well, unless the first legacy token could not be stored: then the intent to run is stored already. */
  lemma RefusedConfiguration(api: Api, enabled: bool, port: Option<nat>, address: Option<Address>, luck: Luck)
    requires Agrees(api)
    ensures var r := Configured(api, enabled, port, address, luck);
      && (r.error == Some(TokenNotPersisted) <==> FirstTokenFails(api, enabled, address, luck))
      && (r.error.Some? ==>
        && r.api.server == api.server && r.api.token == api.token
        && r.api.settings.token == api.settings.token && r.api.settings.readToken == api.settings.readToken
        && (if FirstTokenFails(api, enabled, address, luck) then
              && r.api.server.None? && Enabled(r.api.settings)
              && r.api.settings.port == Some(Decimals.Decimal(TargetPort(api.settings, port, luck)))
              && AddressOf(r.api.settings) == Target(api.settings, enabled, address, luck).value
            else r.api == api))
  {
  }

  /** When a credential change is granted: a create only over nothing, a rotation only over something. */
  lemma CredentialChangeGrantedWhen(api: Api, change: Change, luck: Luck)
    ensures Perform(api, ChangeReadToken(change), luck).error.None? <==>
      && luck.readTokenRead && luck.tokenWrite
      && (change.Create? ==> api.settings.readToken in {None, Some("")})
      && (change.Rotate? ==> api.settings.readToken !in {None, Some("")})
  {
  }

  /** A granted change takes effect in the settings and in the running server alike: after a revocation no read
      credential is left, after a creation or rotation only the new one is valid. Nothing else changes. */
  lemma GrantedCredentialChange(api: Api, change: Change, luck: Luck)
    requires Agrees(api) && luck.generated != "" && Perform(api, ChangeReadToken(change), luck).error.None?
    ensures var r := Perform(api, ChangeReadToken(change), luck).api;
      var valid := if change.Revoke? then None else Some(luck.generated);
      && NonEmpty(r.settings.readToken) == valid
      && r.settings == api.settings.(readToken := r.settings.readToken)
      && r.token == api.token && r.lastError == api.lastError
      && (r.server.Some? <==> api.server.Some?)
      && (r.server.Some? ==>
        && r.server.value.readToken == valid
        && r.server.value.port == api.server.value.port && r.server.value.ip == api.server.value.ip
        && (api.server.value.readToken.Some? && api.server.value.readToken != Some(luck.generated) ==>
          r.server.value.readToken != api.server.value.readToken))
  {
  }

  /** A rotation of the legacy token is granted exactly when it can be stored. Then the new token is the stored and the
      live one, and nothing else changes. */
  lemma GrantedRotation(api: Api, luck: Luck)
    ensures Perform(api, RotateLegacy, luck).error.None? <==> luck.tokenWrite
    ensures luck.tokenWrite ==>
      var r := Perform(api, RotateLegacy, luck).api;
      && r.token == luck.generated && r.settings == api.settings.(token := Some(luck.generated))
      && r.server == api.server && r.lastError == api.lastError
  {
  }

  /** When a configuration is granted: the address, asked for or stored, is a literal (or just the stored one of a
      server to be stopped), every read that must not fail and the write succeed, and a legacy token is to be had. */
  lemma ConfigurationGrantedWhen(api: Api, enabled: bool, port: Option<nat>, address: Option<Address>, luck: Luck)
    ensures Configured(api, enabled, port, address, luck).error.None? <==>
      && (match address
          case Some(given) => given.Literal?
          case None => luck.addressRead && (enabled ==> AddressOf(api.settings).Literal?))
      && luck.batchWrite
      && (enabled ==>
        && luck.readTokenRead
        && (|| api.token != "" || luck.tokenWrite
            || (luck.tokenRead && api.settings.token !in {None, Some("")})))
  {
  }

  /** The port a configuration asks for: what was given, or what is stored. */
  function AskedPort(api: Api, port: Option<nat>, luck: Luck): (p: nat) {
    var p := if port.Some? then port.value else if luck.portRead then PortOf(api.settings) else 43210;
    if p < 1024 then 1024 else p
  }

  /** The legacy token behind which an enabled server runs: the live one, else the stored one, else a new one. */
  function LegacyToken(api: Api, luck: Luck): (t: string) {
    if api.token != "" then api.token
    else if luck.tokenRead && api.settings.token !in {None, Some("")} then api.settings.token.value
    else luck.generated
  }

  /** A granted configuration does what it says: the settings hold what was asked for, what was not asked for stays,
      and the server runs, with exactly that, when it is enabled and can listen. */
  lemma GrantedConfiguration(api: Api, enabled: bool, port: Option<nat>, address: Option<Address>, luck: Luck)
    requires Agrees(api) && luck.generated != "" && (port.Some? ==> port.value <= PORT_MAX)
    requires Configured(api, enabled, port, address, luck).error.None?
    ensures var r := Configured(api, enabled, port, address, luck).api;
      var ip := if address.Some? then address.value else AddressOf(api.settings);
      && Enabled(r.settings) == enabled
      && PortOf(r.settings) == AskedPort(api, port, luck)
      && AddressOf(r.settings) == ip
      && r.settings.readToken == api.settings.readToken
      && r.token == (if enabled then LegacyToken(api, luck) else api.token)
      && (r.settings.token == api.settings.token || (enabled && r.settings.token == Some(r.token)))
      && (if enabled && luck.bind then
            && ip.Literal?
            && r.server == Some(Server(AskedPort(api, port, luck), ip.ip, NonEmpty(api.settings.readToken)))
            && r.lastError.None?
          else r.server.None? && r.lastError == if enabled then Some(CannotListen) else None)
  {
    PortRoundTrip(TargetPort(api.settings, port, luck));
  }

  /** The start of the program configures the server with what is stored, when that says so; a failure is kept for
      the status, and an unreadable intent changes nothing. */
  lemma AutostartConfigures(api: Api, luck: Luck)
    ensures var r := Perform(api, Autostart, luck);
      if luck.enabledRead && Enabled(api.settings) then
        var c := Configured(api, true, None, None, luck);
        && r.error == c.error
        && r.api == c.api.(lastError := if c.error.Some? then c.error else c.api.lastError)
      else
        && r.api == api.(lastError := r.api.lastError)
        && (if luck.enabledRead then r.error.None? && r.api == api
            else r.error == Some(StartupUnreadable) && r.api.lastError == r.error)
  {
  }

  /** On a new store nothing runs by itself, and the first enable serves the loopback address on port 43210 behind a
      new legacy token, with no read credential. */
  lemma FirstEnable(luck: Luck)
    requires AllSucceed(luck)
    ensures var blank := Api(Settings(None, None, None, None, None), None, "", None);
      && Perform(blank, Autostart, luck).api == blank
      && var r := Perform(blank, Configure(true, None, None), luck);
         r.error.None? && r.api.server == Some(Server(43210, 0x7f00_0001, None)) && r.api.token == luck.generated
  {
  }

  predicate AllSucceed(luck: Luck) {
    luck.enabledRead && luck.addressRead && luck.readTokenRead && luck.portRead && luck.batchWrite && luck.tokenRead
    && luck.tokenWrite && luck.bind
  }

  /** After a restart the autostart brings back the same server with the same credentials. */
  lemma RestartRestores(api: Api, any: Luck, luck: Luck)
    requires Agrees(api) && api.server.Some? && AllSucceed(luck)
    ensures var r := Perform(Perform(api, Restart, any).api, Autostart, luck).api;
      r.server == api.server && r.token == api.token
  {
  }

  /** When a configuration overwrites the stored legacy token: nothing is live yet, and the stored one is absent or
      could not be read. A failed read at startup therefore replaces a good token. */
  lemma TokenReplacedWhen(api: Api, port: Option<nat>, address: Option<Address>, luck: Luck)
    requires Configured(api, true, port, address, luck).error.None?
    requires Some(luck.generated) != api.settings.token
    ensures Configured(api, true, port, address, luck).api.settings.token != api.settings.token <==>
      api.token == "" && (!luck.tokenRead || NonEmpty(api.settings.token).None?)
  {
  }

  // The code itself.

  class ApiRuntime {
    var settings: Settings
    var server: Option<Server>
    var token: string
    var lastError: Option<Problem>

    function Value(): (api: Api)
      reads this
    {
      Api(settings, server, token, lastError)
    }

    constructor (settings: Settings)
      ensures Value() == Api(settings, None, "", None)
    {
      this.settings := settings;
      server, token, lastError := None, "", None;
    }

    /** Populate the live legacy token before the first start. */
    method EnsureToken(luck: Luck) returns (error: Option<Problem>)
      modifies this
      ensures Outcome(Value(), error) == WithToken(old(Value()), luck)
    {
      if token != "" {
        return None;
      }
      var stored := if luck.tokenRead then NonEmpty(settings.token) else None;
      if stored.Some? {
        token := stored.value;
        return None;
      }
      if !luck.tokenWrite {
        return Some(TokenNotPersisted);
      }
      settings := settings.(token := Some(luck.generated));
      token := luck.generated;
      return None;
    }

    /** `apply_api_config`. */
    method ApplyConfig(enabled: bool, port: Option<nat>, address: Option<Address>, luck: Luck)
        returns (error: Option<Problem>)
      modifies this
      ensures Outcome(Value(), error) == Configured(old(Value()), enabled, port, address, luck)
    {
      var target := Target(settings, enabled, address, luck);
      if target.Err? {
        return Some(target.error);
      }
      var readToken := None;
      if enabled {
        if !luck.readTokenRead {
          return Some(ReadCredentialUnreadable);
        }
        readToken := NonEmpty(settings.readToken);
      }
      var targetPort := TargetPort(settings, port, luck);
      if !luck.batchWrite {
        return Some(NotPersisted);
      }
      settings := Persisted(settings, enabled, targetPort, target.value);
      server := None;
      lastError := None;
      if enabled && target.value.Literal? {
        error := EnsureToken(luck);
        if error.Some? {
          return;
        }
        if luck.bind {
          server := Some(Server(targetPort, target.value.ip, readToken));
        } else {
          lastError := Some(CannotListen);
        }
      }
      return None;
    }

    /** `rotate_legacy_token`. */
    method RotateLegacyToken(luck: Luck) returns (error: Option<Problem>)
      modifies this
      ensures Outcome(Value(), error) == Rotated(old(Value()), luck)
    {
      if !luck.tokenWrite {
        return Some(TokenNotPersisted);
      }
      settings := settings.(token := Some(luck.generated));
      token := luck.generated;
      return None;
    }

    /** `change_read_token`, with `persist_then_install_read_token`. */
    method ChangeReadCredential(change: Change, luck: Luck) returns (error: Option<Problem>)
      modifies this
      ensures Outcome(Value(), error) == ReadTokenChanged(old(Value()), change, luck)
    {
      if !luck.readTokenRead {
        return Some(ReadCredentialUnreadable);
      }
      var existing := NonEmpty(settings.readToken);
      match change {
        case Create =>
          if existing.Some? {
            return Some(TokenAlreadyExists);
          }
        case Rotate =>
          if existing.None? {
            return Some(NoTokenConfigured);
          }
        case Revoke =>
      }
      var credential := if change.Revoke? then None else Some(luck.generated);
      if !luck.tokenWrite {
        return Some(NotPersisted);
      }
      settings := settings.(readToken := Some(if credential.None? then "" else credential.value));
      if server.Some? {
        server := Some(server.value.(readToken := credential));
      }
      return None;
    }
  }
}
