/** The option loops of the provisioning scripts (scripts/provision-linux.sh, scripts/provision-macos.sh) on the
    arguments that the wizard builds: what reaches the script, and which configurations it turns down. */
module ProvisionScripts {
  import opened FleetTypes
  import opened ShellQuoting
  import opened ProvisionCommand
  import opened Texts

  datatype Platform = Linux | MacOS

  datatype Flag =
    | RoleFlag | TierFlag | NoFIPS | WithCF | CheckOnly
    | TunnelToken | EnrollmentToken | ControllerURL | AdminKey | NodeName | NodeRegion
    | Cert | Key | Upstream | CFAPIToken | CFZoneID | CFAccountID | CFTunnelID
    | ServiceHost | ServicePort | ServiceName | ServiceTLS
    | EnforcementMode | RequireOSFIPS | RequireDiskEnc | Protocol
    | PublicHostname | HostnameService | TunnelName

  /** The labels of the case statement; anything else, and a call for help, ends the script. */
  function FlagOf(text: string): Option<Flag> {
    match text
    case "--role" => Some(RoleFlag)
    case "--tier" => Some(TierFlag)
    case "--no-fips" => Some(NoFIPS)
    case "--with-cf" => Some(WithCF)
    case "--check" => Some(CheckOnly)
    case "--tunnel-token" => Some(TunnelToken)
    case "--enrollment-token" => Some(EnrollmentToken)
    case "--controller-url" => Some(ControllerURL)
    case "--admin-key" => Some(AdminKey)
    case "--node-name" => Some(NodeName)
    case "--node-region" => Some(NodeRegion)
    case "--cert" => Some(Cert)
    case "--key" => Some(Key)
    case "--upstream" => Some(Upstream)
    case "--cf-api-token" => Some(CFAPIToken)
    case "--cf-zone-id" => Some(CFZoneID)
    case "--cf-account-id" => Some(CFAccountID)
    case "--cf-tunnel-id" => Some(CFTunnelID)
    case "--service-host" => Some(ServiceHost)
    case "--service-port" => Some(ServicePort)
    case "--service-name" => Some(ServiceName)
    case "--service-tls" => Some(ServiceTLS)
    case "--enforcement-mode" => Some(EnforcementMode)
    case "--require-os-fips" => Some(RequireOSFIPS)
    case "--require-disk-enc" => Some(RequireDiskEnc)
    case "--protocol" => Some(Protocol)
    case "--public-hostname" => Some(PublicHostname)
    case "--hostname-service" => Some(HostnameService)
    case "--tunnel-name" => Some(TunnelName)
    case _ => None
  }

  function FlagText(f: Flag): string {
    match f
    case RoleFlag => "--role"
    case TierFlag => "--tier"
    case NoFIPS => "--no-fips"
    case WithCF => "--with-cf"
    case CheckOnly => "--check"
    case TunnelToken => "--tunnel-token"
    case EnrollmentToken => "--enrollment-token"
    case ControllerURL => "--controller-url"
    case AdminKey => "--admin-key"
    case NodeName => "--node-name"
    case NodeRegion => "--node-region"
    case Cert => "--cert"
    case Key => "--key"
    case Upstream => "--upstream"
    case CFAPIToken => "--cf-api-token"
    case CFZoneID => "--cf-zone-id"
    case CFAccountID => "--cf-account-id"
    case CFTunnelID => "--cf-tunnel-id"
    case ServiceHost => "--service-host"
    case ServicePort => "--service-port"
    case ServiceName => "--service-name"
    case ServiceTLS => "--service-tls"
    case EnforcementMode => "--enforcement-mode"
    case RequireOSFIPS => "--require-os-fips"
    case RequireDiskEnc => "--require-disk-enc"
    case Protocol => "--protocol"
    case PublicHostname => "--public-hostname"
    case HostnameService => "--hostname-service"
    case TunnelName => "--tunnel-name"
  }

  /** Each option is read as itself. */
  lemma LabelReads(f: Flag)
    ensures FlagOf(FlagText(f)) == Some(f)
  {
    FirstLabels(f);
    MiddleLabels(f);
    LastLabels(f);
  }

  lemma FirstLabels(f: Flag)
    ensures f in {RoleFlag, TierFlag, NoFIPS, WithCF, CheckOnly, TunnelToken, EnrollmentToken, ControllerURL, AdminKey, NodeName} ==> FlagOf(FlagText(f)) == Some(f)
  {
  }

  lemma MiddleLabels(f: Flag)
    ensures f in {NodeRegion, Cert, Key, Upstream, CFAPIToken, CFZoneID, CFAccountID, CFTunnelID, ServiceHost, ServicePort} ==> FlagOf(FlagText(f)) == Some(f)
  {
  }

  lemma LastLabels(f: Flag)
    ensures f in {ServiceName, ServiceTLS, EnforcementMode, RequireOSFIPS, RequireDiskEnc, Protocol, PublicHostname, HostnameService, TunnelName} ==> FlagOf(FlagText(f)) == Some(f)
  {
  }

  /** The macOS script has fewer options, and one of its own. */
  predicate Knows(p: Platform, f: Flag) {
    match p
    case Linux => f != CheckOnly
    case MacOS => f != WithCF && f != PublicHostname && f != HostnameService && f != TunnelName
  }

  /** Options that take no value. */
  predicate Bare(f: Flag) {
    f == NoFIPS || f == WithCF || f == CheckOnly || f == ServiceTLS || f == RequireOSFIPS || f == RequireDiskEnc
  }

  /** The variables set so far. */
  type Settings = map<Flag, string>

  /** The loop over the arguments; None when the script stops, at an unknown option or a missing value. */
  function Read(p: Platform, args: seq<string>, m: Settings): Option<Settings>
    decreases |args|
  {
    if args == [] then Some(m) else
      match FlagOf(args[0])
      case None => None
      case Some(f) =>
        if !Knows(p, f) then None
        else if Bare(f) then Read(p, args[1..], m[f := "true"])
        else if |args| < 2 then None
        else Read(p, args[2..], m[f := args[1]])
  }

  // ---- what the configuration asks for, option by option ----

  function If(on: bool, value: string): string {
    if on then value else ""
  }

  /** The value that the option should get; empty when it should not be given. */
  function Wish(cfg: Config, f: Flag): string {
    var controller, server, proxy := cfg.role == "controller", cfg.role == "server", cfg.role == "proxy";
    match f
    case RoleFlag => cfg.role
    case TierFlag => TierNumber(cfg.deploymentTier)
    case TunnelToken => If(controller || proxy, cfg.tunnelToken)
    case AdminKey => If(controller, cfg.adminKey)
    case EnforcementMode => If(controller, cfg.enforcementMode)
    case RequireOSFIPS => If(controller && cfg.requireOSFIPS, "true")
    case RequireDiskEnc => If(controller && cfg.requireDiskEnc, "true")
    case ServiceName => If(server, cfg.serviceName)
    case ServiceHost => If(server, cfg.serviceHost)
    case ServicePort => if server && cfg.servicePort > 0 then Decimal(cfg.servicePort) else ""
    case ServiceTLS => If(server && cfg.serviceTLS, "true")
    case Protocol => If(proxy, cfg.protocol)
    case Cert => If(proxy, cfg.proxyCertFile)
    case Key => If(proxy, cfg.proxyKeyFile)
    case ControllerURL => If(!controller, cfg.controllerURL)
    case EnrollmentToken => If(!controller, cfg.enrollmentToken)
    case NodeName => cfg.nodeName
    case NodeRegion => cfg.nodeRegion
    case PublicHostname => If(controller, cfg.publicHostname)
    case HostnameService => If(controller, cfg.hostnameService)
    case CFAPIToken => If(controller, cfg.cfAPIToken)
    case CFZoneID => If(controller, cfg.zoneID)
    case CFAccountID => If(controller, cfg.accountID)
    case CFTunnelID => If(controller, cfg.tunnelID)
    case TunnelName => If(controller, cfg.tunnelName)
    case NoFIPS => If(cfg.skipFIPS, "true")
    case _ => ""
  }

  /** The role is given even if it is empty. */
  predicate Given(cfg: Config, f: Flag) {
    f == RoleFlag || Wish(cfg, f) != ""
  }

  /** The script does not know one of the options that are given. */
  predicate Stops(p: Platform, cfg: Config, done: set<Flag>) {
    exists f <- done :: Given(cfg, f) && !Knows(p, f)
  }

  function Assigned(cfg: Config, done: set<Flag>): Settings {
    map f | f in done && Given(cfg, f) :: Wish(cfg, f)
  }

  /** What the loop has come to once it has seen the options in `done`. */
  function Sofar(p: Platform, cfg: Config, done: set<Flag>): Option<Settings> {
    if Stops(p, cfg, done) then None else Some(Assigned(cfg, done))
  }

  /** Reading the part takes the loop from one point to the other, whatever follows. */
  ghost predicate Reads(p: Platform, part: seq<string>, from: Option<Settings>, to: Option<Settings>) {
    if from.None? then to.None?
    else forall rest ::
      Read(p, part + rest, from.value) == if to.None? then None else Read(p, rest, to.value)
  }

  lemma ReadsThen(p: Platform, a: seq<string>, b: seq<string>, from: Option<Settings>, mid: Option<Settings>,
                  to: Option<Settings>)
    requires Reads(p, a, from, mid) && Reads(p, b, mid, to)
    ensures Reads(p, a + b, from, to)
  {
    if from.Some? {
      forall rest
        ensures Read(p, a + b + rest, from.value) == if to.None? then None else Read(p, rest, to.value)
      {
        assert a + b + rest == a + (b + rest);
      }
    }
  }

  lemma StopsMore(p: Platform, cfg: Config, done: set<Flag>, f: Flag)
    ensures Stops(p, cfg, done + {f}) <==> Stops(p, cfg, done) || (Given(cfg, f) && !Knows(p, f))
  {
    if Stops(p, cfg, done) {
      var g :| g in done && Given(cfg, g) && !Knows(p, g);
      assert g in done + {f};
    }
    assert f in done + {f};
  }

  lemma AssignedMore(cfg: Config, done: set<Flag>, f: Flag)
    ensures Assigned(cfg, done + {f}) == if Given(cfg, f) then Assigned(cfg, done)[f := Wish(cfg, f)] else Assigned(cfg, done)
  {
  }

  lemma SofarMore(p: Platform, cfg: Config, done: set<Flag>, f: Flag)
    ensures Sofar(p, cfg, done + {f})
         == if !Given(cfg, f) then Sofar(p, cfg, done)
            else if Sofar(p, cfg, done).None? || !Knows(p, f) then None
            else Some(Sofar(p, cfg, done).value[f := Wish(cfg, f)])
  {
    StopsMore(p, cfg, done, f);
    AssignedMore(cfg, done, f);
  }

  lemma ReadsNothing(p: Platform, at: Option<Settings>)
    ensures Reads(p, [], at, at)
  {
    assert forall rest: seq<string> :: [] + rest == rest;
  }

  /** An option with its value, and a bare one. */
  lemma ReadsOne(p: Platform, f: Flag, v: string, m: Settings)
    ensures !Bare(f) ==> Reads(p, [FlagText(f), v], Some(m), if Knows(p, f) then Some(m[f := v]) else None)
    ensures Bare(f) ==> Reads(p, [FlagText(f)], Some(m), if Knows(p, f) then Some(m[f := "true"]) else None)
  {
    LabelReads(f);
    var text := FlagText(f);
    forall rest: seq<string>
      ensures ([text, v] + rest)[0] == text && ([text, v] + rest)[1] == v && ([text, v] + rest)[2..] == rest
      ensures ([text] + rest)[0] == text && ([text] + rest)[1..] == rest
    {
    }
  }

  /** An option as the wizard emits it: not at all without a value, bare if it takes none. */
  function Emit(f: Flag, value: string): seq<string> {
    if value == "" then [] else if Bare(f) then [FlagText(f)] else [FlagText(f), value]
  }

  /** The option carries what the configuration asks for. */
  predicate Right(cfg: Config, f: Flag, value: string) {
    f != RoleFlag && value == Wish(cfg, f) && (Bare(f) ==> value == "" || value == "true")
  }

  lemma EmitRead(p: Platform, cfg: Config, f: Flag, value: string, done: set<Flag>, more: seq<string>)
    requires Right(cfg, f, value) && more == Emit(f, value)
    ensures Reads(p, more, Sofar(p, cfg, done), Sofar(p, cfg, done + {f}))
  {
    SofarMore(p, cfg, done, f);
    ReadsNothing(p, Sofar(p, cfg, done));
    if Sofar(p, cfg, done).Some? {
      ReadsOne(p, f, value, Sofar(p, cfg, done).value);
    }
  }

  lemma MoreRead(p: Platform, cfg: Config, part: seq<string>, from: Option<Settings>, done: set<Flag>, f: Flag,
                 value: string, more: seq<string>)
    requires Right(cfg, f, value) && Reads(p, part, from, Sofar(p, cfg, done)) && more == Emit(f, value)
    ensures Reads(p, part + more, from, Sofar(p, cfg, done + {f}))
  {
    EmitRead(p, cfg, f, value, done, more);
    ReadsThen(p, part, more, from, Sofar(p, cfg, done), Sofar(p, cfg, done + {f}));
  }

  /** Two more options, and four from the start. */
  lemma TwoMore(p: Platform, cfg: Config, part: seq<string>, from: Option<Settings>, done: set<Flag>,
                f: Flag, x: string, s: seq<string>, g: Flag, y: string, t: seq<string>)
    requires Reads(p, part, from, Sofar(p, cfg, done)) && Right(cfg, f, x) && Right(cfg, g, y)
    requires s == Emit(f, x) && t == Emit(g, y)
    ensures Reads(p, part + s + t, from, Sofar(p, cfg, done + {f} + {g}))
  {
    MoreRead(p, cfg, part, from, done, f, x, s);
    MoreRead(p, cfg, part + s, from, done + {f}, g, y, t);
  }

  lemma FourRead(p: Platform, cfg: Config, done: set<Flag>, f: Flag, x: string, s: seq<string>,
                 g: Flag, y: string, t: seq<string>, h: Flag, z: string, u: seq<string>, i: Flag, w: string, v: seq<string>)
    requires Right(cfg, f, x) && Right(cfg, g, y) && Right(cfg, h, z) && Right(cfg, i, w)
    requires s == Emit(f, x) && t == Emit(g, y) && u == Emit(h, z) && v == Emit(i, w)
    ensures Reads(p, s + t + u + v, Sofar(p, cfg, done), Sofar(p, cfg, done + {f} + {g} + {h} + {i}))
  {
    EmitRead(p, cfg, f, x, done, s);
    MoreRead(p, cfg, s, Sofar(p, cfg, done), done + {f}, g, y, t);
    TwoMore(p, cfg, s + t, Sofar(p, cfg, done), done + {f} + {g}, h, z, u, i, w, v);
  }

  // ---- the segments of the argument list ----

  /** An option of the list, with the part of the list that it contributes. */
  predicate Listed(cfg: Config, f: Flag, value: string, part: seq<string>) {
    Right(cfg, f, value) && part == Emit(f, value)
  }

  const HEAD := {RoleFlag} + {TierFlag}

  lemma HeadRead(p: Platform, cfg: Config)
    ensures Reads(p, ["--role", cfg.role, "--tier", TierNumber(cfg.deploymentTier)], Sofar(p, cfg, {}), Sofar(p, cfg, HEAD))
  {
    ReadsOne(p, RoleFlag, cfg.role, map[]);
    SofarMore(p, cfg, {}, RoleFlag);
    assert {} + {RoleFlag} == {RoleFlag};
    assert Sofar(p, cfg, {}) == Some(map[]);
    EmitRead(p, cfg, TierFlag, TierNumber(cfg.deploymentTier), {RoleFlag}, ["--tier", TierNumber(cfg.deploymentTier)]);
    ReadsThen(p, ["--role", cfg.role], ["--tier", TierNumber(cfg.deploymentTier)],
              Sofar(p, cfg, {}), Sofar(p, cfg, {RoleFlag}), Sofar(p, cfg, HEAD));
    assert ["--role", cfg.role] + ["--tier", TierNumber(cfg.deploymentTier)]
        == ["--role", cfg.role, "--tier", TierNumber(cfg.deploymentTier)];
  }

  lemma ControllerOptions(cfg: Config)
    requires cfg.role == "controller"
    ensures Listed(cfg, TunnelToken, cfg.tunnelToken, Flagged("--tunnel-token", cfg.tunnelToken))
    ensures Listed(cfg, AdminKey, cfg.adminKey, Flagged("--admin-key", cfg.adminKey))
    ensures Listed(cfg, EnforcementMode, cfg.enforcementMode, Flagged("--enforcement-mode", cfg.enforcementMode))
    ensures Listed(cfg, RequireOSFIPS, If(cfg.requireOSFIPS, "true"), Switch("--require-os-fips", cfg.requireOSFIPS))
    ensures Listed(cfg, RequireDiskEnc, If(cfg.requireDiskEnc, "true"), Switch("--require-disk-enc", cfg.requireDiskEnc))
  {
  }

  lemma ServerOptions(cfg: Config)
    requires cfg.role == "server"
    ensures Listed(cfg, ServiceName, cfg.serviceName, Flagged("--service-name", cfg.serviceName))
    ensures Listed(cfg, ServiceHost, cfg.serviceHost, Flagged("--service-host", cfg.serviceHost))
    ensures Listed(cfg, ServicePort, if cfg.servicePort > 0 then Decimal(cfg.servicePort) else "", if cfg.servicePort > 0 then ["--service-port", Decimal(cfg.servicePort)] else [])
    ensures Listed(cfg, ServiceTLS, If(cfg.serviceTLS, "true"), Switch("--service-tls", cfg.serviceTLS))
  {
  }

  lemma ProxyOptions(cfg: Config)
    requires cfg.role == "proxy"
    ensures Listed(cfg, TunnelToken, cfg.tunnelToken, Flagged("--tunnel-token", cfg.tunnelToken))
    ensures Listed(cfg, Protocol, cfg.protocol, Flagged("--protocol", cfg.protocol))
    ensures Listed(cfg, Cert, cfg.proxyCertFile, Flagged("--cert", cfg.proxyCertFile))
    ensures Listed(cfg, Key, cfg.proxyKeyFile, Flagged("--key", cfg.proxyKeyFile))
  {
  }

  lemma HostnameOptions(cfg: Config)
    requires cfg.role == "controller"
    ensures Listed(cfg, PublicHostname, cfg.publicHostname, Flagged("--public-hostname", cfg.publicHostname))
    ensures Listed(cfg, HostnameService, cfg.hostnameService, Flagged("--hostname-service", cfg.hostnameService))
    ensures Listed(cfg, CFAPIToken, cfg.cfAPIToken, Flagged("--cf-api-token", cfg.cfAPIToken))
    ensures Listed(cfg, CFZoneID, cfg.zoneID, Flagged("--cf-zone-id", cfg.zoneID))
  {
  }

  lemma TunnelOptions(cfg: Config)
    requires cfg.role == "controller"
    ensures Listed(cfg, CFAccountID, cfg.accountID, Flagged("--cf-account-id", cfg.accountID))
    ensures Listed(cfg, CFTunnelID, cfg.tunnelID, Flagged("--cf-tunnel-id", cfg.tunnelID))
    ensures Listed(cfg, TunnelName, cfg.tunnelName, Flagged("--tunnel-name", cfg.tunnelName))
  {
  }

  /** The options seen once the role's own segment has been read. */
  function RoleOptions(role: string, d: set<Flag>): set<Flag> {
    if role == "controller" then d + {TunnelToken} + {AdminKey} + {EnforcementMode} + {RequireOSFIPS} + {RequireDiskEnc}
    else if role == "server" then d + {ServiceName} + {ServiceHost} + {ServicePort} + {ServiceTLS}
    else if role == "proxy" then d + {TunnelToken} + {Protocol} + {Cert} + {Key}
    else d
  }

  lemma ServerRead(p: Platform, cfg: Config, d: set<Flag>)
    requires cfg.role == "server"
    ensures Reads(p, RoleArgs(cfg), Sofar(p, cfg, d), Sofar(p, cfg, RoleOptions(cfg.role, d)))
  {
    ServerOptions(cfg);
    FourRead(p, cfg, d,
             ServiceName, cfg.serviceName, Flagged("--service-name", cfg.serviceName),
             ServiceHost, cfg.serviceHost, Flagged("--service-host", cfg.serviceHost),
             ServicePort, if cfg.servicePort > 0 then Decimal(cfg.servicePort) else "", if cfg.servicePort > 0 then ["--service-port", Decimal(cfg.servicePort)] else [],
             ServiceTLS, If(cfg.serviceTLS, "true"), Switch("--service-tls", cfg.serviceTLS));
  }

  lemma ProxyRead(p: Platform, cfg: Config, d: set<Flag>)
    requires cfg.role == "proxy"
    ensures Reads(p, RoleArgs(cfg), Sofar(p, cfg, d), Sofar(p, cfg, RoleOptions(cfg.role, d)))
  {
    ProxyOptions(cfg);
    FourRead(p, cfg, d,
             TunnelToken, cfg.tunnelToken, Flagged("--tunnel-token", cfg.tunnelToken),
             Protocol, cfg.protocol, Flagged("--protocol", cfg.protocol),
             Cert, cfg.proxyCertFile, Flagged("--cert", cfg.proxyCertFile),
             Key, cfg.proxyKeyFile, Flagged("--key", cfg.proxyKeyFile));
  }

  lemma ControllerRead(p: Platform, cfg: Config, d: set<Flag>)
    requires cfg.role == "controller"
    ensures Reads(p, RoleArgs(cfg), Sofar(p, cfg, d), Sofar(p, cfg, RoleOptions(cfg.role, d)))
  {
    ControllerOptions(cfg);
    FourRead(p, cfg, d,
             TunnelToken, cfg.tunnelToken, Flagged("--tunnel-token", cfg.tunnelToken),
             AdminKey, cfg.adminKey, Flagged("--admin-key", cfg.adminKey),
             EnforcementMode, cfg.enforcementMode, Flagged("--enforcement-mode", cfg.enforcementMode),
             RequireOSFIPS, If(cfg.requireOSFIPS, "true"), Switch("--require-os-fips", cfg.requireOSFIPS));
    MoreRead(p, cfg, Flagged("--tunnel-token", cfg.tunnelToken) + Flagged("--admin-key", cfg.adminKey)
                     + Flagged("--enforcement-mode", cfg.enforcementMode) + Switch("--require-os-fips", cfg.requireOSFIPS),
             Sofar(p, cfg, d), d + {TunnelToken} + {AdminKey} + {EnforcementMode} + {RequireOSFIPS},
             RequireDiskEnc, If(cfg.requireDiskEnc, "true"), Switch("--require-disk-enc", cfg.requireDiskEnc));
  }

  lemma HostnameRead(p: Platform, cfg: Config, d: set<Flag>)
    requires cfg.role == "controller"
    ensures Reads(p, Flagged("--public-hostname", cfg.publicHostname) + Flagged("--hostname-service", cfg.hostnameService)
                     + Flagged("--cf-api-token", cfg.cfAPIToken) + Flagged("--cf-zone-id", cfg.zoneID),
                  Sofar(p, cfg, d), Sofar(p, cfg, d + {PublicHostname} + {HostnameService} + {CFAPIToken} + {CFZoneID}))
  {
    HostnameOptions(cfg);
    FourRead(p, cfg, d,
             PublicHostname, cfg.publicHostname, Flagged("--public-hostname", cfg.publicHostname),
             HostnameService, cfg.hostnameService, Flagged("--hostname-service", cfg.hostnameService),
             CFAPIToken, cfg.cfAPIToken, Flagged("--cf-api-token", cfg.cfAPIToken),
             CFZoneID, cfg.zoneID, Flagged("--cf-zone-id", cfg.zoneID));
  }

  lemma TunnelRead(p: Platform, cfg: Config, part: seq<string>, from: Option<Settings>, d: set<Flag>)
    requires cfg.role == "controller" && Reads(p, part, from, Sofar(p, cfg, d))
    ensures Reads(p, part + Flagged("--cf-account-id", cfg.accountID) + Flagged("--cf-tunnel-id", cfg.tunnelID)
                     + Flagged("--tunnel-name", cfg.tunnelName),
                  from, Sofar(p, cfg, d + {CFAccountID} + {CFTunnelID} + {TunnelName}))
  {
    TunnelOptions(cfg);
    TwoMore(p, cfg, part, from, d, CFAccountID, cfg.accountID, Flagged("--cf-account-id", cfg.accountID),
            CFTunnelID, cfg.tunnelID, Flagged("--cf-tunnel-id", cfg.tunnelID));
    MoreRead(p, cfg, part + Flagged("--cf-account-id", cfg.accountID) + Flagged("--cf-tunnel-id", cfg.tunnelID), from,
             d + {CFAccountID} + {CFTunnelID}, TunnelName, cfg.tunnelName, Flagged("--tunnel-name", cfg.tunnelName));
  }

  function CloudOptions(role: string, d: set<Flag>): set<Flag> {
    if role == "controller" then d + {PublicHostname} + {HostnameService} + {CFAPIToken} + {CFZoneID}
                                 + {CFAccountID} + {CFTunnelID} + {TunnelName} else d
  }

  lemma CloudflareRead(p: Platform, cfg: Config, d: set<Flag>)
    requires cfg.role == "controller"
    ensures Reads(p, CloudflareArgs(cfg), Sofar(p, cfg, d), Sofar(p, cfg, CloudOptions(cfg.role, d)))
  {
    HostnameRead(p, cfg, d);
    TunnelRead(p, cfg, Flagged("--public-hostname", cfg.publicHostname) + Flagged("--hostname-service", cfg.hostnameService)
                     + Flagged("--cf-api-token", cfg.cfAPIToken) + Flagged("--cf-zone-id", cfg.zoneID),
               Sofar(p, cfg, d), d + {PublicHostname} + {HostnameService} + {CFAPIToken} + {CFZoneID});
  }

  lemma RoleRead(p: Platform, cfg: Config, d: set<Flag>)
    ensures Reads(p, RoleArgs(cfg), Sofar(p, cfg, d), Sofar(p, cfg, RoleOptions(cfg.role, d)))
  {
    if cfg.role == "controller" {
      ControllerRead(p, cfg, d);
    } else if cfg.role == "server" {
      ServerRead(p, cfg, d);
    } else if cfg.role == "proxy" {
      ProxyRead(p, cfg, d);
    } else {
      ReadsNothing(p, Sofar(p, cfg, d));
    }
  }

  function EnrollmentArgs(cfg: Config): seq<string> {
    if cfg.role == "controller" then []
    else Flagged("--controller-url", cfg.controllerURL) + Flagged("--enrollment-token", cfg.enrollmentToken)
  }

  function EnrollmentOptions(role: string, d: set<Flag>): set<Flag> {
    if role == "controller" then d else d + {ControllerURL} + {EnrollmentToken}
  }

  /** Options that do not depend on the role, or only on its not being a controller. */
  lemma CommonOptions(cfg: Config)
    ensures cfg.role != "controller" ==>
      && Listed(cfg, ControllerURL, cfg.controllerURL, Flagged("--controller-url", cfg.controllerURL))
      && Listed(cfg, EnrollmentToken, cfg.enrollmentToken, Flagged("--enrollment-token", cfg.enrollmentToken))
    ensures Listed(cfg, NodeName, cfg.nodeName, Flagged("--node-name", cfg.nodeName))
    ensures Listed(cfg, NodeRegion, cfg.nodeRegion, Flagged("--node-region", cfg.nodeRegion))
    ensures Listed(cfg, NoFIPS, If(cfg.skipFIPS, "true"), Switch("--no-fips", cfg.skipFIPS))
  {
  }

  lemma EnrollmentRead(p: Platform, cfg: Config, d: set<Flag>)
    ensures Reads(p, EnrollmentArgs(cfg), Sofar(p, cfg, d), Sofar(p, cfg, EnrollmentOptions(cfg.role, d)))
  {
    if cfg.role == "controller" {
      ReadsNothing(p, Sofar(p, cfg, d));
    } else {
      CommonOptions(cfg);
      EmitRead(p, cfg, ControllerURL, cfg.controllerURL, d, Flagged("--controller-url", cfg.controllerURL));
      MoreRead(p, cfg, Flagged("--controller-url", cfg.controllerURL), Sofar(p, cfg, d), d + {ControllerURL},
               EnrollmentToken, cfg.enrollmentToken, Flagged("--enrollment-token", cfg.enrollmentToken));
    }
  }

  lemma CloudRead(p: Platform, cfg: Config, d: set<Flag>)
    ensures Reads(p, if cfg.role == "controller" then CloudflareArgs(cfg) else [], Sofar(p, cfg, d),
                  Sofar(p, cfg, CloudOptions(cfg.role, d)))
  {
    if cfg.role == "controller" {
      CloudflareRead(p, cfg, d);
    } else {
      ReadsNothing(p, Sofar(p, cfg, d));
    }
  }

  function FrontArgs(cfg: Config): seq<string> {
    ["--role", cfg.role, "--tier", TierNumber(cfg.deploymentTier)] + RoleArgs(cfg) + EnrollmentArgs(cfg)
  }

  function FrontOptions(role: string): set<Flag> {
    EnrollmentOptions(role, RoleOptions(role, HEAD))
  }

  lemma FrontRead(p: Platform, cfg: Config)
    ensures Reads(p, FrontArgs(cfg), Sofar(p, cfg, {}), Sofar(p, cfg, FrontOptions(cfg.role)))
  {
    HeadRead(p, cfg);
    RoleRead(p, cfg, HEAD);
    EnrollmentRead(p, cfg, RoleOptions(cfg.role, HEAD));
    ReadsThree(p, ["--role", cfg.role, "--tier", TierNumber(cfg.deploymentTier)], RoleArgs(cfg), EnrollmentArgs(cfg),
               Sofar(p, cfg, {}), Sofar(p, cfg, HEAD), Sofar(p, cfg, RoleOptions(cfg.role, HEAD)),
               Sofar(p, cfg, FrontOptions(cfg.role)));
  }

  /** Three parts in a row. */
  lemma ReadsThree(p: Platform, a: seq<string>, b: seq<string>, c: seq<string>, w: Option<Settings>, x: Option<Settings>,
                   y: Option<Settings>, z: Option<Settings>)
    requires Reads(p, a, w, x) && Reads(p, b, x, y) && Reads(p, c, y, z)
    ensures Reads(p, a + b + c, w, z)
  {
    ReadsThen(p, a, b, w, x, y);
    ReadsThen(p, a + b, c, w, y, z);
  }

  lemma NamesRead(p: Platform, cfg: Config, part: seq<string>, from: Option<Settings>, d: set<Flag>)
    requires Reads(p, part, from, Sofar(p, cfg, d))
    ensures Reads(p, part + Flagged("--node-name", cfg.nodeName) + Flagged("--node-region", cfg.nodeRegion), from,
                  Sofar(p, cfg, d + {NodeName} + {NodeRegion}))
  {
    CommonOptions(cfg);
    TwoMore(p, cfg, part, from, d, NodeName, cfg.nodeName, Flagged("--node-name", cfg.nodeName),
            NodeRegion, cfg.nodeRegion, Flagged("--node-region", cfg.nodeRegion));
  }

  /** The tail of the argument list. */
  lemma TailRead(p: Platform, cfg: Config, part: seq<string>, from: Option<Settings>, d: set<Flag>)
    requires Reads(p, part, from, Sofar(p, cfg, d))
    ensures Reads(p, part + (if cfg.role == "controller" then CloudflareArgs(cfg) else []) + Switch("--no-fips", cfg.skipFIPS),
                  from, Sofar(p, cfg, CloudOptions(cfg.role, d) + {NoFIPS}))
  {
    var cloud := if cfg.role == "controller" then CloudflareArgs(cfg) else [];
    CloudRead(p, cfg, d);
    ReadsThen(p, part, cloud, from, Sofar(p, cfg, d), Sofar(p, cfg, CloudOptions(cfg.role, d)));
    CommonOptions(cfg);
    MoreRead(p, cfg, part + cloud, from, CloudOptions(cfg.role, d), NoFIPS, If(cfg.skipFIPS, "true"),
             Switch("--no-fips", cfg.skipFIPS));
  }

  function AllOptions(role: string): set<Flag> {
    CloudOptions(role, FrontOptions(role) + {NodeName} + {NodeRegion}) + {NoFIPS}
  }

  lemma ArgsRead(p: Platform, cfg: Config)
    ensures Reads(p, ProvisionArgs(cfg), Sofar(p, cfg, {}), Sofar(p, cfg, AllOptions(cfg.role)))
  {
    var from, d := Sofar(p, cfg, {}), FrontOptions(cfg.role);
    FrontRead(p, cfg);
    NamesRead(p, cfg, FrontArgs(cfg), from, d);
    TailRead(p, cfg, FrontArgs(cfg) + Flagged("--node-name", cfg.nodeName) + Flagged("--node-region", cfg.nodeRegion), from,
             d + {NodeName} + {NodeRegion});
  }

  // ---- main results ----

  /** The one thing the wizard asks for that a script does not know. */
  predicate Unknown(p: Platform, cfg: Config) {
    p == MacOS && cfg.role == "controller" && (cfg.publicHostname != "" || cfg.hostnameService != "" || cfg.tunnelName != "")
  }

  /** Only options of the role's list are asked for. */
  lemma GivenIsListed(cfg: Config, f: Flag)
    requires Given(cfg, f)
    ensures f in AllOptions(cfg.role)
  {
    if cfg.role == "controller" {
      ControllerGiven(cfg, f);
    } else if cfg.role == "server" {
      ServerGiven(cfg, f);
    } else if cfg.role == "proxy" {
      ProxyGiven(cfg, f);
    } else {
      OtherGiven(cfg, f);
    }
  }

  lemma ControllerGiven(cfg: Config, f: Flag)
    requires Given(cfg, f) && cfg.role == "controller"
    ensures f in AllOptions("controller")
  {
  }

  lemma ServerGiven(cfg: Config, f: Flag)
    requires Given(cfg, f) && cfg.role == "server"
    ensures f in AllOptions("server")
  {
  }

  lemma ProxyGiven(cfg: Config, f: Flag)
    requires Given(cfg, f) && cfg.role == "proxy"
    ensures f in AllOptions("proxy")
  {
  }

  lemma OtherGiven(cfg: Config, f: Flag)
    requires Given(cfg, f) && cfg.role != "controller" && cfg.role != "server" && cfg.role != "proxy"
    ensures f in AllOptions(cfg.role)
  {
  }

  lemma GivenIsKnown(p: Platform, cfg: Config, f: Flag)
    requires Given(cfg, f) && !Knows(p, f)
    ensures Unknown(p, cfg) && f in AllOptions(cfg.role)
  {
    GivenIsListed(cfg, f);
  }

  /** A given option that the script does not know. */
  function Offending(cfg: Config): Flag {
    if cfg.publicHostname != "" then PublicHostname else if cfg.hostnameService != "" then HostnameService else TunnelName
  }

  lemma OffendingIsUnknown(p: Platform, cfg: Config)
    requires Unknown(p, cfg)
    ensures Given(cfg, Offending(cfg)) && !Knows(p, Offending(cfg))
  {
  }

  lemma StopsIfUnknown(p: Platform, cfg: Config)
    ensures Sofar(p, cfg, AllOptions(cfg.role)).None? <==> Unknown(p, cfg)
  {
    if Unknown(p, cfg) {
      OffendingIsUnknown(p, cfg);
      GivenIsKnown(p, cfg, Offending(cfg));
    }
    forall f | Given(cfg, f) && !Knows(p, f)
      ensures Unknown(p, cfg)
    {
      GivenIsKnown(p, cfg, f);
    }
  }

  /** Reading the built arguments, the script stops if and only if it is the one for macOS and the configuration is a
      controller's with a hostname, a hostname service or a tunnel name. Otherwise each option ends with exactly the
      value of its own field, and no other option is set. */
  lemma {:induction false} ScriptReadsConfig(p: Platform, cfg: Config)
    ensures match Read(p, ProvisionArgs(cfg), map[])
      case None => Unknown(p, cfg)
      case Some(m) =>
        && !Unknown(p, cfg)
        && forall f :: (f in m <==> Given(cfg, f)) && (f in m ==> m[f] == Wish(cfg, f))
  {
    ArgsRead(p, cfg);
    StopsIfUnknown(p, cfg);
    assert Sofar(p, cfg, {}) == Some(map[]);
    assert ProvisionArgs(cfg) + [] == ProvisionArgs(cfg);
    forall f | Given(cfg, f)
      ensures f in AllOptions(cfg.role)
    {
      GivenIsListed(cfg, f);
    }
  }

  /** What the shell makes of the wizard's command line, from the script's first argument on, is read like the
      arguments themselves. */
  lemma ShellReachesScript(p: Platform, script: string, cfg: Config, root: bool)
    requires Quoteless(script) && PlainPath(script) && cfg.role != ""
    ensures match Tokenise(ShellScript(script, ProvisionArgs(cfg), root))
      case None => false
      case Some(words) =>
        var k := |Front(script, root)|;
        k <= |words| && words[..k] == Front(script, root) && Read(p, words[k..], map[]) == Read(p, ProvisionArgs(cfg), map[])
  {
    ArgumentsSurviveShell(script, cfg, root);
    var front, args := Front(script, root), ProvisionArgs(cfg);
    assert (front + args)[..|front|] == front && (front + args)[|front|..] == args;
  }

  // ---- the checks after the loop ----

  function Setting(m: Settings, f: Flag, default: string): string {
    if f in m then m[f] else default
  }

  predicate KnownRole(role: string) {
    role == "controller" || role == "server" || role == "proxy" || role == "client"
  }

  /** The role and the tier are known, and on Linux a self-hosted server or proxy has a certificate and a key. */
  predicate Accepts(p: Platform, m: Settings) {
    var role := Setting(m, RoleFlag, if p == Linux then "server" else "client");
    var tier := Setting(m, TierFlag, "1");
    && KnownRole(role) && (tier == "1" || tier == "2" || tier == "3")
    && (p == Linux && tier == "3" && (role == "server" || role == "proxy") ==>
          Setting(m, Cert, "") != "" && Setting(m, Key, "") != "")
  }

  lemma TierIsRead(tier: string)
    ensures TierNumber(tier) == "1" || TierNumber(tier) == "2" || TierNumber(tier) == "3"
    ensures TierNumber(tier) == "3" <==> tier == "self_hosted"
    ensures TierNumber(tier) == "2" <==> tier == "regional_keyless"
  {
  }

  /** Exactly the configurations that the scripts go on with. On Linux no self-hosted server is among them: the script
      wants its certificate and key, which the wizard passes on for proxies only. */
  lemma {:induction false} AcceptedConfigurations(p: Platform, cfg: Config)
    ensures var r := Read(p, ProvisionArgs(cfg), map[]);
      (r.Some? && Accepts(p, r.value)) <==>
        && KnownRole(cfg.role) && !Unknown(p, cfg)
        && (p == Linux && cfg.deploymentTier == "self_hosted" ==>
              && cfg.role != "server"
              && (cfg.role == "proxy" ==> cfg.proxyCertFile != "" && cfg.proxyKeyFile != ""))
  {
    ScriptReadsConfig(p, cfg);
    TierIsRead(cfg.deploymentTier);
    var r := Read(p, ProvisionArgs(cfg), map[]);
    if r.Some? {
      assert Given(cfg, RoleFlag) && Given(cfg, TierFlag);
      assert Setting(r.value, Cert, "") == Wish(cfg, Cert) && Setting(r.value, Key, "") == Wish(cfg, Key);
      assert Setting(r.value, TierFlag, "1") == TierNumber(cfg.deploymentTier);
    }
  }
}
