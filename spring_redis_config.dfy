/**
 * `RedisConfig` of the Spring Boot example: the choice between the
 * Enterprise and the OSS cluster policy, the resolver lambda installed
 * under the OSS policy, and the choice of Entra ID credentials by
 * `authType`.
 *
 * The class mutates no field in these members; each bean method is a
 * function of the configured properties.
 */
module SpringRedisConfig {
  import opened Wrappers
  import opened PrivateHosts
  import opened AddressRemap

  const RedisScope: string := "https://redis.azure.com"
  const AuthorityBase: string := "https://login.microsoftonline.com/"
  const OssClusterPolicy: string := "OSSCluster"
  const DefaultClusterPolicy: string := "EnterpriseCluster"
  const DefaultAuthType: string := "user-assigned-managed-identity"

  // ---------------------------------------------------------------------
  // The cluster policy.
  // ---------------------------------------------------------------------

  /** Lower case for the ASCII letters; every other character is kept. */
  function ToLowerAscii(c: char): char {
    if 'A' <= c <= 'Z' then (c as int - 'A' as int + 'a' as int) as char else c
  }

  /** String.equalsIgnoreCase, restricted to ASCII case: the same length and
      the same characters up to case. */
  predicate EqualsIgnoreCase(a: string, b: string) {
    |a| == |b| && forall i :: 0 <= i < |a| ==> ToLowerAscii(a[i]) == ToLowerAscii(b[i])
  }

  predicate IsOssCluster(clusterPolicy: string) {
    EqualsIgnoreCase(OssClusterPolicy, clusterPolicy)
  }

  /** Two ASCII characters have the same lower case exactly when they are
      equal or one is the upper case of the other. */
  lemma ToLowerAsciiSame(x: char, y: char)
    ensures ToLowerAscii(x) == ToLowerAscii(y) <==>
            x == y || ('A' <= x <= 'Z' && y as int == x as int + 32) || ('A' <= y <= 'Z' && x as int == y as int + 32)
  {
  }

  /** The policy is OSS for any capitalisation of "OSSCluster" and for
      nothing else; the default policy is not OSS. */
  lemma OssClusterSpellings()
    ensures IsOssCluster("OSSCluster") && IsOssCluster("osscluster") && IsOssCluster("OSSCLUSTER")
    ensures !IsOssCluster(DefaultClusterPolicy) && !IsOssCluster("OSS-Cluster") && !IsOssCluster("")
  {
    assert ToLowerAscii('-') != ToLowerAscii('C');
  }

  /** The test does not depend on the case of the configured policy. */
  lemma IsOssClusterIgnoresCase(p: string, q: string)
    requires EqualsIgnoreCase(p, q)
    ensures IsOssCluster(p) <==> IsOssCluster(q)
  {
  }

  // ---------------------------------------------------------------------
  // The beans that depend on the policy.
  // ---------------------------------------------------------------------

  /** What `clientResources` builds: the default resources, or resources
      whose socket-address resolver applies `ResolveHost` with the
      configured hostname. */
  datatype ClientResources = DefaultResources | MappingResources(redisHostname: string)

  function ClientResourcesFor(clusterPolicy: string, redisHostname: string): ClientResources {
    if !IsOssCluster(clusterPolicy) then DefaultResources else MappingResources(redisHostname)
  }

  /** A client bean; `None` is the `null` a bean method returns when the
      other policy is active. */
  datatype Client = StandardClient | ClusterClient

  function RedisClientFor(clusterPolicy: string): Option<Client> {
    if IsOssCluster(clusterPolicy) then None else Some(StandardClient)
  }

  function RedisClusterClientFor(clusterPolicy: string): Option<Client> {
    if !IsOssCluster(clusterPolicy) then None else Some(ClusterClient)
  }

  /** Exactly one client is created, and the mapping resolver is installed
      exactly when it is the cluster client. */
  lemma ExactlyOneClient(clusterPolicy: string, redisHostname: string)
    ensures RedisClientFor(clusterPolicy).Some? != RedisClusterClientFor(clusterPolicy).Some?
    ensures RedisClusterClientFor(clusterPolicy).Some? <==>
            ClientResourcesFor(clusterPolicy, redisHostname).MappingResources?
    ensures RedisClusterClientFor(clusterPolicy).Some? <==> IsOssCluster(clusterPolicy)
  {
  }

  // ---------------------------------------------------------------------
  // The resolver lambda.
  // ---------------------------------------------------------------------

  /** A private host, or the configured hostname itself, goes to the
      hostname on the same port; any other address is kept. */
  function ResolveHost(redisHostname: string, hostAndPort: HostAndPort<int>): HostAndPort<int> {
    if IsInternalIP(hostAndPort.host) || hostAndPort.host == redisHostname then
      HostAndPort(redisHostname, hostAndPort.port)
    else
      hostAndPort
  }

  /** The port is kept and the host is either the hostname or the original
      host. */
  lemma ResolveHostShape(redisHostname: string, hostAndPort: HostAndPort<int>)
    ensures ResolveHost(redisHostname, hostAndPort).port == hostAndPort.port
    ensures ResolveHost(redisHostname, hostAndPort).host == redisHostname ||
            ResolveHost(redisHostname, hostAndPort).host == hostAndPort.host
    ensures ResolveHost(redisHostname, hostAndPort).host == redisHostname <==>
            IsInternalIP(hostAndPort.host) || hostAndPort.host == redisHostname
  {
  }

  /** Idempotent with no condition on the hostname. */
  lemma ResolveHostIdempotent(redisHostname: string, hostAndPort: HostAndPort<int>)
    ensures ResolveHost(redisHostname, ResolveHost(redisHostname, hostAndPort)) ==
            ResolveHost(redisHostname, hostAndPort)
  {
  }

  /** The equality branch maps the hostname to itself, so the lambda is the
      eighteen-prefix remap of the other cluster examples; unlike the
      cached-address branch of RedisClusterConfig, it never maps a resolved
      address. */
  lemma ResolveHostIsRemap(redisHostname: string, hostAndPort: HostAndPort<int>)
    ensures ResolveHost(redisHostname, hostAndPort) == Remap(redisHostname, hostAndPort)
  {
  }

  // ---------------------------------------------------------------------
  // The credentials.
  // ---------------------------------------------------------------------

  /** The properties `redisCredentialsProvider` reads. */
  datatype AuthSettings = AuthSettings(
    authType: string,
    managedIdentityClientId: string,
    servicePrincipalClientId: string,
    servicePrincipalClientSecret: string,
    servicePrincipalTenantId: string)

  /** The token configuration it builds. */
  datatype AuthConfig =
    | UserAssignedIdentity(clientId: string, scopes: set<string>)
    | SystemAssignedIdentity(scopes: set<string>)
    | ServicePrincipal(clientId: string, secret: string, authority: string, scopes: set<string>)

  /** The switch on `authType` (exact, case-sensitive comparison); an
      unknown type is the IllegalArgumentException with its message. */
  function AuthConfigFor(settings: AuthSettings): Result<AuthConfig, string> {
    match settings.authType
    case "user-assigned-managed-identity" =>
      Ok(UserAssignedIdentity(settings.managedIdentityClientId, {RedisScope}))
    case "system-assigned-managed-identity" =>
      Ok(SystemAssignedIdentity({RedisScope}))
    case "service-principal" =>
      Ok(ServicePrincipal(settings.servicePrincipalClientId, settings.servicePrincipalClientSecret,
                          AuthorityBase + settings.servicePrincipalTenantId, {RedisScope + "/.default"}))
    case _ =>
      Err("Unknown auth type: " + settings.authType)
  }

  predicate KnownAuthType(authType: string) {
    authType == "user-assigned-managed-identity" ||
    authType == "system-assigned-managed-identity" ||
    authType == "service-principal"
  }

  /** The configuration fails exactly for the unknown types, with a message
      that names the type. */
  lemma UnknownAuthTypeFails(settings: AuthSettings)
    ensures AuthConfigFor(settings).Err? <==> !KnownAuthType(settings.authType)
    ensures AuthConfigFor(settings).Err? ==>
            AuthConfigFor(settings).error == "Unknown auth type: " + settings.authType
  {
  }

  /** Every configuration asks for exactly one scope, on the Redis
      resource; the service principal takes it with "/.default" and the
      authority of its tenant. */
  lemma AuthScopes(settings: AuthSettings)
    requires AuthConfigFor(settings).Ok?
    ensures |AuthConfigFor(settings).value.scopes| == 1
    ensures forall s :: s in AuthConfigFor(settings).value.scopes ==> StartsWith(s, RedisScope)
    ensures AuthConfigFor(settings).value.ServicePrincipal? ==>
              AuthConfigFor(settings).value.authority == AuthorityBase + settings.servicePrincipalTenantId &&
              AuthConfigFor(settings).value.scopes == {RedisScope + "/.default"}
  {
    assert (RedisScope + "/.default")[..|RedisScope|] == RedisScope;
  }

  /** With the default properties the user-assigned identity is used, under
      the Enterprise policy, with no mapping resolver. */
  lemma Defaults(settings: AuthSettings, redisHostname: string)
    requires settings.authType == DefaultAuthType
    ensures AuthConfigFor(settings) == Ok(UserAssignedIdentity(settings.managedIdentityClientId, {RedisScope}))
    ensures ClientResourcesFor(DefaultClusterPolicy, redisHostname) == DefaultResources
    ensures RedisClientFor(DefaultClusterPolicy) == Some(StandardClient)
  {
    OssClusterSpellings();
  }
}
