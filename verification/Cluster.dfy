/** The state that the operator's site controller works on: the API server's objects in one
    namespace, the database cluster and ProxySQL. */
module Cluster {
  import opened Options
  import opened SiteTypes
  import opened SharedObject

  /** A site's database credentials (pkg/common/db.go, pkg/controller/site/db.go). */
  datatype Database = Database(host: string, port: string, name: string, user: string, password: string)

  const PROXYSQL_HOST := "proxysql"
  const PROXYSQL_PORT := "6033"

  function DatabaseOf(name: string, password: string): Database {
    Database(PROXYSQL_HOST, PROXYSQL_PORT, DatabaseName(name), DatabaseName(name), password)
  }

  /** The Secret `<site>-password`. */
  datatype PasswordSecret = PasswordSecret(finalizers: seq<string>, deleting: bool, password: string) {
    predicate Held() {
      PASSWORD_FINALIZER in finalizers
    }
  }

  datatype CronJob = CronJob(
    name: string, labels: Labels, suspend: bool, schedule: string, concurrencyPolicy: string,
    command: seq<string>, startingDeadlineSeconds: int, template: string)

  datatype Ingress = Ingress(labels: Labels, rules: seq<IngressRule>, tls: Option<IngressTls>,
                             annotations: map<string, string>)

  type Domains = map<string, DomainMap>
  type Databases = map<string, Database>

  datatype Cluster = Cluster(
    sites: map<string, Site>,
    passwords: map<string, PasswordSecret>,
    domains: Shared<Domains>,               // ConfigMap domain-map: by site Id
    credentials: Shared<Databases>,         // Secret domain-map: by site Id
    databases: set<string>,                 // MySQL databases
    users: map<string, Option<string>>,     // MySQL users and, once set, their passwords
    proxyService: bool,                     // the ProxySQL service exists
    proxyUsers: map<string, string>,        // ProxySQL mysql_users: password by user name
    parents: map<string, Labels>,           // environments whose application exists too
    crons: seq<CronJob>,
    jobs: set<string>,
    ingresses: map<string, Ingress>,
    clock: nat,                             // the last resource version given to a Site
    ids: map<string, string>,               // history: the site that each Id was given to
    orphaned: set<string>)                  // sites whose password went before what records it
  {
    predicate Valid() {
      domains.Valid() && credentials.Valid()
    }

    function LiveDomains(): Domains
      requires Valid()
    {
      if domains.Live().Some? then domains.Live().value else map[]
    }

    function LiveCredentials(): Databases
      requires Valid()
    {
      if credentials.Live().Some? then credentials.Live().value else map[]
    }

    predicate PasswordHeld(n: string) {
      n in passwords && passwords[n].Held()
    }

    predicate SiteProtected(n: string) {
      n in sites && sites[n].Protected()
    }

    /** A password of the site is recorded outside its own Secret. */
    predicate CredentialRecorded(n: string)
      requires Valid()
    {
      || DatabaseName(n) in users
      || DatabaseName(n) in proxyUsers
      || (exists id :: id in LiveCredentials() && id in ids && ids[id] == n)
    }

    /** The API server stores an object, or drops it when it is being deleted and nothing holds it. */
    function PutSite(n: string, site: Site): Cluster {
      var stored := site.(version := clock + 1);
      this.(clock := clock + 1,
            sites := if site.deleting && site.finalizers == [] then sites - {n} else sites[n := stored])
    }

    /** Update: accepted only if the version that was read is still the stored one. */
    function UpdateSite(n: string, site: Site): Option<Cluster> {
      if n in sites && sites[n].version == site.version then Some(PutSite(n, site)) else None
    }

    function PutPassword(n: string, secret: PasswordSecret): Cluster
      requires Valid()
    {
      if secret.deleting && secret.finalizers == [] then RemovePassword(n)
      else this.(passwords := passwords[n := secret])
    }

    function RemovePassword(n: string): Cluster
      requires Valid()
    {
      this.(passwords := passwords - {n}, orphaned := if CredentialRecorded(n) then orphaned + {n} else orphaned)
    }
  }
}
