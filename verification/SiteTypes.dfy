/** The Site resource and the values computed from it (pkg/apis/fnresources/v1alpha1/site_types.go). */
module SiteTypes {
  import opened Options

  type Labels = map<string, string>

  const LABEL_PREFIX := "fnresources.acquia.io/"
  const APPLICATION_ID := "fnresources.acquia.io/application-id"
  const ENVIRONMENT_ID := "fnresources.acquia.io/environment-id"
  const SITE_ID := "fnresources.acquia.io/site-id"
  const GIT_REPO := "fnresources.acquia.io/git-repo"
  const GIT_REF := "fnresources.acquia.io/git-ref"

  const SITE_FINALIZER := "sites.fnresources.acquia.io"
  const PASSWORD_FINALIZER := "sites.fnresources.acquia.com/password"

  datatype CronSpec = CronSpec(name: string, command: seq<string>, schedule: string, suspend: bool,
                               concurrencyPolicy: string)

  datatype SiteSpec = SiteSpec(
    domains: seq<string>, environment: string, crons: seq<CronSpec>,
    tls: bool, ingressClass: string, certIssuer: string)

  /** `version` is the resource version; `controller` names the controlling environment, "" if none. */
  datatype Site = Site(
    version: nat, labels: Labels, finalizers: seq<string>, deleting: bool,
    controller: string, annotations: map<string, string>, spec: SiteSpec)
  {
    /** The Id label; a missing label reads as the empty string. */
    function Id(): string {
      Label(labels, SITE_ID)
    }

    function WithId(id: string): (s: Site)
      ensures s.Id() == id
    {
      this.(labels := labels[SITE_ID := id])
    }

    predicate Protected() {
      SITE_FINALIZER in finalizers
    }

    function ChildLabels(): Labels {
      map[APPLICATION_ID := Label(labels, APPLICATION_ID),
          ENVIRONMENT_ID := Label(labels, ENVIRONMENT_ID),
          SITE_ID := Label(labels, SITE_ID)]
    }
  }

  function Label(labels: Labels, key: string): string {
    if key in labels then labels[key] else ""
  }

  // ---- Database names ----

  /** strings.ReplaceAll with a one-character pattern and an empty replacement. */
  function Erase(s: string, c: char): string {
    if s == [] then []
    else if s[0] == c then Erase(s[1..], c)
    else [s[0]] + Erase(s[1..], c)
  }

  function Sanitize(s: string): string {
    Erase(Erase(Erase(Erase(s, '-'), '\''), '"'), '.')
  }

  /** The name of a site's database and of its database user. */
  function DatabaseName(name: string): string {
    Sanitize(name)
  }

  predicate Unsafe(c: char) {
    c == '-' || c == '\'' || c == '"' || c == '.'
  }

  lemma {:induction false} EraseMembers(s: string, c: char)
    ensures forall x :: x in Erase(s, c) <==> x in s && x != c
    ensures c !in s ==> Erase(s, c) == s
  {
    if s != [] {
      EraseMembers(s[1..], c);
      assert s == [s[0]] + s[1..];
    }
  }

  lemma {:induction false} EraseConcat(s: string, t: string, c: char)
    ensures Erase(s + t, c) == Erase(s, c) + Erase(t, c)
  {
    if s == [] {
      assert s + t == t;
    } else {
      assert (s + t)[1..] == s[1..] + t;
      EraseConcat(s[1..], t, c);
    }
  }

  /** The result has none of the four characters, keeps every other one, and a clean name is left
      as it is; so sanitizing is idempotent and injective on clean names. */
  lemma SanitizeCleans(s: string)
    ensures forall x :: x in Sanitize(s) <==> x in s && !Unsafe(x)
    ensures (forall x :: x in s ==> !Unsafe(x)) <==> Sanitize(s) == s
    ensures Sanitize(Sanitize(s)) == Sanitize(s)
  {
    SanitizeOnce(s);
    SanitizeOnce(Sanitize(s));
  }

  lemma SanitizeOnce(s: string)
    ensures forall x :: x in Sanitize(s) <==> x in s && !Unsafe(x)
    ensures (forall x :: x in s ==> !Unsafe(x)) ==> Sanitize(s) == s
  {
    var a := Erase(s, '-');
    var b := Erase(a, '\'');
    var d := Erase(b, '"');
    EraseMembers(s, '-');
    EraseMembers(a, '\'');
    EraseMembers(b, '"');
    EraseMembers(d, '.');
  }

  lemma EraseSingle(x: char, c: char)
    ensures Erase([x], c) == if x == c then [] else [x]
    ensures Erase([], c) == []
  {
    assert [x][1..] == [];
  }

  /** Sanitizing works character by character, so it ignores any unsafe character anywhere: inserting
      one anywhere in a name collides with the name. */
  lemma SanitizeCollides(s: string, t: string, c: char)
    requires Unsafe(c)
    ensures s + [c] + t != s + t
    ensures Sanitize(s + [c] + t) == Sanitize(s + t)
  {
    SanitizeConcat(s + [c], t);
    SanitizeConcat(s, [c]);
    SanitizeConcat(s, t);
    EraseSingle(c, '-');
    EraseSingle(c, '\'');
    EraseSingle(c, '"');
    EraseSingle(c, '.');
    assert Sanitize(s) + [] == Sanitize(s);
  }

  lemma SanitizeConcat(s: string, t: string)
    ensures Sanitize(s + t) == Sanitize(s) + Sanitize(t)
  {
    EraseConcat(s, t, '-');
    EraseConcat(Erase(s, '-'), Erase(t, '-'), '\'');
    EraseConcat(Erase(Erase(s, '-'), '\''), Erase(Erase(t, '-'), '\''), '"');
    EraseConcat(Erase(Erase(Erase(s, '-'), '\''), '"'), Erase(Erase(Erase(t, '-'), '\''), '"'), '.');
  }

  // ---- Domains and ingress ----

  type DomainMap = map<string, string>

  function DomainMapOf(name: string, spec: SiteSpec): DomainMap {
    map d | d in spec.domains :: DatabaseName(name)
  }

  /** The loop that fills the domain map; repeated domains are written again with the same value. */
  method BuildDomainMap(name: string, spec: SiteSpec) returns (m: DomainMap)
    ensures m == DomainMapOf(name, spec)
    ensures forall d :: d in m <==> d in spec.domains
    ensures forall d :: d in m ==> m[d] == DatabaseName(name)
  {
    m := map[];
    for i := 0 to |spec.domains|
      invariant m == map d | d in spec.domains[..i] :: DatabaseName(name)
    {
      m := m[spec.domains[i] := DatabaseName(name)];
      assert spec.domains[..i + 1] == spec.domains[..i] + [spec.domains[i]];
    }
    assert spec.domains[..|spec.domains|] == spec.domains;
  }

  datatype IngressRule = IngressRule(host: string, path: string, service: string, port: nat)

  datatype IngressTls = IngressTls(hosts: seq<string>, secretName: string)

  function IngressRules(spec: SiteSpec): seq<IngressRule> {
    seq(|spec.domains|, i requires 0 <= i < |spec.domains| => IngressRule(spec.domains[i], "/", "drupal", 80))
  }

  method BuildIngressRules(spec: SiteSpec) returns (rules: seq<IngressRule>)
    ensures rules == IngressRules(spec)
    ensures |rules| == |spec.domains|
    ensures forall i :: 0 <= i < |rules| ==> rules[i] == IngressRule(spec.domains[i], "/", "drupal", 80)
  {
    var cells := new IngressRule[|spec.domains|](_ => IngressRule("", "", "", 0));
    for i := 0 to |spec.domains|
      invariant forall k :: 0 <= k < i ==> cells[k] == IngressRule(spec.domains[k], "/", "drupal", 80)
    {
      cells[i] := IngressRule(spec.domains[i], "/", "drupal", 80);
    }
    rules := cells[..];
  }

  function IngressTlsOf(name: string, spec: SiteSpec): Option<IngressTls> {
    if spec.tls then Some(IngressTls(spec.domains, name + "-tls-secret")) else None
  }

  const CERT_ISSUER := "certmanager.k8s.io/cluster-issuer"
  const INGRESS_CLASS := "kubernetes.io/ingress.class"

  function IngressAnnotations(spec: SiteSpec): map<string, string> {
    map[CERT_ISSUER := if spec.certIssuer != "" then spec.certIssuer else "letsencrypt-staging",
        INGRESS_CLASS := if spec.ingressClass != "" then spec.ingressClass else "nginx"]
  }
}
