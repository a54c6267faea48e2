/**
 * The domain configuration: which environment the app runs in, the domain
 * and protocol that go with it, and the URLs built from them.
 *
 * The environment variables are the fields of `Env`, `None` when unset.
 */
module DomainConfig {
  import opened Types
  import Strings

  datatype Env = Env(
    nodeEnv: Option<string>,
    vercelEnv: Option<string>,
    vercelUrl: Option<string>,
    publicDomain: Option<string>,
    nextAuthUrl: Option<string>)

  datatype Protocol = Http | Https

  datatype Environment = Development | Staging | Production

  datatype Config = Config(domain: string, protocol: Protocol, port: Option<nat>, environment: Environment)

  const DevPort: nat := 3000
  const StagingDefault: string := "staging.routineos.vercel.app"
  const ProductionDefault: string := "routineos.vercel.app"

  /** `value || fallback` on an optional string: an unset or empty value falls back. */
  function OrElse(value: Option<string>, fallback: string): (r: string)
    ensures value.Some? && value.value != [] ==> r == value.value
    ensures value.None? || value.value == [] ==> r == fallback
  {
    if value.Some? && value.value != [] then value.value else fallback
  }

  predicate IsDevelopment(env: Env)
  {
    env.nodeEnv == Some("development")
  }

  predicate IsStaging(env: Env)
  {
    env.vercelEnv == Some("preview") || env.nodeEnv == Some("staging")
  }

  /**
   * getDomainConfig: development wins and runs on http://localhost:3000;
   * staging runs on https with VERCEL_URL or the staging default; anything
   * else is production on https with the custom domain or the default.
   */
  function GetDomainConfig(env: Env): (c: Config)
    ensures c.environment == Development <==> IsDevelopment(env)
    ensures c.environment == Staging <==> !IsDevelopment(env) && IsStaging(env)
    ensures c.protocol == Http <==> c.environment == Development
    ensures c.port.Some? <==> c.environment == Development
    ensures c.domain != []
    ensures c.environment == Staging ==> c.domain == OrElse(env.vercelUrl, StagingDefault)
    ensures c.environment == Production ==> c.domain == OrElse(env.publicDomain, ProductionDefault)
  {
    if IsDevelopment(env) then Config("localhost", Http, Some(DevPort), Development)
    else if IsStaging(env) then Config(OrElse(env.vercelUrl, StagingDefault), Https, None, Staging)
    else Config(OrElse(env.publicDomain, ProductionDefault), Https, None, Production)
  }

  function ProtocolText(p: Protocol): string
  {
    match p
    case Http => "http"
    case Https => "https"
  }

  /** ":" and the port when a (non-zero) port is set, else nothing. */
  function PortSuffix(port: Option<nat>): string
  {
    if port.Some? && port.value != 0 then ":" + Strings.NatToString(port.value) else ""
  }

  /** getBaseUrl */
  function BaseUrl(env: Env): string
  {
    var c := GetDomainConfig(env);
    ProtocolText(c.protocol) + "://" + c.domain + PortSuffix(c.port)
  }

  /** In development the base is the local server; elsewhere it is https on the configured domain, with no port. */
  lemma BaseUrlByEnvironment(env: Env)
    ensures IsDevelopment(env) ==> BaseUrl(env) == "http://localhost:3000"
    ensures !IsDevelopment(env) ==> BaseUrl(env) == "https://" + GetDomainConfig(env).domain
  {
    if IsDevelopment(env) {
      DevBaseUrl(env);
    }
  }

  lemma DevBaseUrl(env: Env)
    requires IsDevelopment(env)
    ensures BaseUrl(env) == "http://localhost:3000"
  {
    assert GetDomainConfig(env) == Config("localhost", Http, Some(DevPort), Development);
    DevSuffix();
    DevUrlText();
  }

  lemma DevSuffix()
    ensures PortSuffix(Some(DevPort)) == ":3000"
  {
    DevPortText();
  }

  lemma DevUrlText()
    ensures ProtocolText(Http) + "://" + "localhost" + ":3000" == "http://localhost:3000"
  {
  }

  lemma DevPortText()
    ensures Strings.NatToString(DevPort) == "3000"
  {
    assert Strings.NatToString(3) == "3";
    assert Strings.NatToString(30) == "30";
    assert Strings.NatToString(300) == "300";
  }

  /** getApiUrl: the base, "/api", then the path as given. */
  function ApiUrl(env: Env, path: string): (r: string)
    ensures |r| == |BaseUrl(env)| + 4 + |path| && r[..|BaseUrl(env)|] == BaseUrl(env)
  {
    BaseUrl(env) + "/api" + path
  }

  /** The path with a leading "/" added when it lacks one. */
  function LeadingSlash(path: string): (r: string)
    ensures |r| > 0 && r[0] == '/'
    ensures Strings.StartsWith(path, "/") ==> r == path
    ensures !Strings.StartsWith(path, "/") ==> r == "/" + path
  {
    if Strings.StartsWith(path, "/") then path else "/" + path
  }

  /** getCanonicalUrl */
  function CanonicalUrl(env: Env, path: string): (r: string)
    ensures |r| > |BaseUrl(env)| && r[..|BaseUrl(env)|] == BaseUrl(env) && r[|BaseUrl(env)|] == '/'
  {
    BaseUrl(env) + LeadingSlash(path)
  }

  /**
   * A canonical URL does not change when the path already had its slash
   * added, and the API URL of a path is the canonical URL of "/api" and it.
   */
  lemma CanonicalUrlProperties(env: Env, path: string)
    ensures CanonicalUrl(env, LeadingSlash(path)) == CanonicalUrl(env, path)
    ensures ApiUrl(env, path) == CanonicalUrl(env, "/api" + path)
  {
    var p := LeadingSlash(path);
    assert Strings.StartsWith(p, "/") by {
      assert p[..1] == "/";
    }
    var q := "/api" + path;
    assert Strings.StartsWith(q, "/") by {
      assert q[..1] == "/";
    }
  }

  /**
   * isCustomDomain: exactly in production, when the configured domain (the
   * custom NEXT_PUBLIC_DOMAIN or the default) mentions neither "vercel.app"
   * nor "localhost".
   */
  function IsCustomDomain(env: Env): (r: bool)
    ensures r <==> !IsDevelopment(env) && !IsStaging(env)
                   && !Strings.Contains(OrElse(env.publicDomain, ProductionDefault), "vercel.app")
                   && !Strings.Contains(OrElse(env.publicDomain, ProductionDefault), "localhost")
  {
    var c := GetDomainConfig(env);
    c.environment == Production
    && !Strings.Contains(c.domain, "vercel.app") && !Strings.Contains(c.domain, "localhost")
  }

  /** Without a custom NEXT_PUBLIC_DOMAIN the production default is not a custom domain. */
  lemma DefaultIsNotCustom(env: Env)
    requires env.publicDomain.None?
    ensures !IsCustomDomain(env)
  {
    var c := GetDomainConfig(env);
    if c.environment == Production {
      assert c.domain == ProductionDefault;
      assert Strings.OccursAt(c.domain, "vercel.app", 10);
      Strings.ContainsAt(c.domain, "vercel.app");
    }
  }

  /** getNextAuthUrl: NEXTAUTH_URL when set, else the base URL. */
  function NextAuthUrl(env: Env): (r: string)
    ensures env.nextAuthUrl.Some? && env.nextAuthUrl.value != [] ==> r == env.nextAuthUrl.value
    ensures env.nextAuthUrl.None? || env.nextAuthUrl.value == [] ==> r == BaseUrl(env)
  {
    OrElse(env.nextAuthUrl, BaseUrl(env))
  }

  /** The robots meta value: indexing only in production. */
  function Robots(env: Env): (r: string)
    ensures r == "index,follow" <==> GetDomainConfig(env).environment == Production
    ensures r == "index,follow" || r == "noindex,nofollow"
  {
    if GetDomainConfig(env).environment == Production then "index,follow" else "noindex,nofollow"
  }

  // ---------------------------------------------------------------------
  // Domain validation
  // ---------------------------------------------------------------------

  predicate IsLetter(c: char) { 'a' <= c <= 'z' || 'A' <= c <= 'Z' }

  predicate IsAlnum(c: char) { IsLetter(c) || '0' <= c <= '9' }

  /** A domain label: 1 to 63 letters, digits and hyphens, starting and ending with a letter or digit. */
  predicate ValidLabel(l: string)
  {
    1 <= |l| <= 63 && IsAlnum(l[0]) && IsAlnum(l[|l| - 1])
    && forall i :: 0 <= i < |l| ==> IsAlnum(l[i]) || l[i] == '-'
  }

  /** A top-level domain: two or more letters. */
  predicate ValidTld(t: string)
  {
    |t| >= 2 && forall i :: 0 <= i < |t| ==> IsLetter(t[i])
  }

  predicate NoDot(s: string)
  {
    forall i :: 0 <= i < |s| ==> s[i] != '.'
  }

  /** The pieces of s between its dots. */
  function SplitDots(s: string): (parts: seq<string>)
    ensures |parts| >= 1
    ensures forall i :: 0 <= i < |parts| ==> NoDot(parts[i])
  {
    if s == [] then [[]]
    else if s[0] == '.' then [[]] + SplitDots(s[1..])
    else
      var rest := SplitDots(s[1..]);
      [[s[0]] + rest[0]] + rest[1..]
  }

  /** The pieces joined by dots. */
  function JoinDots(parts: seq<string>): string
    requires |parts| >= 1
  {
    if |parts| == 1 then parts[0] else parts[0] + "." + JoinDots(parts[1..])
  }

  /** Splitting, then joining, gives the string back. */
  lemma {:induction false} JoinSplit(s: string)
    ensures JoinDots(SplitDots(s)) == s
  {
    if s != [] {
      JoinSplit(s[1..]);
      if s[0] != '.' {
        var rest := SplitDots(s[1..]);
        if |rest| > 1 {
          var parts := SplitDots(s);
          assert parts[1..] == rest[1..];
          assert JoinDots(parts) == [s[0]] + (rest[0] + "." + JoinDots(rest[1..]));
        }
      }
    }
  }

  /** Joining dot-free pieces, then splitting, gives the pieces back. */
  lemma {:induction false} SplitJoin(parts: seq<string>)
    requires |parts| >= 1 && forall i :: 0 <= i < |parts| ==> NoDot(parts[i])
    ensures SplitDots(JoinDots(parts)) == parts
  {
    if |parts| == 1 {
      SplitWord(parts[0], [], false);
    } else {
      SplitJoin(parts[1..]);
      SplitWord(parts[0], JoinDots(parts[1..]), true);
    }
  }

  /** A dot-free word, then (when dotted) a dot and t, splits into the word and the pieces of t. */
  lemma {:induction false} SplitWord(w: string, t: string, dotted: bool)
    requires NoDot(w)
    requires !dotted ==> t == []
    ensures dotted ==> SplitDots(w + "." + t) == [w] + SplitDots(t)
    ensures !dotted ==> SplitDots(w) == [w]
  {
    if w != [] {
      SplitWord(w[1..], t, dotted);
      assert [w[0]] + w[1..] == w;
      if dotted {
        assert (w + "." + t)[0] == w[0];
        assert (w + "." + t)[1..] == w[1..] + "." + t;
      }
    } else if dotted {
      assert (w + "." + t)[1..] == t;
    }
  }

  /**
   * isValidDomain: one or more labels each followed by a dot, then a
   * top-level domain of two or more letters.
   */
  function IsValidDomain(domain: string): (r: bool)
    ensures r ==> exists labels: seq<string>, tld: string ::
                    |labels| >= 1 && domain == JoinDots(labels + [tld])
                    && (forall i :: 0 <= i < |labels| ==> ValidLabel(labels[i])) && ValidTld(tld)
  {
    var parts := SplitDots(domain);
    var n := |parts| - 1;
    if n >= 1 && (forall i :: 0 <= i < n ==> ValidLabel(parts[i])) && ValidTld(parts[n]) then
      ValidDomainShape(domain);
      true
    else false
  }

  lemma ValidDomainShape(domain: string)
    requires var parts := SplitDots(domain);
             var n := |parts| - 1;
             n >= 1 && (forall i :: 0 <= i < n ==> ValidLabel(parts[i])) && ValidTld(parts[n])
    ensures exists labels: seq<string>, tld: string ::
              |labels| >= 1 && domain == JoinDots(labels + [tld])
              && (forall i :: 0 <= i < |labels| ==> ValidLabel(labels[i])) && ValidTld(tld)
  {
    var parts := SplitDots(domain);
    var n := |parts| - 1;
    JoinSplit(domain);
    var labels, tld := parts[..n], parts[n];
    assert parts == labels + [tld];
    assert forall i :: 0 <= i < |labels| ==> ValidLabel(labels[i]);
  }

  /** Every string of that shape is accepted. */
  lemma DomainOfParts(labels: seq<string>, tld: string)
    requires |labels| >= 1 && forall i :: 0 <= i < |labels| ==> ValidLabel(labels[i])
    requires ValidTld(tld)
    ensures IsValidDomain(JoinDots(labels + [tld]))
  {
    var parts := labels + [tld];
    forall i | 0 <= i < |parts|
      ensures NoDot(parts[i])
    {
      if i < |labels| {
        LabelNoDot(labels[i]);
      } else {
        TldNoDot(tld);
      }
    }
    SplitJoin(parts);
    AcceptedParts(JoinDots(parts), parts, labels, tld);
  }

  /** A domain that splits into the labels and then the TLD is accepted. */
  lemma AcceptedParts(domain: string, parts: seq<string>, labels: seq<string>, tld: string)
    requires SplitDots(domain) == parts && parts == labels + [tld]
    requires |labels| >= 1 && forall i :: 0 <= i < |labels| ==> ValidLabel(labels[i])
    requires ValidTld(tld)
    ensures IsValidDomain(domain)
  {
    var n := |parts| - 1;
    assert parts[n] == tld;
    forall i | 0 <= i < n
      ensures ValidLabel(parts[i])
    {
      assert parts[i] == labels[i];
    }
  }

  lemma LabelNoDot(l: string)
    requires ValidLabel(l)
    ensures NoDot(l)
  {
  }

  lemma TldNoDot(t: string)
    requires ValidTld(t)
    ensures NoDot(t)
  {
  }
}
