/** Which providers exist, which service each one needs, and what a service's
    configuration must hold (internal/providers/service_rules.go). */
module ServiceRules {
  import opened Base

  datatype Binding = Binding(service: string, required: bool)

  datatype ConfigProblem = MissingClientId | MissingClientSecret | BadApiVersion

  /** The provider names after normalization. */
  predicate IsProviderName(name: string) {
    name == "facebook_page" || name == "twitter" || name == "mastodon" || name == "bluesky"
  }

  predicate KnownProvider(provider: string) {
    IsProviderName(Normalize(provider))
  }

  function ServiceBindingForProvider(provider: string): (r: Option<Binding>) {
    var name := Normalize(provider);
    if name == "facebook_page" then Some(Binding("facebook", true))
    else if name == "twitter" then Some(Binding("twitter", true))
    else if name == "bluesky" then Some(Binding("bluesky", false))
    else None
  }

  predicate AllDigits(s: string) {
    s != "" && forall i | 0 <= i < |s| :: '0' <= s[i] <= '9'
  }

  /** The pattern vNN.N: a 'v', digits, one dot, digits. */
  predicate IsApiVersion(s: string) {
    |s| > 0 && s[0] == 'v' &&
    exists dot | 1 <= dot < |s| :: s[dot] == '.' && AllDigits(s[1..dot]) && AllDigits(s[dot + 1..])
  }

  function CredentialProblem(config: Config): Option<ConfigProblem> {
    if LookupString(config, "client_id") == "" then Some(MissingClientId)
    else if LookupString(config, "client_secret") == "" then Some(MissingClientSecret)
    else None
  }

  /** None when the configuration is acceptable. */
  function ValidateServiceConfiguration(serviceName: string, config: Config, active: bool): Option<ConfigProblem> {
    var name := Normalize(serviceName);
    if name == "facebook" then
      if active && CredentialProblem(config).Some? then CredentialProblem(config)
      else if LookupString(config, "api_version") != "" && !IsApiVersion(LookupString(config, "api_version"))
      then Some(BadApiVersion)
      else None
    else if name == "twitter" then
      if active then CredentialProblem(config) else None
    else None
  }

  /** What acceptance means for the callers: an accepted active facebook or twitter
      service has both credentials, and an accepted facebook service never yields a
      malformed API version. Everything else is accepted. */
  lemma AcceptedConfigurations(serviceName: string, config: Config, active: bool)
    ensures ValidateServiceConfiguration(serviceName, config, active).None? <==>
            && (active && Normalize(serviceName) in {"facebook", "twitter"} ==>
                  LookupString(config, "client_id") != "" && LookupString(config, "client_secret") != "")
            && (Normalize(serviceName) == "facebook" ==>
                  var v := LookupString(config, "api_version"); v == "" || IsApiVersion(v))
  {}

  /** The same in terms of what is stored: an active facebook or twitter service holds a client
      id and a secret, and an API version a facebook service holds is of the form vN.N. */
  lemma AcceptedConfigurationsHold(serviceName: string, config: Config, active: bool)
    ensures ValidateServiceConfiguration(serviceName, config, active).None? <==>
            var name := Normalize(serviceName);
            && (active && (name == "facebook" || name == "twitter") ==>
                  !Blank(config, "client_id") && !Blank(config, "client_secret"))
            && (name == "facebook" ==> forall v :: Holds(config, "api_version", v) ==> IsVersionText(v))
  {
    LookupHolds(config, "client_id");
    LookupHolds(config, "client_secret");
    LookupHolds(config, "api_version");
    VersionTexts(LookupString(config, "api_version"));
  }

  ghost predicate IsVersionText(s: string) {
    exists major, minor :: AllDigits(major) && AllDigits(minor) && s == "v" + major + "." + minor
  }

  lemma VersionTexts(s: string)
    ensures IsApiVersion(s) <==> IsVersionText(s)
  {
    if IsApiVersion(s) {
      var dot :| 1 <= dot < |s| && s[dot] == '.' && AllDigits(s[1..dot]) && AllDigits(s[dot + 1..]);
      assert s == "v" + s[1..dot] + "." + s[dot + 1..];
    }
    if major, minor :| AllDigits(major) && AllDigits(minor) && s == "v" + major + "." + minor {
      var dot := 1 + |major|;
      assert s[1..dot] == major && s[dot] == '.' && s[dot + 1..] == minor;
    }
  }

  /** A known provider needs exactly the services that exist under a normalized name. */
  lemma BindingsAreNormalized(provider: string)
    ensures ServiceBindingForProvider(provider).Some? ==>
              var service := ServiceBindingForProvider(provider).value.service;
              service != "" && Normalize(service) == service
    ensures ServiceBindingForProvider(provider).Some? ==> KnownProvider(provider)
    ensures KnownProvider(provider) && ServiceBindingForProvider(provider).None? ==> Normalize(provider) == "mastodon"
  {
    LowerIsId("facebook");
    LowerIsId("twitter");
    LowerIsId("bluesky");
  }

  lemma LowerIsId(s: string)
    requires Trimmed(s) && forall i :: 0 <= i < |s| ==> !('A' <= s[i] <= 'Z')
    ensures Normalize(s) == s
  {
    assert Lower(s) == s;
  }
}
