/** The services table and its two readers: the API's readiness check and the
    worker's configuration lookup (internal/httpserver/services_handlers.go,
    internal/httpserver/accounts_handlers.go:357-381, cmd/worker/main.go:346-385). */
module Services {
  import opened Base
  import opened Providers
  import opened ServiceRules
  import opened Tables

  datatype ServiceForm = ServiceForm(name: string, configuration: Config, active: bool)

  ghost predicate ServiceOk(s: Service) {
    && s.name != "" && Normalize(s.name) == s.name
    && ValidateServiceConfiguration(s.name, s.configuration, s.active).None?
  }

  ghost predicate ServicesOk(c: Catalog) {
    && (forall id :: id in c.services ==> 0 <= id < c.nextService && ServiceOk(c.services[id]))
    && (forall i, j :: i in c.services && j in c.services && c.services[i].name == c.services[j].name ==> i == j)
  }

  predicate NameTaken(services: map<int, Service>, name: string, except: int) {
    exists id | id in services :: id != except && services[id].name == name
  }

  function Submitted(form: ServiceForm): Result<Service, ApiError> {
    var name := Normalize(form.name);
    if name == "" then Err(BadRequest)
    else if ValidateServiceConfiguration(name, form.configuration, form.active).Some? then Err(Unprocessable)
    else Ok(Service(name, form.configuration, form.active))
  }

  function CreateService(c: Catalog, form: ServiceForm): Result<Catalog, ApiError> {
    var s := Submitted(form);
    if s.Err? then Err(s.error)
    else if NameTaken(c.services, s.value.name, -1) then Err(Conflict)
    else Ok(c.(services := c.services[c.nextService := s.value], nextService := c.nextService + 1))
  }

  function UpdateService(c: Catalog, id: int, form: ServiceForm): Result<Catalog, ApiError> {
    var s := Submitted(form);
    if s.Err? then Err(s.error)
    else if id !in c.services then Err(NotFound)
    else if NameTaken(c.services, s.value.name, id) then Err(Conflict)
    else Ok(c.(services := c.services[id := s.value]))
  }

  function DeleteService(c: Catalog, id: int): Result<Catalog, ApiError> {
    if id !in c.services then Err(NotFound)
    else Ok(c.(services := c.services - {id}))
  }

  /** `SELECT ... FROM services WHERE name = $1 LIMIT 1`. */
  function ServiceNamed(c: Catalog, name: string): Option<Service> {
    FirstWhere(InIdOrder(c.services, c.nextService), (s: Service) => s.name == name)
  }

  lemma ServiceNamedFinds(c: Catalog, id: int)
    requires ServicesOk(c) && id in c.services
    ensures ServiceNamed(c, c.services[id].name) == Some(c.services[id])
  {
    var s := c.services[id];
    InIdOrderMembers(c.services, c.nextService, s);
    var found := ServiceNamed(c, s.name);
    assert found.Some?;
    InIdOrderMembers(c.services, c.nextService, found.value);
  }

  /** ensureProviderServiceReady: what the API asks before it stores an account. */
  function EnsureProviderServiceReady(c: Catalog, provider: string): Option<Error> {
    var binding := ServiceBindingForProvider(provider);
    if binding.None? || !binding.value.required then None
    else
      var s := ServiceNamed(c, binding.value.service);
      if s.None? then Some(ServiceNotConfigured)
      else if !s.value.active then Some(ServiceDisabled)
      else None
  }

  /** fetchServiceConfigurationForProviderTx: what the worker asks before it publishes. */
  function FetchServiceConfiguration(c: Catalog, provider: string): Result<Config, Error> {
    var binding := ServiceBindingForProvider(provider);
    if binding.None? || binding.value.service == "" then Ok(map[])
    else
      var s := ServiceNamed(c, binding.value.service);
      if s.None? then (if binding.value.required then Err(ServiceNotConfigured) else Ok(map[]))
      else if !s.value.active then Err(ServiceDisabled)
      else Ok(s.value.configuration)
  }

  /** Which service a provider depends on, and whether it cannot do without. */
  predicate DependsOn(provider: string, service: string, required: bool) {
    || (Normalize(provider) == "facebook_page" && service == "facebook" && required)
    || (Normalize(provider) == "twitter" && service == "twitter" && required)
    || (Normalize(provider) == "bluesky" && service == "bluesky" && !required)
  }

  /** Without that service the provider is refused if it requires it and otherwise goes
      without configuration; with an inactive one the worker refuses it, and the API if it is
      required; with an active one both accept, and the worker hands over its configuration. */
  lemma ReadinessMeaning(c: Catalog, provider: string, service: string, required: bool)
    requires ServicesOk(c) && DependsOn(provider, service, required)
    ensures (forall id :: id in c.services ==> c.services[id].name != service) ==>
              && EnsureProviderServiceReady(c, provider) == (if required then Some(ServiceNotConfigured) else None)
              && FetchServiceConfiguration(c, provider) == (if required then Err(ServiceNotConfigured) else Ok(map[]))
    ensures forall id :: id in c.services && c.services[id].name == service ==>
              && EnsureProviderServiceReady(c, provider) ==
                   (if required && !c.services[id].active then Some(ServiceDisabled) else None)
              && FetchServiceConfiguration(c, provider) ==
                   (if c.services[id].active then Ok(c.services[id].configuration) else Err(ServiceDisabled))
  {
    ServiceNamedMeaning(c, service);
    forall id | id in c.services && c.services[id].name == service
      ensures ServiceNamed(c, service) == Some(c.services[id])
    {
      ServiceNamedFinds(c, id);
    }
  }

  /** Every other provider needs no service. */
  lemma OthersNeedNoService(c: Catalog, provider: string)
    requires forall service, required :: !DependsOn(provider, service, required)
    ensures EnsureProviderServiceReady(c, provider) == None && FetchServiceConfiguration(c, provider) == Ok(map[])
  {
    assert !DependsOn(provider, "facebook", true) && !DependsOn(provider, "twitter", true);
    assert !DependsOn(provider, "bluesky", false);
  }

  /** The two checks agree on every provider except bluesky, where they part exactly
      when an inactive bluesky service is stored: the API accepts, the worker refuses. */
  lemma ReadinessGap(c: Catalog, provider: string)
    requires ServicesOk(c)
    ensures FetchServiceConfiguration(c, provider).Ok? ==> EnsureProviderServiceReady(c, provider).None?
    ensures EnsureProviderServiceReady(c, provider).None? && FetchServiceConfiguration(c, provider).Err? <==>
            Normalize(provider) == "bluesky"
            && exists id :: id in c.services && c.services[id].name == "bluesky" && !c.services[id].active
  {
    var found := ServiceNamed(c, "bluesky");
    if found.Some? {
      InIdOrderMembers(c.services, c.nextService, found.value);
    }
    if id :| id in c.services && c.services[id].name == "bluesky" {
      ServiceNamedFinds(c, id);
    }
  }

  /** A configuration handed to the facebook or twitter connector has both credentials. */
  lemma FetchedConfigurationValidates(c: Catalog, provider: string)
    requires ServicesOk(c)
    requires FetchServiceConfiguration(c, provider).Ok?
    requires Normalize(provider) == "facebook_page" || Normalize(provider) == "twitter"
    ensures var config := FetchServiceConfiguration(c, provider).value;
            && LookupString(config, "client_id") != "" && LookupString(config, "client_secret") != ""
            && (Normalize(provider) == "facebook_page" ==>
                  var v := LookupString(config, "api_version"); v == "" || IsApiVersion(v))
  {
    var binding := ServiceBindingForProvider(provider).value;
    var s := ServiceNamed(c, binding.service).value;
    InIdOrderMembers(c.services, c.nextService, s);
    AcceptedConfigurations(s.name, s.configuration, s.active);
  }

  /** A service is found under a name exactly when it is the stored one of that name. */
  lemma ServiceNamedMeaning(c: Catalog, name: string)
    requires ServicesOk(c)
    ensures ServiceNamed(c, name).None? <==> forall id :: id in c.services ==> c.services[id].name != name
    ensures ServiceNamed(c, name).Some? ==> exists id :: id in c.services && c.services[id] == ServiceNamed(c, name).value
    ensures ServiceNamed(c, name).Some? ==> ServiceNamed(c, name).value.name == name
  {
    var found := ServiceNamed(c, name);
    if found.Some? {
      InIdOrderMembers(c.services, c.nextService, found.value);
    }
    if id :| id in c.services && c.services[id].name == name {
      ServiceNamedFinds(c, id);
    }
  }

  /** A service stored under a free name. */
  lemma StoredServiceKeepsOk(c: Catalog, id: int, s: Service, next: nat)
    requires ServicesOk(c) && ServiceOk(s) && c.nextService <= next && 0 <= id < next
    requires forall i :: i in c.services && i != id ==> c.services[i].name != s.name
    ensures ServicesOk(c.(services := c.services[id := s], nextService := next))
  {}

  lemma StoredServiceIsFound(c: Catalog, id: int, s: Service, next: nat, name: string)
    requires ServicesOk(c) && ServiceOk(s) && c.nextService <= next && 0 <= id < next
    requires forall i :: i in c.services && i != id ==> c.services[i].name != s.name
    ensures ServiceNamed(c.(services := c.services[id := s], nextService := next), name) ==
              if name == s.name then Some(s)
              else if id in c.services && name == c.services[id].name then None
              else ServiceNamed(c, name)
  {
    var d := c.(services := c.services[id := s], nextService := next);
    StoredServiceKeepsOk(c, id, s, next);
    ServiceNamedMeaning(c, name);
    ServiceNamedMeaning(d, name);
    if name == s.name {
      ServiceNamedFinds(d, id);
    } else if ServiceNamed(c, name).Some? && !(id in c.services && name == c.services[id].name) {
      var i :| i in c.services && c.services[i] == ServiceNamed(c, name).value;
      assert d.services[i] == c.services[i];
      ServiceNamedFinds(d, i);
    }
  }

  /** What a request must bring whatever is stored already. */
  predicate ServiceFormOk(form: ServiceForm) {
    Trim(form.name) != "" && ValidateServiceConfiguration(form.name, form.configuration, form.active).None?
  }

  lemma SubmittedServiceIsOk(form: ServiceForm)
    ensures Submitted(form).Ok? <==> ServiceFormOk(form)
    ensures Submitted(form).Ok? ==> ServiceOk(Submitted(form).value)
    ensures Submitted(form).Ok? ==> Submitted(form).value == Service(Normalize(form.name), form.configuration, form.active)
  {
    NormalizeTwice(form.name);
  }

  lemma CreateServiceKeepsOk(c: Catalog, form: ServiceForm)
    requires ServicesOk(c) && CreateService(c, form).Ok?
    ensures ServicesOk(CreateService(c, form).value)
  {
    SubmittedServiceIsOk(form);
    StoredServiceKeepsOk(c, c.nextService, Submitted(form).value, c.nextService + 1);
  }

  /** A creation succeeds exactly for an acceptable form whose name no lookup finds yet; then
      lookups find the new service under its normalized name and all others as before. */
  lemma CreatedServiceIsFound(c: Catalog, form: ServiceForm, name: string)
    requires ServicesOk(c)
    ensures CreateService(c, form).Ok? <==> ServiceFormOk(form) && ServiceNamed(c, Normalize(form.name)).None?
    ensures CreateService(c, form).Ok? ==>
              ServiceNamed(CreateService(c, form).value, name) ==
                if name == Normalize(form.name) then Some(Service(name, form.configuration, form.active))
                else ServiceNamed(c, name)
  {
    SubmittedServiceIsOk(form);
    ServiceNamedMeaning(c, Normalize(form.name));
    if CreateService(c, form).Ok? {
      StoredServiceIsFound(c, c.nextService, Submitted(form).value, c.nextService + 1, name);
    }
  }

  lemma UpdateServiceKeepsOk(c: Catalog, id: int, form: ServiceForm)
    requires ServicesOk(c) && UpdateService(c, id, form).Ok?
    ensures ServicesOk(UpdateService(c, id, form).value)
  {
    SubmittedServiceIsOk(form);
    StoredServiceKeepsOk(c, id, Submitted(form).value, c.nextService);
  }

  /** An update succeeds exactly for a stored service and an acceptable form whose name is
      its own or free; then the service is found under the new name, no longer under the
      old one, and all others as before. */
  lemma UpdatedServiceIsFound(c: Catalog, id: int, form: ServiceForm, name: string)
    requires ServicesOk(c)
    ensures UpdateService(c, id, form).Ok? <==>
            && ServiceFormOk(form) && id in c.services
            && (ServiceNamed(c, Normalize(form.name)).None? || c.services[id].name == Normalize(form.name))
    ensures UpdateService(c, id, form).Ok? ==>
              ServiceNamed(UpdateService(c, id, form).value, name) ==
                if name == Normalize(form.name) then Some(Service(name, form.configuration, form.active))
                else if name == c.services[id].name then None
                else ServiceNamed(c, name)
  {
    SubmittedServiceIsOk(form);
    ServiceNamedMeaning(c, Normalize(form.name));
    if UpdateService(c, id, form).Ok? {
      StoredServiceIsFound(c, id, Submitted(form).value, c.nextService, name);
    }
  }

  /** After a deletion the name is not found, others as before, and accounts of a provider
      that requires the service can no longer be stored. */
  lemma DeletedServiceIsGone(c: Catalog, id: int, name: string, provider: string)
    requires ServicesOk(c) && id in c.services
    ensures DeleteService(c, id).Ok? && ServicesOk(DeleteService(c, id).value)
    ensures var d := DeleteService(c, id).value;
            && ServiceNamed(d, name) == (if name == c.services[id].name then None else ServiceNamed(c, name))
            && (ServiceBindingForProvider(provider) == Some(Binding(c.services[id].name, true)) ==>
                  EnsureProviderServiceReady(d, provider) == Some(ServiceNotConfigured)
                  && FetchServiceConfiguration(d, provider) == Err(ServiceNotConfigured))
  {
    var d := DeleteService(c, id).value;
    ServiceNamedMeaning(c, name);
    ServiceNamedMeaning(d, name);
    ServiceNamedMeaning(d, c.services[id].name);
    if name != c.services[id].name && ServiceNamed(c, name).Some? {
      var i :| i in c.services && c.services[i] == ServiceNamed(c, name).value;
      ServiceNamedFinds(d, i);
    }
  }

  // ---------- answers ----------

  /** A form is a bad request without a name, unprocessable with a configuration the rules of
      the service refuse, and otherwise stored under its normalized name, as it is. */
  ghost predicate ServiceAnswer(form: ServiceForm, missing: bool, taken: bool, r: Result<Catalog, ApiError>) {
    var refused := ValidateServiceConfiguration(form.name, form.configuration, form.active).Some?;
    && (r == Err(BadRequest) <==> Trim(form.name) == "")
    && (r == Err(Unprocessable) <==> Trim(form.name) != "" && refused)
    && (r == Err(NotFound) <==> Trim(form.name) != "" && !refused && missing)
    && (r == Err(Conflict) <==> Trim(form.name) != "" && !refused && !missing && taken)
  }

  ghost predicate OtherHasName(c: Catalog, name: string, except: int) {
    exists id :: id in c.services && id != except && c.services[id].name == Normalize(name)
  }

  /** Which requests are refused, and how; whatever is not is stored. */
  lemma ServiceAnswers(c: Catalog, id: int, form: ServiceForm)
    requires ServicesOk(c)
    ensures ServiceAnswer(form, false, OtherHasName(c, form.name, -1), CreateService(c, form))
    ensures ServiceAnswer(form, id !in c.services, OtherHasName(c, form.name, id), UpdateService(c, id, form))
    ensures DeleteService(c, id).Ok? <==> id in c.services
    ensures DeleteService(c, id).Err? ==> DeleteService(c, id).error == NotFound
  {
    NormalizeTwice(form.name);
    assert ValidateServiceConfiguration(Normalize(form.name), form.configuration, form.active)
        == ValidateServiceConfiguration(form.name, form.configuration, form.active);
  }
}
