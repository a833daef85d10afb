/** Configuration of config.go: validation and the lookup of providers for a request. */
module Config {
  import opened Sequences
  import opened Options

  const OPENAI_COMPLETIONS := "openai_completions"
  const OPENAI_RESPONSES := "openai_responses"
  const OPENAI_EMBEDDINGS := "openai_embeddings"
  const ANTHROPIC_MESSAGES := "anthropic_messages"
  const BAILIAN_EMBEDDING := "bailian_multimodal_embedding"
  const OLLAMA_CHAT := "ollama_chat"
  const SYSTEM_ONE := "typesafe_systemone"

  const PROTOCOLS: seq<string> := [OPENAI_COMPLETIONS, OPENAI_RESPONSES, OPENAI_EMBEDDINGS,
    ANTHROPIC_MESSAGES, BAILIAN_EMBEDDING, OLLAMA_CHAT, SYSTEM_ONE]

  datatype APIKey = APIKey(name: string, value: string)

  datatype Endpoint = Endpoint(url: string, model: string, headers: map<string, string>)

  datatype Provider = Provider(
    name: string, model: string, headers: map<string, string>,
    openAICompletions: Option<Endpoint>, openAIResponses: Option<Endpoint>, openAIEmbeddings: Option<Endpoint>,
    anthropicMessages: Option<Endpoint>, bailianEmbedding: Option<Endpoint>, ollamaChat: Option<Endpoint>,
    systemOne: Option<Endpoint>)

  datatype ProviderRef = ProviderRef(name: string, model: string, protocols: seq<string>)

  datatype ModelConfig = ModelConfig(name: string, providers: seq<ProviderRef>)

  predicate KnownProtocol(protocol: string) {
    protocol in PROTOCOLS
  }

  function EndpointOf(p: Provider, protocol: string): Option<Endpoint> {
    if protocol == OPENAI_COMPLETIONS then p.openAICompletions
    else if protocol == OPENAI_RESPONSES then p.openAIResponses
    else if protocol == OPENAI_EMBEDDINGS then p.openAIEmbeddings
    else if protocol == ANTHROPIC_MESSAGES then p.anthropicMessages
    else if protocol == BAILIAN_EMBEDDING then p.bailianEmbedding
    else if protocol == OLLAMA_CHAT then p.ollamaChat
    else if protocol == SYSTEM_ONE then p.systemOne
    else None
  }

  datatype Target = Target(url: string, model: string, headers: map<string, string>)

  function Resolve(p: Provider, protocol: string): Option<Target> {
    match EndpointOf(p, protocol)
    case None => None
    case Some(ep) => Some(Target(ep.url, if ep.model == "" then p.model else ep.model, p.headers + ep.headers))
  }

  function Kept(ep: Option<Endpoint>, protocol: string, allowed: set<string>): Option<Endpoint> {
    if protocol in allowed then ep else None
  }

  function Restricted(p: Provider, allowed: set<string>): Provider {
    p.(openAICompletions := Kept(p.openAICompletions, OPENAI_COMPLETIONS, allowed),
       openAIResponses := Kept(p.openAIResponses, OPENAI_RESPONSES, allowed),
       openAIEmbeddings := Kept(p.openAIEmbeddings, OPENAI_EMBEDDINGS, allowed),
       anthropicMessages := Kept(p.anthropicMessages, ANTHROPIC_MESSAGES, allowed),
       bailianEmbedding := Kept(p.bailianEmbedding, BAILIAN_EMBEDDING, allowed),
       ollamaChat := Kept(p.ollamaChat, OLLAMA_CHAT, allowed),
       systemOne := Kept(p.systemOne, SYSTEM_ONE, allowed))
  }

  lemma RestrictedEndpoint(p: Provider, allowed: set<string>, protocol: string)
    ensures EndpointOf(Restricted(p, allowed), protocol) == Kept(EndpointOf(p, protocol), protocol, allowed)
  {
  }

  /** bind's switch-offs, one field after the other. */
  method Restrict(p: Provider, allowed: set<string>) returns (out: Provider)
    ensures out == Restricted(p, allowed)
  {
    out := p;
    if OPENAI_COMPLETIONS !in allowed {
      out := out.(openAICompletions := None);
    }
    if OPENAI_RESPONSES !in allowed {
      out := out.(openAIResponses := None);
    }
    if OPENAI_EMBEDDINGS !in allowed {
      out := out.(openAIEmbeddings := None);
    }
    if ANTHROPIC_MESSAGES !in allowed {
      out := out.(anthropicMessages := None);
    }
    if BAILIAN_EMBEDDING !in allowed {
      out := out.(bailianEmbedding := None);
    }
    if OLLAMA_CHAT !in allowed {
      out := out.(ollamaChat := None);
    }
    if SYSTEM_ONE !in allowed {
      out := out.(systemOne := None);
    }
  }

  /** The vendor as an association sees it. */
  function Bound(p: Provider, ref: ProviderRef): Provider {
    Restricted(if ref.model != "" then p.(model := ref.model) else p, set protocol | protocol in ref.protocols)
  }

  lemma BoundEndpoint(p: Provider, ref: ProviderRef, protocol: string)
    ensures EndpointOf(Bound(p, ref), protocol) == if protocol in ref.protocols then EndpointOf(p, protocol) else None
  {
    var named := if ref.model != "" then p.(model := ref.model) else p;
    RestrictedEndpoint(named, (set q | q in ref.protocols), protocol);
    assert EndpointOf(named, protocol) == EndpointOf(p, protocol);
  }

  /** bind: a copy without the endpoints the association does not list. */
  method Bind(p: Provider, ref: ProviderRef) returns (out: Provider)
    ensures out == Bound(p, ref)
  {
    out := p;
    if ref.model != "" {
      out := out.(model := ref.model);
    }
    var allowed: set<string> := {};
    for i := 0 to |ref.protocols|
      invariant forall protocol :: protocol in allowed <==> protocol in ref.protocols[..i]
    {
      allowed := allowed + {ref.protocols[i]};
    }
    assert ref.protocols[..|ref.protocols|] == ref.protocols;
    assert allowed == set protocol | protocol in ref.protocols;
    out := Restrict(out, allowed);
  }

  // ----- what a valid configuration is

  /** Library judgements: url.Parse with its scheme and host test, the MySQL DSN parser and
      strings.TrimSpace. */
  datatype Env = Env(urlOk: string -> bool, dsnOk: string -> bool, trim: string -> string)

  predicate KeysOk(keys: seq<APIKey>) {
    && keys != []
    && (forall i :: 0 <= i < |keys| ==> keys[i].name != "" && keys[i].value != "")
    && (forall i, j :: 0 <= i < j < |keys| ==> keys[i].name != keys[j].name && keys[i].value != keys[j].value)
  }

  predicate ProviderOk(env: Env, p: Provider) {
    && (exists protocol :: protocol in PROTOCOLS && EndpointOf(p, protocol).Some?)
    && (forall protocol :: protocol in PROTOCOLS && EndpointOf(p, protocol).Some? ==>
          EndpointOf(p, protocol).value.url != "" && env.urlOk(EndpointOf(p, protocol).value.url))
  }

  predicate ProvidersOk(env: Env, providers: seq<Provider>) {
    && providers != []
    && (forall i :: 0 <= i < |providers| ==> providers[i].name != "" && ProviderOk(env, providers[i]))
    && (forall i, j :: 0 <= i < j < |providers| ==> providers[i].name != providers[j].name)
  }

  /** The association names a vendor that has every protocol it lists. */
  predicate RefOk(providers: seq<Provider>, ref: ProviderRef) {
    && ref.name != "" && ref.protocols != [] && Distinct(ref.protocols)
    && (forall protocol :: protocol in ref.protocols ==> KnownProtocol(protocol))
    && exists i :: 0 <= i < |providers| && providers[i].name == ref.name
         && forall protocol :: protocol in ref.protocols ==> EndpointOf(providers[i], protocol).Some?
  }

  predicate ModelOk(providers: seq<Provider>, m: ModelConfig) {
    && m.name != "" && m.providers != []
    && (forall i :: 0 <= i < |m.providers| ==> RefOk(providers, m.providers[i]))
    && (forall i, j :: 0 <= i < j < |m.providers| ==> m.providers[i].name != m.providers[j].name)
  }

  predicate ModelsOk(providers: seq<Provider>, models: seq<ModelConfig>) {
    && models != []
    && (forall i :: 0 <= i < |models| ==> ModelOk(providers, models[i]))
    && (forall i, j :: 0 <= i < j < |models| ==> models[i].name != models[j].name)
  }

  // ----- validate

  method ValidateKeys(keys: seq<APIKey>) returns (ok: bool)
    ensures ok <==> KeysOk(keys)
  {
    if |keys| == 0 {
      return false;
    }
    var seenName: set<string>, seenValue: set<string> := {}, {};
    for i := 0 to |keys|
      invariant KeysOk(keys[..i]) || i == 0
      invariant forall n :: n in seenName <==> exists j :: 0 <= j < i && keys[j].name == n
      invariant forall v :: v in seenValue <==> exists j :: 0 <= j < i && keys[j].value == v
    {
      var k := keys[i];
      if k.name == "" || k.value == "" || k.name in seenName || k.value in seenValue {
        return false;
      }
      seenName := seenName + {k.name};
      seenValue := seenValue + {k.value};
    }
    assert keys[..|keys|] == keys;
    ok := true;
  }

  method ValidateProvider(env: Env, p: Provider) returns (ok: bool)
    ensures ok <==> ProviderOk(env, p)
  {
    if p.openAICompletions.None? && p.openAIResponses.None? && p.openAIEmbeddings.None? && p.anthropicMessages.None?
       && p.bailianEmbedding.None? && p.ollamaChat.None? && p.systemOne.None? {
      return false;
    }
    assert exists protocol :: protocol in PROTOCOLS && EndpointOf(p, protocol).Some? by {
      assert PROTOCOLS[0] in PROTOCOLS && PROTOCOLS[1] in PROTOCOLS && PROTOCOLS[2] in PROTOCOLS
          && PROTOCOLS[3] in PROTOCOLS && PROTOCOLS[4] in PROTOCOLS && PROTOCOLS[5] in PROTOCOLS
          && PROTOCOLS[6] in PROTOCOLS;
      assert EndpointOf(p, PROTOCOLS[0]).Some? || EndpointOf(p, PROTOCOLS[1]).Some? || EndpointOf(p, PROTOCOLS[2]).Some?
          || EndpointOf(p, PROTOCOLS[3]).Some? || EndpointOf(p, PROTOCOLS[4]).Some? || EndpointOf(p, PROTOCOLS[5]).Some?
          || EndpointOf(p, PROTOCOLS[6]).Some?;
    }
    for i := 0 to |PROTOCOLS|
      invariant forall j :: 0 <= j < i && EndpointOf(p, PROTOCOLS[j]).Some? ==>
        EndpointOf(p, PROTOCOLS[j]).value.url != "" && env.urlOk(EndpointOf(p, PROTOCOLS[j]).value.url)
    {
      var ep := EndpointOf(p, PROTOCOLS[i]);
      if ep.Some? && (ep.value.url == "" || !env.urlOk(ep.value.url)) {
        assert PROTOCOLS[i] in PROTOCOLS;
        return false;
      }
    }
    ok := true;
  }

  method ValidateProviders(env: Env, providers: seq<Provider>) returns (ok: bool, byName: map<string, Provider>)
    ensures ok <==> ProvidersOk(env, providers)
    ensures ok ==> forall n :: n in byName <==> exists j :: 0 <= j < |providers| && providers[j].name == n
    ensures ok ==> forall j :: 0 <= j < |providers| ==> providers[j].name in byName && byName[providers[j].name] == providers[j]
  {
    byName := map[];
    if |providers| == 0 {
      return false, byName;
    }
    for i := 0 to |providers|
      invariant ProvidersOk(env, providers[..i]) || i == 0
      invariant forall n :: n in byName <==> exists j :: 0 <= j < i && providers[j].name == n
      invariant forall j :: 0 <= j < i ==> providers[j].name in byName && byName[providers[j].name] == providers[j]
    {
      var p := providers[i];
      if p.name == "" || p.name in byName {
        return false, byName;
      }
      var valid := ValidateProvider(env, p);
      if !valid {
        return false, byName;
      }
      byName := byName[p.name := p];
    }
    assert providers[..|providers|] == providers;
    ok := true;
  }

  predicate ProtocolsOk(p: Provider, protocols: seq<string>) {
    && protocols != [] && Distinct(protocols)
    && forall protocol :: protocol in protocols ==> KnownProtocol(protocol) && EndpointOf(p, protocol).Some?
  }

  method ValidateProtocols(p: Provider, protocols: seq<string>) returns (ok: bool)
    ensures ok <==> ProtocolsOk(p, protocols)
  {
    if |protocols| == 0 {
      return false;
    }
    var seen: set<string> := {};
    for k := 0 to |protocols|
      invariant Distinct(protocols[..k])
      invariant forall q :: q in seen <==> q in protocols[..k]
      invariant forall j :: 0 <= j < k ==> KnownProtocol(protocols[j]) && EndpointOf(p, protocols[j]).Some?
    {
      var protocol := protocols[k];
      if !KnownProtocol(protocol) || EndpointOf(p, protocol).None? {
        assert protocol in protocols;
        return false;
      }
      if protocol in seen {
        var j :| 0 <= j < k && protocols[..k][j] == protocol;
        assert protocols[j] == protocols[k];
        return false;
      }
      seen := seen + {protocol};
    }
    assert protocols[..|protocols|] == protocols;
    ok := true;
  }

  method ValidateRefs(providers: seq<Provider>, byName: map<string, Provider>, m: ModelConfig) returns (ok: bool)
    requires forall i, j :: 0 <= i < j < |providers| ==> providers[i].name != providers[j].name
    requires forall n :: n in byName <==> exists j :: 0 <= j < |providers| && providers[j].name == n
    requires forall j :: 0 <= j < |providers| ==> providers[j].name in byName && byName[providers[j].name] == providers[j]
    requires m.name != ""
    ensures ok <==> ModelOk(providers, m)
  {
    if |m.providers| == 0 {
      return false;
    }
    var seenRef: set<string> := {};
    for j := 0 to |m.providers|
      invariant forall i :: 0 <= i < j ==> RefOk(providers, m.providers[i])
      invariant forall a, b :: 0 <= a < b < j ==> m.providers[a].name != m.providers[b].name
      invariant forall n :: n in seenRef <==> exists i :: 0 <= i < j && m.providers[i].name == n
    {
      var ref := m.providers[j];
      if ref.name == "" || ref.name in seenRef {
        return false;
      }
      if ref.name !in byName {
        assert !RefOk(providers, ref);
        return false;
      }
      var protocolsOk := ValidateProtocols(byName[ref.name], ref.protocols);
      var at :| 0 <= at < |providers| && providers[at].name == ref.name;
      assert byName[ref.name] == providers[at];
      if !protocolsOk {
        assert !RefOk(providers, ref);
        return false;
      }
      seenRef := seenRef + {ref.name};
    }
    ok := true;
  }

  method ValidateModels(providers: seq<Provider>, byName: map<string, Provider>, models: seq<ModelConfig>)
    returns (ok: bool)
    requires forall i, j :: 0 <= i < j < |providers| ==> providers[i].name != providers[j].name
    requires forall n :: n in byName <==> exists j :: 0 <= j < |providers| && providers[j].name == n
    requires forall j :: 0 <= j < |providers| ==> providers[j].name in byName && byName[providers[j].name] == providers[j]
    ensures ok <==> ModelsOk(providers, models)
  {
    if |models| == 0 {
      return false;
    }
    var seen: set<string> := {};
    for i := 0 to |models|
      invariant forall j :: 0 <= j < i ==> ModelOk(providers, models[j])
      invariant forall a, b :: 0 <= a < b < i ==> models[a].name != models[b].name
      invariant forall n :: n in seen <==> exists j :: 0 <= j < i && models[j].name == n
    {
      var m := models[i];
      if m.name == "" || m.name in seen {
        return false;
      }
      var refsOk := ValidateRefs(providers, byName, m);
      if !refsOk {
        return false;
      }
      seen := seen + {m.name};
    }
    ok := true;
  }

  class Configuration {
    const apiKeys: seq<APIKey>
    const providers: seq<Provider>
    const models: seq<ModelConfig>
    const dsn: string
    const retain: Option<int>
    const password: string
    var username: string

    constructor (apiKeys: seq<APIKey>, providers: seq<Provider>, models: seq<ModelConfig>, dsn: string,
                 retain: Option<int>, username: string, password: string)
      ensures this.apiKeys == apiKeys && this.providers == providers && this.models == models && this.dsn == dsn
      ensures this.retain == retain && this.username == username && this.password == password
    {
      this.apiKeys, this.providers, this.models := apiKeys, providers, models;
      this.dsn, this.retain, this.username, this.password := dsn, retain, username, password;
    }

    predicate Valid(env: Env)
      reads this
    {
      && KeysOk(apiKeys) && ProvidersOk(env, providers) && ModelsOk(providers, models)
      && env.trim(dsn) != "" && env.dsnOk(dsn)
      && (retain.Some? ==> retain.value >= 0)
      && env.trim(username) != "" && password != ""
    }

    /** validate accepts exactly the valid configurations, and trims the admin's name. */
    method Validate(env: Env) returns (ok: bool)
      modifies this
      ensures ok <==> old(Valid(env))
      ensures username == old(username) || username == env.trim(old(username))
      ensures ok ==> username == env.trim(old(username))
    {
      ok := ValidateKeys(apiKeys);
      if !ok { return; }
      var byName;
      ok, byName := ValidateProviders(env, providers);
      if !ok { return; }
      ok := ValidateModels(providers, byName, models);
      if !ok { return; }
      if env.trim(dsn) == "" { return false; }
      if !env.dsnOk(dsn) { return false; }
      if retain.Some? && retain.value < 0 { return false; }
      username := env.trim(username);
      if username == "" { return false; }
      if password == "" { return false; }
      ok := true;
    }
  }

  // ----- lookup

  function ModelNamed(models: seq<ModelConfig>, name: string): Option<ModelConfig> {
    if models == [] then None
    else if models[0].name == name then Some(models[0])
    else ModelNamed(models[1..], name)
  }

  function ProviderNamed(providers: seq<Provider>, name: string): Option<Provider> {
    if providers == [] then None
    else if providers[0].name == name then Some(providers[0])
    else ProviderNamed(providers[1..], name)
  }

  lemma {:induction false} ProviderNamedIs(providers: seq<Provider>, i: nat)
    requires i < |providers|
    requires forall a, b :: 0 <= a < b < |providers| ==> providers[a].name != providers[b].name
    ensures ProviderNamed(providers, providers[i].name) == Some(providers[i])
  {
    if i > 0 { ProviderNamedIs(providers[1..], i - 1); }
  }

  lemma {:induction false} ModelNamedIs(models: seq<ModelConfig>, i: nat)
    requires i < |models|
    requires forall a, b :: 0 <= a < b < |models| ==> models[a].name != models[b].name
    ensures ModelNamed(models, models[i].name) == Some(models[i])
  {
    if i > 0 { ModelNamedIs(models[1..], i - 1); }
  }

  /** providers and providersFor as one pass over the associations. */
  function Routed(providers: seq<Provider>, refs: seq<ProviderRef>, protocol: string): seq<Provider> {
    if refs == [] then []
    else
      var before := Routed(providers, refs[..|refs| - 1], protocol);
      match ProviderNamed(providers, refs[|refs| - 1].name)
      case None => before
      case Some(vendor) =>
        var p := Bound(vendor, refs[|refs| - 1]);
        if EndpointOf(p, protocol).Some? then before + [p] else before
  }

  /** The associations with a configured vendor, in order. */
  function Configured(providers: seq<Provider>, refs: seq<ProviderRef>): (kept: seq<ProviderRef>)
    ensures forall i :: 0 <= i < |kept| ==> ProviderNamed(providers, kept[i].name).Some?
  {
    if refs == [] then []
    else
      var before := Configured(providers, refs[..|refs| - 1]);
      if ProviderNamed(providers, refs[|refs| - 1].name).Some? then before + [refs[|refs| - 1]] else before
  }

  /** providers: every association with a configured vendor bound to it, and no other. */
  method BindAll(providers: seq<Provider>, refs: seq<ProviderRef>) returns (out: seq<Provider>)
    ensures |out| == |Configured(providers, refs)|
    ensures forall i :: 0 <= i < |out| ==>
      var ref := Configured(providers, refs)[i]; out[i] == Bound(ProviderNamed(providers, ref.name).value, ref)
    ensures forall protocol :: Serving(out, protocol) == Routed(providers, refs, protocol)
  {
    out := [];
    for j := 0 to |refs|
      invariant |out| == |Configured(providers, refs[..j])|
      invariant forall i :: 0 <= i < |out| ==>
        var ref := Configured(providers, refs[..j])[i]; out[i] == Bound(ProviderNamed(providers, ref.name).value, ref)
      invariant forall protocol :: Serving(out, protocol) == Routed(providers, refs[..j], protocol)
    {
      assert refs[..j + 1][..j] == refs[..j];
      var p := ProviderNamed(providers, refs[j].name);
      if p.None? {
        continue;
      }
      var bound := Bind(p.value, refs[j]);
      assert (out + [bound])[..|out|] == out;
      out := out + [bound];
    }
    assert refs[..|refs|] == refs;
  }

  function Serving(all: seq<Provider>, protocol: string): seq<Provider> {
    if all == [] then []
    else
      var before, p := Serving(all[..|all| - 1], protocol), all[|all| - 1];
      if EndpointOf(p, protocol).Some? then before + [p] else before
  }

  method ProvidersFor(providers: seq<Provider>, models: seq<ModelConfig>, model: string, protocol: string)
    returns (out: seq<Provider>)
    ensures out == match ModelNamed(models, model)
      case None => []
      case Some(m) => Routed(providers, m.providers, protocol)
  {
    out := [];
    var m := ModelNamed(models, model);
    if m.None? {
      return;
    }
    var all := BindAll(providers, m.value.providers);
    for i := 0 to |all|
      invariant out == Serving(all[..i], protocol)
    {
      assert all[..i + 1][..i] == all[..i];
      if EndpointOf(all[i], protocol).Some? {
        out := out + [all[i]];
      }
    }
    assert all[..|all|] == all;
  }

  // ----- routing is total

  /** The associations that list a protocol, in order. */
  function Listing(refs: seq<ProviderRef>, protocol: string): seq<ProviderRef> {
    if refs == [] then []
    else
      var before := Listing(refs[..|refs| - 1], protocol);
      if protocol in refs[|refs| - 1].protocols then before + [refs[|refs| - 1]] else before
  }

  function FirstNonEmpty(a: string, b: string, c: string): string {
    if a != "" then a else if b != "" then b else c
  }

  /** A provider that serves a protocol as its association and its vendor say: the model is
      the endpoint's, else the association's, else the vendor's. */
  predicate Serves(p: Provider, protocol: string, ref: ProviderRef, vendor: Provider) {
    && p.name == ref.name == vendor.name
    && EndpointOf(vendor, protocol).Some?
    && var ep := EndpointOf(vendor, protocol).value;
       Resolve(p, protocol) == Some(Target(ep.url, FirstNonEmpty(ep.model, ref.model, vendor.model), vendor.headers + ep.headers))
  }

  predicate ServesAll(ps: seq<Provider>, protocol: string, refs: seq<ProviderRef>, providers: seq<Provider>) {
    && |ps| == |refs|
    && forall i :: 0 <= i < |ps| ==>
         ProviderNamed(providers, refs[i].name).Some?
         && Serves(ps[i], protocol, refs[i], ProviderNamed(providers, refs[i].name).value)
  }

  lemma RefServes(env: Env, providers: seq<Provider>, ref: ProviderRef, protocol: string)
    requires ProvidersOk(env, providers) && RefOk(providers, ref)
    ensures ProviderNamed(providers, ref.name).Some?
    ensures var vendor := ProviderNamed(providers, ref.name).value;
      && (protocol in ref.protocols <==> EndpointOf(Bound(vendor, ref), protocol).Some?)
      && (protocol in ref.protocols ==> Serves(Bound(vendor, ref), protocol, ref, vendor))
  {
    var at :| 0 <= at < |providers| && providers[at].name == ref.name
      && forall q :: q in ref.protocols ==> EndpointOf(providers[at], q).Some?;
    ProviderNamedIs(providers, at);
    BoundEndpoint(providers[at], ref, protocol);
  }

  lemma {:induction false} RoutedServes(env: Env, providers: seq<Provider>, refs: seq<ProviderRef>, protocol: string)
    requires ProvidersOk(env, providers)
    requires forall i :: 0 <= i < |refs| ==> RefOk(providers, refs[i])
    ensures ServesAll(Routed(providers, refs, protocol), protocol, Listing(refs, protocol), providers)
  {
    if refs != [] {
      RoutedServes(env, providers, refs[..|refs| - 1], protocol);
      RefServes(env, providers, refs[|refs| - 1], protocol);
    }
  }

  /** In a valid configuration a request for a configured model goes to exactly the
      associations that list its protocol, in order, and each of them resolves. */
  lemma RoutingTotal(env: Env, providers: seq<Provider>, models: seq<ModelConfig>, i: nat, protocol: string)
    requires ProvidersOk(env, providers) && ModelsOk(providers, models) && i < |models|
    ensures ModelNamed(models, models[i].name) == Some(models[i])
    ensures ServesAll(Routed(providers, models[i].providers, protocol), protocol,
                      Listing(models[i].providers, protocol), providers)
  {
    ModelNamedIs(models, i);
    RoutedServes(env, providers, models[i].providers, protocol);
  }
}
