/** Every reason validate has to reject a configuration, and the names of the protocols. */
module ConfigTheorems {
  import opened Options
  import opened Config

  // ----- protocols

  predicate ProtocolName(s: string) {
    || s == "openai_completions" || s == "openai_responses" || s == "openai_embeddings"
    || s == "anthropic_messages" || s == "bailian_multimodal_embedding" || s == "ollama_chat"
    || s == "typesafe_systemone"
  }

  lemma KnownExactly(protocol: string)
    ensures KnownProtocol(protocol) <==> ProtocolName(protocol)
  {
    assert PROTOCOLS[0] in PROTOCOLS && PROTOCOLS[1] in PROTOCOLS && PROTOCOLS[2] in PROTOCOLS && PROTOCOLS[3] in PROTOCOLS;
    assert PROTOCOLS[4] in PROTOCOLS && PROTOCOLS[5] in PROTOCOLS && PROTOCOLS[6] in PROTOCOLS;
  }

  /** Each protocol has its own block of a provider. */
  lemma EndpointsNamed(p: Provider)
    ensures EndpointOf(p, "openai_completions") == p.openAICompletions
    ensures EndpointOf(p, "openai_responses") == p.openAIResponses
    ensures EndpointOf(p, "openai_embeddings") == p.openAIEmbeddings
    ensures EndpointOf(p, "anthropic_messages") == p.anthropicMessages
    ensures EndpointOf(p, "bailian_multimodal_embedding") == p.bailianEmbedding
    ensures EndpointOf(p, "ollama_chat") == p.ollamaChat
    ensures EndpointOf(p, "typesafe_systemone") == p.systemOne
    ensures forall protocol :: !ProtocolName(protocol) ==> EndpointOf(p, protocol) == None
  {
  }

  // ----- reasons to reject

  predicate KeyFlaw(keys: seq<APIKey>) {
    || keys == []
    || (exists i :: 0 <= i < |keys| && (keys[i].name == "" || keys[i].value == ""))
    || (exists i, j :: 0 <= i < j < |keys| && keys[i].name == keys[j].name)
    || (exists i, j :: 0 <= i < j < |keys| && keys[i].value == keys[j].value)
  }

  lemma KeysRejected(keys: seq<APIKey>)
    ensures KeysOk(keys) <==> !KeyFlaw(keys)
  {
  }

  predicate BadEndpoint(env: Env, ep: Option<Endpoint>) {
    ep.Some? && (ep.value.url == "" || !env.urlOk(ep.value.url))
  }

  /** No endpoint at all, or one without an acceptable URL. */
  predicate VendorFlaw(env: Env, p: Provider) {
    || (&& p.openAICompletions.None? && p.openAIResponses.None? && p.openAIEmbeddings.None?
        && p.anthropicMessages.None? && p.bailianEmbedding.None? && p.ollamaChat.None? && p.systemOne.None?)
    || BadEndpoint(env, p.openAICompletions) || BadEndpoint(env, p.openAIResponses)
    || BadEndpoint(env, p.openAIEmbeddings) || BadEndpoint(env, p.anthropicMessages)
    || BadEndpoint(env, p.bailianEmbedding) || BadEndpoint(env, p.ollamaChat) || BadEndpoint(env, p.systemOne)
  }

  predicate Good(env: Env, p: Provider, protocol: string) {
    EndpointOf(p, protocol).Some? ==> EndpointOf(p, protocol).value.url != "" && env.urlOk(EndpointOf(p, protocol).value.url)
  }

  lemma AllProtocols(env: Env, p: Provider)
    ensures (forall protocol :: protocol in PROTOCOLS ==> Good(env, p, protocol)) <==>
      forall i :: 0 <= i < 7 ==> Good(env, p, PROTOCOLS[i])
    ensures (exists protocol :: protocol in PROTOCOLS && EndpointOf(p, protocol).Some?) <==>
      exists i :: 0 <= i < 7 && EndpointOf(p, PROTOCOLS[i]).Some?
  {
  }

  lemma VendorRejected(env: Env, p: Provider)
    ensures ProviderOk(env, p) <==> !VendorFlaw(env, p)
  {
    AllProtocols(env, p);
    EndpointsNamed(p);
    assert forall protocol :: Good(env, p, protocol) <==> !BadEndpoint(env, EndpointOf(p, protocol));
    SevenEndpoints(env, p);
  }

  lemma SevenEndpoints(env: Env, p: Provider)
    ensures (forall i :: 0 <= i < 7 ==> Good(env, p, PROTOCOLS[i])) <==>
      && Good(env, p, PROTOCOLS[0]) && Good(env, p, PROTOCOLS[1]) && Good(env, p, PROTOCOLS[2])
      && Good(env, p, PROTOCOLS[3]) && Good(env, p, PROTOCOLS[4]) && Good(env, p, PROTOCOLS[5])
      && Good(env, p, PROTOCOLS[6])
    ensures (exists i :: 0 <= i < 7 && EndpointOf(p, PROTOCOLS[i]).Some?) <==>
      || EndpointOf(p, PROTOCOLS[0]).Some? || EndpointOf(p, PROTOCOLS[1]).Some? || EndpointOf(p, PROTOCOLS[2]).Some?
      || EndpointOf(p, PROTOCOLS[3]).Some? || EndpointOf(p, PROTOCOLS[4]).Some? || EndpointOf(p, PROTOCOLS[5]).Some?
      || EndpointOf(p, PROTOCOLS[6]).Some?
  {
  }

  predicate ProviderFlaw(env: Env, providers: seq<Provider>) {
    || providers == []
    || (exists i :: 0 <= i < |providers| && (providers[i].name == "" || VendorFlaw(env, providers[i])))
    || (exists i, j :: 0 <= i < j < |providers| && providers[i].name == providers[j].name)
  }

  lemma ProvidersRejected(env: Env, providers: seq<Provider>)
    ensures ProvidersOk(env, providers) <==> !ProviderFlaw(env, providers)
  {
    forall i | 0 <= i < |providers| ensures ProviderOk(env, providers[i]) <==> !VendorFlaw(env, providers[i]) {
      VendorRejected(env, providers[i]);
    }
  }

  /** An association without a name or with an unknown one, without protocols, with one that is
      unknown, listed twice or not served by the vendor. */
  predicate RefFlaw(providers: seq<Provider>, ref: ProviderRef) {
    || ref.name == "" || (forall i :: 0 <= i < |providers| ==> providers[i].name != ref.name)
    || ref.protocols == []
    || (exists k :: 0 <= k < |ref.protocols| && !ProtocolName(ref.protocols[k]))
    || (exists j, k :: 0 <= j < k < |ref.protocols| && ref.protocols[j] == ref.protocols[k])
    || (exists i, k :: 0 <= i < |providers| && 0 <= k < |ref.protocols|
          && providers[i].name == ref.name && EndpointOf(providers[i], ref.protocols[k]).None?)
  }

  lemma RefRejected(providers: seq<Provider>, ref: ProviderRef)
    requires forall i, j :: 0 <= i < j < |providers| ==> providers[i].name != providers[j].name
    ensures RefOk(providers, ref) <==> !RefFlaw(providers, ref)
  {
    forall protocol ensures KnownProtocol(protocol) <==> ProtocolName(protocol) { KnownExactly(protocol); }
    if !RefFlaw(providers, ref) {
      var i :| 0 <= i < |providers| && providers[i].name == ref.name;
      assert forall k :: 0 <= k < |ref.protocols| ==> EndpointOf(providers[i], ref.protocols[k]).Some?;
    }
  }

  predicate ModelFlaw(providers: seq<Provider>, models: seq<ModelConfig>) {
    || models == []
    || (exists i :: 0 <= i < |models| && (models[i].name == "" || models[i].providers == []))
    || (exists i, j :: 0 <= i < j < |models| && models[i].name == models[j].name)
    || (exists i, k :: 0 <= i < |models| && 0 <= k < |models[i].providers| && RefFlaw(providers, models[i].providers[k]))
    || (exists i, j, k :: 0 <= i < |models| && 0 <= j < k < |models[i].providers|
          && models[i].providers[j].name == models[i].providers[k].name)
  }

  lemma ModelsRejected(providers: seq<Provider>, models: seq<ModelConfig>)
    requires forall i, j :: 0 <= i < j < |providers| ==> providers[i].name != providers[j].name
    ensures ModelsOk(providers, models) <==> !ModelFlaw(providers, models)
  {
    forall i, k | 0 <= i < |models| && 0 <= k < |models[i].providers|
      ensures RefOk(providers, models[i].providers[k]) <==> !RefFlaw(providers, models[i].providers[k])
    {
      RefRejected(providers, models[i].providers[k]);
    }
  }

  /** A configuration is rejected exactly for one of these reasons. */
  lemma RejectedExactly(c: Configuration, env: Env)
    ensures !c.Valid(env) <==>
      || KeyFlaw(c.apiKeys) || ProviderFlaw(env, c.providers) || ModelFlaw(c.providers, c.models)
      || env.trim(c.dsn) == "" || !env.dsnOk(c.dsn)
      || (c.retain.Some? && c.retain.value < 0)
      || env.trim(c.username) == "" || c.password == ""
  {
    KeysRejected(c.apiKeys);
    ProvidersRejected(env, c.providers);
    if !ProviderFlaw(env, c.providers) { ModelsRejected(c.providers, c.models); }
  }
}
