/** What the providers of a failover run are sent, and what the client gets, told from the
    request, the configuration and what the upstreams do. */
module FailoverTheorems {
  import opened Options
  import opened Json
  import opened Rewrite
  import opened Config
  import opened Failover

  // ----- what a provider is sent

  /** A request that can be rewritten for its provider. */
  predicate Sendable(r: Request) {
    && r.cd.decode(r.meta.body).Some?
    && var opts := Get(r.cd.decode(r.meta.body).value, "stream_options");
       !(r.meta.stream && r.inject) || opts == None || opts.value.Null? || opts.value.Obj?
  }

  /** The request on record is the client's, with the model the provider resolves to, and
      asked for usage if it streams and usage is to be injected. */
  lemma RequestSent(rec: Record, r: Request, p: Provider, u: Upstream)
    requires r.cd.Lawful() && Attempted(rec, r, p, u) && Resolve(p, r.protocol).Some? && Sendable(r)
    ensures var out := r.cd.decode(rec.request);
      && out.Some?
      && SentAs(out.value, r.cd.decode(r.meta.body).value, Resolve(p, r.protocol).value.model, r.meta.stream && r.inject)
  {
    var model := Resolve(p, r.protocol).value.model;
    RewriteSucceedsExactly(r.cd, r.meta.body, model, r.meta.stream, r.inject);
    RewriteKeepsTheRest(r.cd, r.meta.body, model, r.meta.stream, r.inject);
  }

  /** A request that cannot be sent is on record as it came, as a failure with status 400. */
  lemma RequestRefused(rec: Record, r: Request, p: Provider, u: Upstream)
    requires Attempted(rec, r, p, u) && Resolve(p, r.protocol).Some? && !Sendable(r)
    ensures rec == Record(p.name, r.meta.body, 400, true)
  {
    if r.cd.decode(r.meta.body).Some? {
      RewriteSucceedsExactly(r.cd, r.meta.body, Resolve(p, r.protocol).value.model, r.meta.stream, r.inject);
    }
  }

  /** What the record of a sent request says of its answer. */
  lemma AnswerRecorded(rec: Record, r: Request, p: Provider, u: Upstream)
    requires Attempted(rec, r, p, u) && Resolve(p, r.protocol).Some? && Sendable(r)
    ensures rec.provider == p.name
    ensures u.Answered? ==> rec.status == u.status
    ensures u.Answered? ==> (rec.failed <==> u.status in {502, 503, 504} || u.copyErr.Some?)
    ensures !u.Answered? ==> rec.status == 0 && rec.failed
  {
    RewriteSucceedsExactly(r.cd, r.meta.body, Resolve(p, r.protocol).value.model, r.meta.stream, r.inject);
  }

  /** A provider without the endpoint is passed over, and its record says so. */
  lemma NoEndpointMovesOn(rec: Record, r: Request, p: Provider, u: Upstream)
    requires Attempted(rec, r, p, u) && Resolve(p, r.protocol).None?
    ensures rec == Record(p.name, r.meta.body, 0, true) && MovesOn(r, p, u)
  {
    FailsOverExactly(Plain("no endpoint"));
    CauseInChain(Plain("no endpoint"), Canceled);
    FirstSuchIs(Plain("no endpoint"), IsUrlError);
  }

  /** In a valid configuration every attempt of a run is on record with the request sent in the
      name of its association: the model is the endpoint's, else the association's, else the
      vendor's, else the client's own. */
  lemma RunSends(env: Env, providers: seq<Provider>, models: seq<ModelConfig>, m: nat, r: Request,
                 before: seq<Record>, log: seq<Record>, us: seq<Upstream>, n: nat, i: nat)
    requires r.cd.Lawful() && ProvidersOk(env, providers) && ModelsOk(providers, models) && m < |models| && Sendable(r)
    requires Logged(before, log, r, Routed(providers, models[m].providers, r.protocol), us, n) && i < n
    ensures var refs := Listing(models[m].providers, r.protocol);
      && i < |refs| && ProviderNamed(providers, refs[i].name).Some?
      && var vendor := ProviderNamed(providers, refs[i].name).value;
      && EndpointOf(vendor, r.protocol).Some?
      && log[|before| + i].provider == refs[i].name
      && var out := r.cd.decode(log[|before| + i].request);
         out.Some?
         && SentAs(out.value, r.cd.decode(r.meta.body).value,
                   FirstNonEmpty(EndpointOf(vendor, r.protocol).value.model, refs[i].model, vendor.model),
                   r.meta.stream && r.inject)
  {
    RoutingTotal(env, providers, models, m, r.protocol);
    var routed := Routed(providers, models[m].providers, r.protocol);
    assert Serves(routed[i], r.protocol, Listing(models[m].providers, r.protocol)[i],
                  ProviderNamed(providers, Listing(models[m].providers, r.protocol)[i].name).value);
    RequestSent(log[|before| + i], r, routed[i], us[i]);
  }

  // ----- where the run goes, and what the client gets

  /** An answered attempt goes on to the next provider exactly at three statuses. */
  lemma AnswerMovesOnExactly(r: Request, p: Provider, status: nat, copyErr: Option<GoError>)
    requires Resolve(p, r.protocol).Some? && Sendable(r)
    ensures MovesOn(r, p, Answered(status, copyErr)) <==> status in {502, 503, 504}
  {
    RewriteSucceedsExactly(r.cd, r.meta.body, Resolve(p, r.protocol).value.model, r.meta.stream, r.inject);
    if CatastrophicStatus(status) { FailoverStatusMovesOn(r, p, status, copyErr); }
  }

  /** An attempt without an answer goes on exactly at a dial failure, a failed name lookup, or
      anything else that is no timeout, unless the client has canceled. */
  lemma ErrorMovesOnExactly(r: Request, p: Provider, e: GoError)
    requires Resolve(p, r.protocol).Some? && Sendable(r)
    ensures var why := Dialing(Unwrapped(e)) || LookingUp(Unwrapped(e))
          || !(Cause(e) == DeadlineExceeded || TimedOut(Bare(Unwrapped(e))));
      && (MovesOn(r, p, NotAnswered(e)) <==> Cause(e) != Canceled && why)
      && (MovesOn(r, p, NotBuilt(e)) <==> Cause(e) != Canceled && why)
  {
    RewriteSucceedsExactly(r.cd, r.meta.body, Resolve(p, r.protocol).value.model, r.meta.stream, r.inject);
    FailsOverExactly(e);
    CauseInChain(e, Canceled);
  }

  /** Every attempt of a run but its last was answered with one of three statuses, or was not
      answered, for no timeout and by no cancellation. */
  lemma EarlierMovedOn(r: Request, providers: seq<Provider>, us: seq<Upstream>, n: nat, i: nat)
    requires n <= |providers| == |us| && AllMovedOn(r, providers, us, n) && i < n
    requires Resolve(providers[i], r.protocol).Some?
    ensures Sendable(r)
    ensures us[i].Answered? ==> us[i].status in {502, 503, 504}
    ensures !us[i].Answered? ==>
      && Cause(us[i].e) != Canceled
      && (Dialing(Unwrapped(us[i].e)) || LookingUp(Unwrapped(us[i].e))
          || !(Cause(us[i].e) == DeadlineExceeded || TimedOut(Bare(Unwrapped(us[i].e)))))
  {
    RewriteOutcome(r, providers[i]);
    if us[i].Answered? {
      AnswerMovesOnExactly(r, providers[i], us[i].status, us[i].copyErr);
    } else {
      ErrorMovesOnExactly(r, providers[i], us[i].e);
    }
  }

  /** The last attempt of a run decides what the client gets: the status of an answer that is
      passed on, 400 for a request that cannot be sent, 504 for a timeout, nothing if the client
      has canceled, and 502 for all else. */
  lemma ClientGets(r: Request, p: Provider, u: Upstream, starts: nat, status: nat)
    requires Resolve(p, r.protocol).Some? && Ended(r, p, u, starts, status)
    ensures !Sendable(r) ==> starts == 1 && status == 400
    ensures Sendable(r) && u.Answered? ==> starts == 1 && status == if u.status in {502, 503, 504} then 502 else u.status
    ensures Sendable(r) && !u.Answered? && Cause(u.e) == Canceled ==> starts == 0
    ensures Sendable(r) && !u.Answered? && Cause(u.e) != Canceled ==>
      starts == 1
      && status == if !Dialing(Unwrapped(u.e)) && !LookingUp(Unwrapped(u.e))
                      && (Cause(u.e) == DeadlineExceeded || (TimedOut(Bare(Unwrapped(u.e))) && TimedOut(Bare(u.e))))
                   then 504 else 502
  {
    RewriteOutcome(r, p);
    if !u.Answered? {
      FailsOverExactly(u.e);
      CauseInChain(u.e, Canceled);
      StatusFromErrExactly(u.e);
    } else {
      PlainMovesOn();
    }
  }

  lemma RewriteOutcome(r: Request, p: Provider)
    requires Resolve(p, r.protocol).Some?
    ensures PayloadFor(r, p).Ok? <==> Sendable(r)
  {
    if r.cd.decode(r.meta.body).Some? {
      RewriteSucceedsExactly(r.cd, r.meta.body, Resolve(p, r.protocol).value.model, r.meta.stream, r.inject);
    }
  }

  lemma PlainMovesOn()
    ensures CatastrophicError(Plain("upstream status")) && Canceled !in Chain(Plain("upstream status"))
  {
    FailsOverExactly(Plain("upstream status"));
    CauseInChain(Plain("upstream status"), Canceled);
    FirstSuchIs(Plain("upstream status"), IsUrlError);
  }
}
