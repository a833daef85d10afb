/** The failover run of proxy.go and failover.go: providers tried in order until one
    answers, with a tracker of whether the client has been written to. */
module Failover {
  import opened Options
  import opened Bytes
  import opened JsonCodec
  import opened Rewrite
  import opened Config

  // ----- errors

  /** Go errors as errors.Is and errors.As see them: a chain of wrappers over a cause. */
  datatype GoError =
    | Canceled                                  // context.Canceled
    | DeadlineExceeded                          // context.DeadlineExceeded
    | DnsError(timedOut: bool, wraps: Option<GoError>)  // *net.DNSError, over a context error if any
    | Timeout                                   // any other net.Error that timed out
    | Plain(text: string)
    | UrlError(inner: GoError)                  // *url.Error
    | OpError(op: string, inner: GoError)       // *net.OpError
    | Wrapped(inner: GoError)                   // fmt.Errorf with %w

  /** The Unwrap method of an error. */
  function Inner(e: GoError): (r: Option<GoError>)
    ensures r.Some? ==> r.value < e
  {
    match e
    case UrlError(inner) => Some(inner)
    case OpError(_, inner) => Some(inner)
    case Wrapped(inner) => Some(inner)
    case DnsError(_, wraps) => wraps
    case _ => None
  }

  /** The errors of a chain, outermost first. */
  function Chain(e: GoError): (c: seq<GoError>)
    ensures c != [] && c[0] == e
  {
    if Inner(e).Some? then [e] + Chain(Inner(e).value) else [e]
  }

  /** The first error of a chain that satisfies p: what errors.As finds. */
  function FirstSuch(c: seq<GoError>, p: GoError -> bool): (r: Option<GoError>)
    ensures r.Some? ==> r.value in c && p(r.value)
    ensures r.None? ==> forall e :: e in c ==> !p(e)
  {
    if c == [] then None else if p(c[0]) then Some(c[0]) else FirstSuch(c[1..], p)
  }

  /** The Timeout method of a net.Error; UrlError and OpError ask what they hold. */
  predicate TimedOut(e: GoError) {
    match e
    case DeadlineExceeded => true
    case Timeout => true
    case DnsError(t, _) => t
    case UrlError(inner) => TimedOut(inner)
    case OpError(_, inner) => TimedOut(inner)
    case _ => false
  }

  predicate IsNetError(e: GoError) {
    e.DeadlineExceeded? || e.Timeout? || e.DnsError? || e.UrlError? || e.OpError?
  }

  predicate IsUrlError(e: GoError) { e.UrlError? }

  predicate IsOpError(e: GoError) { e.OpError? }

  predicate IsDnsError(e: GoError) { e.DnsError? }

  function Unwrapped(e: GoError): GoError {
    match FirstSuch(Chain(e), IsUrlError)
    case Some(UrlError(inner)) => inner
    case _ => e
  }

  /** isCatastrophic on an error with status 0. */
  predicate CatastrophicError(e0: GoError) {
    var e := Unwrapped(e0);
    var op := FirstSuch(Chain(e), IsOpError);
    var ne := FirstSuch(Chain(e), IsNetError);
    if Canceled in Chain(e) then false
    else if op.Some? && op.value.op == "dial" then true
    else if FirstSuch(Chain(e), IsDnsError).Some? then true
    else if ne.Some? && TimedOut(ne.value) then false
    else if DeadlineExceeded in Chain(e) then false
    else true
  }

  predicate CatastrophicStatus(status: nat) {
    status == 502 || status == 503 || status == 504
  }

  function StatusFromErr(e: GoError): nat {
    var ne := FirstSuch(Chain(e), IsNetError);
    if (ne.Some? && TimedOut(ne.value)) || DeadlineExceeded in Chain(e) then 504 else 502
  }

  // ----- when an error fails over, read off its layers

  /** The cause at the bottom of a chain. */
  function Cause(e: GoError): GoError {
    if Inner(e).Some? then Cause(Inner(e).value) else e
  }

  /** An error without the fmt.Errorf wrappers around it. */
  function Bare(e: GoError): GoError {
    if e.Wrapped? then Bare(e.inner) else e
  }

  /** The outermost net.OpError is a failure to dial. */
  predicate Dialing(e: GoError) {
    if e.OpError? then e.op == "dial" else Inner(e).Some? && Dialing(Inner(e).value)
  }

  /** There is a failed name lookup in the chain. */
  predicate LookingUp(e: GoError) {
    e.DnsError? || (Inner(e).Some? && LookingUp(Inner(e).value))
  }

  lemma FirstSuchIs(e: GoError, p: GoError -> bool)
    ensures FirstSuch(Chain(e), p) ==
      if p(e) then Some(e) else if Inner(e).Some? then FirstSuch(Chain(Inner(e).value), p) else None
  {
    if Inner(e).Some? {
      assert Chain(e)[1..] == Chain(Inner(e).value);
    } else {
      assert Chain(e)[1..] == [];
    }
  }

  lemma {:induction false} CauseInChain(e: GoError, x: GoError)
    requires Inner(x).None?
    ensures x in Chain(e) <==> Cause(e) == x
  {
    if Inner(e).Some? { CauseInChain(Inner(e).value, x); }
  }

  lemma {:induction false} LayersFound(e: GoError)
    ensures var op, ne := FirstSuch(Chain(e), IsOpError), FirstSuch(Chain(e), IsNetError);
      && (op.Some? && op.value.op == "dial" <==> Dialing(e))
      && (ne.Some? && TimedOut(ne.value) <==> TimedOut(Bare(e)))
      && (FirstSuch(Chain(e), IsDnsError).Some? <==> LookingUp(e))
  {
    FirstSuchIs(e, IsOpError);
    FirstSuchIs(e, IsNetError);
    FirstSuchIs(e, IsDnsError);
    if Inner(e).Some? { LayersFound(Inner(e).value); }
  }

  lemma {:induction false} UnwrappedCause(e: GoError)
    ensures Cause(Unwrapped(e)) == Cause(e)
  {
    FirstSuchIs(e, IsUrlError);
    if !e.UrlError? && Inner(e).Some? { UnwrappedCause(Inner(e).value); }
  }

  /** Any error fails over exactly when its cause is no cancellation, and it is a dial
      failure, a failed name lookup, or no timeout. */
  lemma FailsOverExactly(e: GoError)
    ensures CatastrophicError(e) <==>
      && Cause(e) != Canceled
      && (Dialing(Unwrapped(e)) || LookingUp(Unwrapped(e))
          || !(Cause(e) == DeadlineExceeded || TimedOut(Bare(Unwrapped(e)))))
  {
    UnwrappedCause(e);
    CauseInChain(Unwrapped(e), Canceled);
    CauseInChain(Unwrapped(e), DeadlineExceeded);
    LayersFound(Unwrapped(e));
  }

  /** In particular a url.Error over a net.OpError, as http.Client reports a failed round
      trip: what the operation wraps decides, whatever its layers. */
  lemma TransportFailsOverExactly(op: string, inner: GoError)
    ensures CatastrophicError(UrlError(OpError(op, inner))) <==>
      && Cause(inner) != Canceled
      && (op == "dial" || LookingUp(inner) || !(Cause(inner) == DeadlineExceeded || TimedOut(inner)))
  {
    FailsOverExactly(UrlError(OpError(op, inner)));
    FirstSuchIs(UrlError(OpError(op, inner)), IsUrlError);
  }

  /** A lookup the client canceled does not fail over, unlike one that timed out. */
  lemma CanceledLookupStays(op: string, timedOut: bool)
    ensures !CatastrophicError(UrlError(OpError(op, DnsError(timedOut, Some(Canceled)))))
    ensures CatastrophicError(UrlError(OpError(op, DnsError(timedOut, Some(DeadlineExceeded)))))
  {
    TransportFailsOverExactly(op, DnsError(timedOut, Some(Canceled)));
    TransportFailsOverExactly(op, DnsError(timedOut, Some(DeadlineExceeded)));
  }

  /** The status the client gets for an error that does not fail over: 504 for a timeout. */
  lemma StatusFromErrExactly(e: GoError)
    ensures StatusFromErr(e) == if Cause(e) == DeadlineExceeded || TimedOut(Bare(e)) then 504 else 502
  {
    CauseInChain(e, DeadlineExceeded);
    LayersFound(e);
  }

  // ----- one run

  /** What happens to the request once it has been rewritten for a provider. */
  datatype Upstream =
    | NotBuilt(e: GoError)                              // http.NewRequest fails
    | NotAnswered(e: GoError)                           // client.Do fails
    | Answered(status: nat, copyErr: Option<GoError>)   // a response, and how copying it ends

  datatype Record = Record(provider: string, request: Bytes, status: nat, failed: bool)

  /** Where a run goes after forward returns. */
  datatype Verdict = Stop | NextProvider | Report

  /** The request of a run: fixed for all its attempts. */
  datatype Request = Request(cd: Codec, meta: Meta, protocol: string, inject: bool)

  function PayloadFor(r: Request, p: Provider): Result<Bytes, RequestError> {
    var target := Resolve(p, r.protocol);
    if target.None? then Err(InvalidJson)
    else Rewritten(r.cd, r.meta.body, target.value.model, r.meta.stream, r.inject)
  }

  /** The attempt starts the client's response: an answer that is no failover status, or a
      request that cannot be rewritten. */
  predicate Writes(r: Request, p: Provider, u: Upstream) {
    Resolve(p, r.protocol).Some?
    && (PayloadFor(r, p).Err? || (u.Answered? && !CatastrophicStatus(u.status)))
  }

  /** The error of an attempt that has not written; none of the others matters. */
  function ErrorOf(r: Request, p: Provider, u: Upstream): GoError {
    if Resolve(p, r.protocol).None? then Plain("no endpoint")
    else match u
      case NotBuilt(e) => e
      case NotAnswered(e) => e
      case Answered(_, _) => Plain("upstream status")
  }

  predicate MovesOn(r: Request, p: Provider, u: Upstream) {
    !Writes(r, p, u) && Canceled !in Chain(ErrorOf(r, p, u)) && CatastrophicError(ErrorOf(r, p, u))
  }

  /** The first n attempts have all moved on. */
  predicate AllMovedOn(r: Request, providers: seq<Provider>, us: seq<Upstream>, n: nat)
    requires n <= |providers| == |us|
  {
    forall i :: 0 <= i < n ==> MovesOn(r, providers[i], us[i])
  }

  lemma OneMoreMovedOn(r: Request, providers: seq<Provider>, us: seq<Upstream>, n: nat)
    requires n < |providers| == |us| && AllMovedOn(r, providers, us, n) && MovesOn(r, providers[n], us[n])
    ensures AllMovedOn(r, providers, us, n + 1)
  {
  }

  predicate CanceledUnwritten(r: Request, p: Provider, u: Upstream) {
    !Writes(r, p, u) && Canceled in Chain(ErrorOf(r, p, u))
  }

  /** The answer of the upstream is passed on. */
  predicate PassedOn(r: Request, p: Provider, u: Upstream) {
    Writes(r, p, u) && PayloadFor(r, p).Ok?
  }

  /** The status of the response: the answer's own, 400 for a request that cannot be
      rewritten, 502 if there was no more provider, else what the error says. */
  function StatusSent(r: Request, p: Provider, u: Upstream): nat {
    if PassedOn(r, p, u) then u.status
    else if Writes(r, p, u) then 400
    else if MovesOn(r, p, u) then 502
    else StatusFromErr(ErrorOf(r, p, u))
  }

  /** How a run that ends with this attempt leaves the client: one response, none if the
      client canceled before any. */
  predicate Ended(r: Request, p: Provider, u: Upstream, starts: nat, status: nat) {
    && starts == (if CanceledUnwritten(r, p, u) then 0 else 1)
    && (starts == 1 ==> status == StatusSent(r, p, u))
  }

  lemma ExhaustedEnds(r: Request, p: Provider, u: Upstream)
    requires MovesOn(r, p, u)
    ensures Ended(r, p, u, 1, 502)
  {
  }

  /** A status the upstream answered with always moves on. */
  lemma FailoverStatusMovesOn(r: Request, p: Provider, status: nat, copyErr: Option<GoError>)
    requires status in {502, 503, 504} && PayloadFor(r, p).Ok?
    ensures MovesOn(r, p, Answered(status, copyErr))
  {
    var e := Plain("upstream status");
    assert Chain(e) == [e];
    assert Chain(e)[1..] == [];
  }

  /** The record of one attempt: its own rewritten request, the status the upstream answered
      with (400 if it could not be asked, 0 if it did not answer), and no failure only if
      the answer was passed on whole. */
  predicate Attempted(rec: Record, r: Request, p: Provider, u: Upstream) {
    && rec.provider == p.name && rec.request == PayloadFor(r, p).GetOr(r.meta.body)
    && rec.status == (if Resolve(p, r.protocol).None? then 0
                      else if PayloadFor(r, p).Err? then 400
                      else if u.Answered? then u.status else 0)
    && (!rec.failed <==> PassedOn(r, p, u) && u.copyErr.None?)
  }

  /** One record per attempt, in order. */
  predicate Logged(before: seq<Record>, log: seq<Record>, r: Request, providers: seq<Provider>, us: seq<Upstream>, n: nat) {
    && n <= |providers| == |us| && |log| == |before| + n && before <= log
    && forall i :: 0 <= i < n ==> Attempted(log[|before| + i], r, providers[i], us[i])
  }

  lemma LoggedStep(before: seq<Record>, log: seq<Record>, rec: Record, r: Request, providers: seq<Provider>,
                   us: seq<Upstream>, n: nat)
    requires Logged(before, log, r, providers, us, n) && n < |providers| && Attempted(rec, r, providers[n], us[n])
    ensures Logged(before, log + [rec], r, providers, us, n + 1)
  {
  }

  class ResponseWriter {
    var starts: nat
    var status: nat

    constructor ()
      ensures starts == 0
    {
      starts, status := 0, 0;
    }

    method WriteHeader(status: nat)
      modifies this
      ensures starts == old(starts) + 1 && this.status == status
    {
      starts := starts + 1;
      this.status := status;
    }
  }

  class WriteTracker {
    const w: ResponseWriter
    var wrote: bool

    constructor (w: ResponseWriter)
      ensures this.w == w && !wrote
    {
      this.w, wrote := w, false;
    }

    method WriteHeader(status: nat)
      modifies this, w
      ensures wrote && w.starts == old(w.starts) + 1 && w.status == status
    {
      wrote := true;
      w.WriteHeader(status);
    }
  }

  class Proxy {
    var log: seq<Record>

    constructor ()
      ensures log == []
    {
      log := [];
    }

    method LogCall(rec: Record)
      modifies this
      ensures log == old(log) + [rec]
    {
      log := log + [rec];
    }

    /** forward: one attempt, one record, and at most one start of the response. */
    method Forward(tw: WriteTracker, r: Request, p: Provider, u: Upstream) returns (err: Option<GoError>)
      requires !tw.wrote
      modifies this, tw, tw.w
      ensures log != [] && log == old(log) + [log[|log| - 1]] && Attempted(log[|log| - 1], r, p, u)
      ensures tw.wrote == Writes(r, p, u)
      ensures tw.w.starts == old(tw.w.starts) + if tw.wrote then 1 else 0
      ensures !tw.wrote ==> err == Some(ErrorOf(r, p, u))
      ensures tw.wrote ==> tw.w.status == if PassedOn(r, p, u) then u.status else 400
      ensures PassedOn(r, p, u) ==> err == u.copyErr
    {
      var target := Resolve(p, r.protocol);
      if target.None? {
        err := Some(Plain("no endpoint"));
        LogCall(Record(p.name, r.meta.body, 0, true));
        return;
      }
      var payload := RewriteRequest(r.cd, r.meta.body, target.value.model, r.meta.stream, r.inject);
      if payload.Err? {
        err := Some(Plain("rewrite"));
        LogCall(Record(p.name, r.meta.body, 400, true));
        tw.WriteHeader(400);
        return;
      }
      match u {
        case NotBuilt(e) =>
          LogCall(Record(p.name, payload.value, 0, true));
          err := Some(e);
        case NotAnswered(e) =>
          LogCall(Record(p.name, payload.value, 0, true));
          err := Some(e);
        case Answered(status, copyErr) =>
          if CatastrophicStatus(status) {
            LogCall(Record(p.name, payload.value, status, true));
            err := Some(Plain("upstream status"));
          } else {
            tw.WriteHeader(status);
            LogCall(Record(p.name, payload.value, status, copyErr.Some?));
            err := copyErr;
          }
      }
    }

    /** One turn of the loop: forward, and what ServeHTTP does with its error. */
    method Try(tw: WriteTracker, r: Request, p: Provider, u: Upstream) returns (verdict: Verdict, err: Option<GoError>)
      requires !tw.wrote && tw.w.starts == 0
      modifies this, tw, tw.w
      ensures log != [] && log == old(log) + [log[|log| - 1]] && Attempted(log[|log| - 1], r, p, u)
      ensures verdict.NextProvider? <==> MovesOn(r, p, u)
      ensures verdict.NextProvider? ==> err.Some? && !tw.wrote
      ensures verdict.NextProvider? ==> tw.w.starts == 0
      ensures !verdict.NextProvider? ==> Ended(r, p, u, tw.w.starts, tw.w.status)
    {
      err := Forward(tw, r, p, u);
      if tw.wrote {
        return Stop, err;
      }
      if err.None? || Canceled in Chain(err.value) {
        return Stop, err;
      }
      if CatastrophicError(err.value) {
        return NextProvider, err;
      }
      tw.w.WriteHeader(StatusFromErr(err.value));
      verdict := Report;
    }

    /** The provider loop of ServeHTTP. us is what each upstream would do. */
    method Serve(w: ResponseWriter, r: Request, providers: seq<Provider>, us: seq<Upstream>) returns (tried: nat)
      requires w.starts == 0 && providers != [] && |us| == |providers|
      modifies this, w
      ensures 1 <= tried <= |providers|
      ensures AllMovedOn(r, providers, us, tried - 1)
      ensures tried < |providers| ==> !MovesOn(r, providers[tried - 1], us[tried - 1])
      ensures Logged(old(log), log, r, providers, us, tried)
      ensures Ended(r, providers[tried - 1], us[tried - 1], w.starts, w.status)
    {
      var tw := new WriteTracker(w);
      var lastErr: Option<GoError> := None;
      tried := 0;
      while tried < |providers|
        invariant 0 <= tried <= |providers| && !tw.wrote && tw.w == w && w.starts == 0
        invariant tried > 0 ==> lastErr.Some?
        invariant AllMovedOn(r, providers, us, tried)
        invariant Logged(old(log), log, r, providers, us, tried)
      {
        ghost var soFar := log;
        var verdict, err := Try(tw, r, providers[tried], us[tried]);
        LoggedStep(old(log), soFar, log[|log| - 1], r, providers, us, tried);
        tried := tried + 1;
        if !verdict.NextProvider? {
          return;
        }
        OneMoreMovedOn(r, providers, us, tried - 1);
        lastErr := err;
      }
      AllUnavailable(w, r, providers[tried - 1], us[tried - 1], lastErr);
    }

    /** The end of ServeHTTP, which reads lastErr. */
    method AllUnavailable(w: ResponseWriter, r: Request, p: Provider, u: Upstream, lastErr: Option<GoError>)
      requires w.starts == 0 && MovesOn(r, p, u) && lastErr.Some?
      modifies w
      ensures Ended(r, p, u, w.starts, w.status)
    {
      ExhaustedEnds(r, p, u);
      w.WriteHeader(502);
    }
  }

  // ----- with a valid configuration

  /** Every provider a valid configuration routes to has the endpoint, so no attempt takes
      the missing-endpoint branch. */
  lemma NoMissingEndpoint(env: Env, providers: seq<Provider>, models: seq<ModelConfig>, i: nat, protocol: string, k: nat)
    requires ProvidersOk(env, providers) && ModelsOk(providers, models) && i < |models|
    requires k < |Routed(providers, models[i].providers, protocol)|
    ensures Resolve(Routed(providers, models[i].providers, protocol)[k], protocol).Some?
  {
    RoutingTotal(env, providers, models, i, protocol);
  }
}
