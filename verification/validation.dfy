/**
 Ticket validation: the shared state machine of `TicketManager.validate_ticket`
 (service and proxy tickets) and the read-only variant used for
 proxy-granting tickets. Checks run in a fixed order; a found, unconsumed
 ticket is consumed before its expiry, origin and primary checks.
 `same_origin` is a parameter: the model does not interpret URLs.
 */
module Validation {
  import opened TicketString
  import opened Tickets

  datatype RequestReason = NoTicket | NoService

  datatype TicketReason = Malformed | NotFound | AlreadyUsed | Expired | NotPrimary

  datatype Failure =
    | InvalidRequest(request: RequestReason)
    | InvalidTicket(reason: TicketReason)
    | InvalidService
    | BadPgt
      /** `is_primary()` called on a ticket kind that does not define it. */
    | NoPrimaryAttribute

  datatype Outcome = Validated(ticket: Ticket) | Rejected(failure: Failure)

  /** The outcome of one call and the store it leaves behind. */
  datatype Step = Step(outcome: Outcome, store: Store)

  /** A service parameter counts as given when present and non-empty. */
  predicate Supplied(service: Option<string>)
  {
    service.Some? && service.value != ""
  }

  /** The request gets past the checks that need no lookup, given the format verdict. */
  predicate AdmissibleWith(wellFormed: bool, kind: Kind, ticket: string, service: Option<string>)
  {
    ticket != "" && (HasServiceField(kind) ==> Supplied(service)) && wellFormed
  }

  /** The request gets past the checks that need no lookup. */
  predicate Admissible(kind: Kind, ticket: string, service: Option<string>)
  {
    AdmissibleWith(TicketRe(ticket), kind, ticket, service)
  }

  /** The request reaches an existing ticket. */
  predicate Reaches(kind: Kind, store: Store, ticket: string, service: Option<string>)
  {
    Admissible(kind, ticket, service) && ticket in store
  }

  /** The origin check passes (it is skipped without a service or a service field). */
  predicate OriginOk(t: Ticket, service: Option<string>, sameOrigin: (string, string) -> bool)
  {
    Supplied(service) && HasService(t) ==> sameOrigin(t.extra.service, service.value)
  }

  /** The primary-credentials check passes. */
  predicate PrimaryOk(t: Ticket, renew: bool)
  {
    renew ==> IsPrimary(t) == Some(true)
  }

  /** `TicketManager.validate_ticket` for the table of `kind`, at instant `now`. */
  function Validate(kind: Kind, store: Store, ticket: string, service: Option<string>, renew: bool,
                    now: nat, sameOrigin: (string, string) -> bool): (v: Step)
    // Rejections before the lookup, and on an already consumed ticket, leave the store alone.
    ensures !Reaches(kind, store, ticket, service) ==> v.outcome.Rejected? && v.store == store
    ensures Reaches(kind, store, ticket, service) && IsConsumed(store[ticket]) ==>
      v == Step(Rejected(InvalidTicket(AlreadyUsed)), store)
    // A found, unconsumed ticket is burned whatever the verdict; nothing else changes.
    ensures Reaches(kind, store, ticket, service) && !IsConsumed(store[ticket]) ==>
      v.store == store[ticket := Consume(store[ticket], now)]
    ensures v.outcome.Validated? ==>
      ticket in v.store && v.outcome.ticket == v.store[ticket] && IsConsumed(v.outcome.ticket)
  {
    ValidateWith(TicketRe(ticket), kind, store, ticket, service, renew, now, sameOrigin)
  }

  /** The validation checks with the format verdict supplied by the caller. */
  function ValidateWith(wellFormed: bool, kind: Kind, store: Store, ticket: string, service: Option<string>,
                        renew: bool, now: nat, sameOrigin: (string, string) -> bool): (v: Step)
    ensures !(AdmissibleWith(wellFormed, kind, ticket, service) && ticket in store) ==>
      v.outcome.Rejected? && v.store == store
    ensures AdmissibleWith(wellFormed, kind, ticket, service) && ticket in store && IsConsumed(store[ticket]) ==>
      v == Step(Rejected(InvalidTicket(AlreadyUsed)), store)
    ensures AdmissibleWith(wellFormed, kind, ticket, service) && ticket in store && !IsConsumed(store[ticket]) ==>
      v.store == store[ticket := Consume(store[ticket], now)]
    ensures v.outcome.Validated? ==>
      ticket in v.store && v.outcome.ticket == v.store[ticket] && IsConsumed(v.outcome.ticket)
  {
    if ticket == "" then
      Step(Rejected(InvalidRequest(NoTicket)), store)
    else if HasServiceField(kind) && !Supplied(service) then
      Step(Rejected(InvalidRequest(NoService)), store)
    else if !wellFormed then
      Step(Rejected(InvalidTicket(Malformed)), store)
    else if ticket !in store then
      Step(Rejected(InvalidTicket(NotFound)), store)
    else if IsConsumed(store[ticket]) then
      Step(Rejected(InvalidTicket(AlreadyUsed)), store)
    else
      var t := Consume(store[ticket], now);
      var burned := store[ticket := t];
      if IsExpired(t, now) then
        Step(Rejected(InvalidTicket(Expired)), burned)
      else if !OriginOk(t, service, sameOrigin) then
        Step(Rejected(InvalidService), burned)
      else if renew && IsPrimary(t).None? then
        Step(Rejected(NoPrimaryAttribute), burned)
      else if renew && !IsPrimary(t).value then
        Step(Rejected(InvalidTicket(NotPrimary)), burned)
      else
        Step(Validated(t), burned)
  }

  /** Checks before the lookup fire in order: empty ticket, missing service, bad format. */
  lemma EarlyRejections(kind: Kind, store: Store, ticket: string, service: Option<string>, renew: bool,
                        now: nat, sameOrigin: (string, string) -> bool)
    ensures ticket == "" ==>
      Validate(kind, store, ticket, service, renew, now, sameOrigin)
        == Step(Rejected(InvalidRequest(NoTicket)), store)
    ensures ticket != "" && HasServiceField(kind) && !Supplied(service) ==>
      Validate(kind, store, ticket, service, renew, now, sameOrigin)
        == Step(Rejected(InvalidRequest(NoService)), store)
    ensures ticket != "" && (HasServiceField(kind) ==> Supplied(service)) && !TicketRe(ticket) ==>
      Validate(kind, store, ticket, service, renew, now, sameOrigin)
        == Step(Rejected(InvalidTicket(Malformed)), store)
    ensures Admissible(kind, ticket, service) && ticket !in store ==>
      Validate(kind, store, ticket, service, renew, now, sameOrigin)
        == Step(Rejected(InvalidTicket(NotFound)), store)
  {
  }

  /**
   After consumption the remaining checks fire in order: expired, origin
   mismatch, then the primary check (which has no method on non-service kinds).
   */
  lemma LateRejections(kind: Kind, store: Store, ticket: string, service: Option<string>, renew: bool,
                       now: nat, sameOrigin: (string, string) -> bool)
    requires Reaches(kind, store, ticket, service) && !IsConsumed(store[ticket])
    ensures var t := store[ticket];
            var v := Validate(kind, store, ticket, service, renew, now, sameOrigin);
            && IsConsumed(v.store[ticket])
            && (IsExpired(t, now) ==> v.outcome == Rejected(InvalidTicket(Expired)))
            && (!IsExpired(t, now) && !OriginOk(t, service, sameOrigin) ==> v.outcome == Rejected(InvalidService))
            && (!IsExpired(t, now) && OriginOk(t, service, sameOrigin) && renew && !t.extra.ServiceFields? ==>
                  v.outcome == Rejected(NoPrimaryAttribute))
            && ((!IsExpired(t, now) && OriginOk(t, service, sameOrigin) && renew && t.extra.ServiceFields? &&
                 !t.extra.primary) ==> v.outcome == Rejected(InvalidTicket(NotPrimary)))
  {
  }

  /**
   Validation succeeds exactly when the request reaches an unconsumed,
   unexpired ticket whose origin and primary checks pass; the returned ticket
   is the stored one, now consumed.
   */
  lemma ValidatedIff(kind: Kind, store: Store, ticket: string, service: Option<string>, renew: bool,
                     now: nat, sameOrigin: (string, string) -> bool)
    ensures var v := Validate(kind, store, ticket, service, renew, now, sameOrigin);
            v.outcome.Validated? <==>
              && Reaches(kind, store, ticket, service)
              && Live(store[ticket], now)
              && OriginOk(store[ticket], service, sameOrigin)
              && PrimaryOk(store[ticket], renew)
    ensures var v := Validate(kind, store, ticket, service, renew, now, sameOrigin);
            v.outcome.Validated? ==> v.outcome.ticket == Consume(store[ticket], now)
  {
  }

  /**
   Presenting the same string a second time always fails, whatever the first
   verdict was (expired, wrong service, not primary or success): it is either
   rejected for a missing service or reported as already used.
   */
  lemma ReplayRejected(kind: Kind, store: Store, ticket: string,
                       service: Option<string>, renew: bool, now: nat,
                       service2: Option<string>, renew2: bool, now2: nat,
                       sameOrigin: (string, string) -> bool)
    requires Reaches(kind, store, ticket, service) && !IsConsumed(store[ticket])
    ensures var v := Validate(kind, store, ticket, service, renew, now, sameOrigin);
            var w := Validate(kind, v.store, ticket, service2, renew2, now2, sameOrigin);
            && w.outcome.Rejected?
            && w.store == v.store
            && ((HasServiceField(kind) ==> Supplied(service2)) ==> w.outcome == Rejected(InvalidTicket(AlreadyUsed)))
  {
  }

  /** One presentation in a sequence of validation requests. */
  datatype Request = Request(ticket: string, service: Option<string>, renew: bool, now: nat)

  datatype Trace = Trace(outcomes: seq<Outcome>, store: Store)

  /** Serves the requests one after another, threading the store through. */
  function Run(kind: Kind, store: Store, reqs: seq<Request>, sameOrigin: (string, string) -> bool): (r: Trace)
    ensures |r.outcomes| == |reqs|
    decreases |reqs|
  {
    if reqs == [] then Trace([], store)
    else
      var v := Validate(kind, store, reqs[0].ticket, reqs[0].service, reqs[0].renew, reqs[0].now, sameOrigin);
      var rest := Run(kind, v.store, reqs[1..], sameOrigin);
      Trace([v.outcome] + rest.outcomes, rest.store)
  }

  /** A consumed ticket stays in the store untouched and is never validated again. */
  lemma {:induction false} ConsumedStaysConsumed(kind: Kind, store: Store, reqs: seq<Request>,
                                                 sameOrigin: (string, string) -> bool, k: string)
    requires k in store && IsConsumed(store[k])
    ensures var r := Run(kind, store, reqs, sameOrigin);
            && k in r.store && r.store[k] == store[k]
            && forall i :: 0 <= i < |reqs| && reqs[i].ticket == k ==> r.outcomes[i].Rejected?
    decreases |reqs|
  {
    if reqs != [] {
      var v := Validate(kind, store, reqs[0].ticket, reqs[0].service, reqs[0].renew, reqs[0].now, sameOrigin);
      ConsumedStaysConsumed(kind, v.store, reqs[1..], sameOrigin, k);
      var r := Run(kind, store, reqs, sameOrigin);
      forall i | 0 <= i < |reqs| && reqs[i].ticket == k
        ensures r.outcomes[i].Rejected?
      {
        if i > 0 {
          assert reqs[1..][i - 1] == reqs[i];
        }
      }
    }
  }

  /**
   However requests are sequenced, each ticket string is validated
   successfully at most once.
   */
  lemma {:induction false} AtMostOnce(kind: Kind, store: Store, reqs: seq<Request>,
                                      sameOrigin: (string, string) -> bool)
    ensures var r := Run(kind, store, reqs, sameOrigin);
            forall i, j :: 0 <= i < j < |reqs| && r.outcomes[i].Validated? && r.outcomes[j].Validated? ==>
              reqs[i].ticket != reqs[j].ticket
    decreases |reqs|
  {
    if reqs != [] {
      var v := Validate(kind, store, reqs[0].ticket, reqs[0].service, reqs[0].renew, reqs[0].now, sameOrigin);
      var tail := reqs[1..];
      AtMostOnce(kind, v.store, tail, sameOrigin);
      var r := Run(kind, store, reqs, sameOrigin);
      var rest := Run(kind, v.store, tail, sameOrigin);
      if v.outcome.Validated? {
        ConsumedStaysConsumed(kind, v.store, tail, sameOrigin, reqs[0].ticket);
      }
      forall i, j | 0 <= i < j < |reqs| && r.outcomes[i].Validated? && r.outcomes[j].Validated?
        ensures reqs[i].ticket != reqs[j].ticket
      {
        assert r.outcomes[j] == rest.outcomes[j - 1];
        assert reqs[j] == tail[j - 1];
        if i > 0 {
          assert r.outcomes[i] == rest.outcomes[i - 1];
          assert reqs[i] == tail[i - 1];
        }
      }
    }
  }

  /** A PGT request gets past the checks that need no lookup; a service is always required. */
  predicate PgtAdmissible(ticket: string, service: Option<string>)
  {
    ticket != "" && Supplied(service) && TicketRe(ticket)
  }

  /**
   `ProxyGrantingTicketManager.validate_ticket`: a service is always required
   (but never compared), a missing ticket is BadPgt, consumed is checked
   before expired, and nothing is consumed.
   */
  function ValidatePgt(store: Store, ticket: string, service: Option<string>, now: nat): (v: Step)
    ensures v.store == store
    ensures v.outcome.Validated? ==>
      ticket in store && v.outcome.ticket == store[ticket] && Live(store[ticket], now)
  {
    ValidatePgtWith(TicketRe(ticket), store, ticket, service, now)
  }

  /** The PGT checks with the format verdict supplied by the caller. */
  function ValidatePgtWith(wellFormed: bool, store: Store, ticket: string, service: Option<string>,
                           now: nat): (v: Step)
    ensures v.store == store
    ensures v.outcome.Validated? ==> ticket in store && v.outcome.ticket == store[ticket]
  {
    if ticket == "" then
      Step(Rejected(InvalidRequest(NoTicket)), store)
    else if !Supplied(service) then
      Step(Rejected(InvalidRequest(NoService)), store)
    else if !wellFormed then
      Step(Rejected(InvalidTicket(Malformed)), store)
    else if ticket !in store then
      Step(Rejected(BadPgt), store)
    else if IsConsumed(store[ticket]) then
      Step(Rejected(InvalidTicket(AlreadyUsed)), store)
    else if IsExpired(store[ticket], now) then
      Step(Rejected(InvalidTicket(Expired)), store)
    else
      Step(Validated(store[ticket]), store)
  }

  /**
   The PGT verdict in full: request errors first, then format, then BadPgt
   for an unknown string, then already used before expired; success exactly
   for a live ticket.
   */
  lemma PgtVerdicts(store: Store, ticket: string, service: Option<string>, now: nat)
    ensures var o := ValidatePgt(store, ticket, service, now).outcome;
            && (ticket == "" ==> o == Rejected(InvalidRequest(NoTicket)))
            && (ticket != "" && !Supplied(service) ==> o == Rejected(InvalidRequest(NoService)))
            && (ticket != "" && Supplied(service) && !TicketRe(ticket) ==> o == Rejected(InvalidTicket(Malformed)))
            && (PgtAdmissible(ticket, service) && ticket !in store ==> o == Rejected(BadPgt))
            && (PgtAdmissible(ticket, service) && ticket in store && IsConsumed(store[ticket]) ==>
                  o == Rejected(InvalidTicket(AlreadyUsed)))
            && ((PgtAdmissible(ticket, service) && ticket in store && !IsConsumed(store[ticket]) &&
                 IsExpired(store[ticket], now)) ==> o == Rejected(InvalidTicket(Expired)))
            && (o.Validated? <==> PgtAdmissible(ticket, service) && ticket in store && Live(store[ticket], now))
  {
  }

  /**
   Validating a PGT does not use it up: any number of repeats give the same
   verdict, and which (non-empty) service is named makes no difference.
   */
  lemma PgtRepeatable(store: Store, ticket: string, service: Option<string>, service2: Option<string>, now: nat)
    requires Supplied(service) && Supplied(service2)
    ensures var v := ValidatePgt(store, ticket, service, now);
            ValidatePgt(v.store, ticket, service2, now) == v
  {
  }

  /** PGT validation as written: the format check is Python's `$`-anchored match. */
  function ValidatePgtAsWritten(store: Store, ticket: string, service: Option<string>, now: nat): (v: Step)
    ensures v.store == store
    ensures v.outcome.Validated? ==> ticket in store && Live(store[ticket], now)
  {
    ValidatePgtWith(MatchesAsWritten(ticket, TicketRandLen), store, ticket, service, now)
  }

  /**
   A well-formed PGT string with one trailing newline is looked up by the
   code as written and reported as an unknown PGT, where a strict format
   check rejects it as a malformed ticket before any lookup.
   */
  lemma NewlinePgtReachesLookup(store: Store, s: string, service: Option<string>, now: nat)
    requires TicketRe(s) && Supplied(service)
    requires WellKeyed(store) && forall k :: k in store ==> TicketRe(k)
    ensures ValidatePgtAsWritten(store, s + "\n", service, now).outcome == Rejected(BadPgt)
    ensures ValidatePgt(store, s + "\n", service, now).outcome == Rejected(InvalidTicket(Malformed))
  {
    TrailingNewlineSlipsThrough(s, TicketRandLen);
  }

  /** The input that shows it: a PGT string with 32 'a's in its tail and a trailing newline. */
  lemma NewlinePgtExample()
    ensures var s := Join("PGT", "1700000000", seq(32, i => 'a'));
            && ValidatePgtAsWritten(map[], s + "\n", Some("https://app.example"), 0).outcome == Rejected(BadPgt)
            && ValidatePgt(map[], s + "\n", Some("https://app.example"), 0).outcome == Rejected(InvalidTicket(Malformed))
  {
    var tail := seq(32, i => 'a');
    assert IsPrefix("PGT");
    assert IsEpoch("1700000000");
    assert IsRandom(tail, TicketRandLen);
    JoinMatches("PGT", "1700000000", tail, TicketRandLen);
    NewlinePgtReachesLookup(map[], Join("PGT", "1700000000", tail), Some("https://app.example"), 0);
  }

  /** Service and proxy ticket validation as written: the format check is Python's `$`-anchored match. */
  function ValidateAsWritten(kind: Kind, store: Store, ticket: string, service: Option<string>, renew: bool,
                             now: nat, sameOrigin: (string, string) -> bool): (v: Step)
    ensures v.store.Keys == store.Keys
    ensures forall k :: k in store && k != ticket ==> v.store[k] == store[k]
    ensures v.outcome.Validated? ==>
      ticket in store && Live(store[ticket], now) && v.outcome.ticket == Consume(store[ticket], now)
  {
    ValidateWith(MatchesAsWritten(ticket, TicketRandLen), kind, store, ticket, service, renew, now, sameOrigin)
  }

  /**
   A service or proxy ticket string with one trailing newline is looked up by
   the code as written: against well-formed keys it is reported as not found
   rather than malformed, and a stored key of that exact shape (which
   `create_ticket` accepts when given the string) is consumed and can be
   validated, where the strict check rejects it untouched.
   */
  lemma NewlineTicketReachesLookup(kind: Kind, store: Store, s: string, service: Option<string>, renew: bool,
                                   now: nat, sameOrigin: (string, string) -> bool)
    requires TicketRe(s) && (HasServiceField(kind) ==> Supplied(service))
    ensures Validate(kind, store, s + "\n", service, renew, now, sameOrigin)
            == Step(Rejected(InvalidTicket(Malformed)), store)
    ensures s + "\n" !in store ==>
      ValidateAsWritten(kind, store, s + "\n", service, renew, now, sameOrigin)
        == Step(Rejected(InvalidTicket(NotFound)), store)
    ensures s + "\n" in store && Live(store[s + "\n"], now) && OriginOk(store[s + "\n"], service, sameOrigin) &&
            PrimaryOk(store[s + "\n"], renew) ==>
      ValidateAsWritten(kind, store, s + "\n", service, renew, now, sameOrigin).outcome.Validated?
  {
    TrailingNewlineSlipsThrough(s, TicketRandLen);
  }
}
