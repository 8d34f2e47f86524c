/**
 Ticket creation and the two-phase issuance of proxy-granting tickets: both
 strings are generated first, the callback URL is checked, and only then is
 the ticket stored. The HTTPS-scheme test and the HTTP client are parameters;
 the store rejects a duplicate ticket string or IOU.
 */
module Issuance {
  import opened TicketString
  import opened Tickets

  /** Some ticket of the table already uses `iou` as its IOU. */
  predicate IouTaken(store: Store, iou: string)
  {
    exists k :: k in store && store[k].extra.ProxyGrantingFields? && store[k].extra.iou == iou
  }

  /** The table's uniqueness constraints reject the new row. */
  predicate Collides(store: Store, ticket: string, extra: Extra)
  {
    ticket in store || (extra.ProxyGrantingFields? && IouTaken(store, extra.iou))
  }

  datatype Creation = Created(ticket: Ticket, store: Store) | DuplicateKey

  /**
   `TicketManager.create_ticket`: an empty ticket string is replaced by a
   generated one with the kind's prefix; the new ticket is created at `now`,
   unconsumed, and inserted unless a unique column collides.
   */
  function CreateTicket(store: Store, ticket: string, user: User, extra: Extra, now: nat,
                        tail: string): (r: Creation)
    ensures r.DuplicateKey? <==>
      Collides(store, if ticket == "" then RandStr(KindOf(extra), "", now, tail) else ticket, extra)
    ensures r.Created? ==>
      && r.ticket.ticket !in store
      && r.store == store[r.ticket.ticket := r.ticket]
      && r.ticket.ticket == (if ticket == "" then RandStr(KindOf(extra), "", now, tail) else ticket)
      && r.ticket.user == user && r.ticket.extra == extra
      && r.ticket.created == now && !IsConsumed(r.ticket)
  {
    var s := if ticket == "" then RandStr(KindOf(extra), "", now, tail) else ticket;
    if Collides(store, s, extra) then DuplicateKey
    else
      var t := Ticket(s, user, now, None, extra);
      Created(t, store[s := t])
  }

  /** Creation keeps every key naming its own ticket. */
  lemma CreatePreservesWellKeyed(store: Store, ticket: string, user: User, extra: Extra, now: nat, tail: string)
    requires WellKeyed(store)
    ensures var r := CreateTicket(store, ticket, user, extra, now, tail);
            r.Created? ==> WellKeyed(r.store) && |r.store| == |store| + 1
  {
  }

  /** The GET sent to the callback: the URL plus the `pgtId` and `pgtIou` query parameters. */
  datatype CallbackRequest = CallbackRequest(url: string, pgtId: string, pgtIou: string)

  /**
   What the HTTP client reports: a response with the final status code, a
   connection or TLS failure, or any other client error (which the code does
   not catch).
   */
  datatype HttpOutcome = Responded(status: int) | ConnectionFailed | OtherRequestError

  datatype CallbackError = SchemeNotHttps | TransportFailed | ErrorStatus(status: int)

  datatype Verdict = Accepted | Refused(error: CallbackError) | Escaped

  /** The verdict and the requests that were sent to reach it. */
  datatype CallbackCheck = CallbackCheck(verdict: Verdict, sent: seq<CallbackRequest>)

  /** `raise_for_status` raises for client and server errors only. */
  predicate IsErrorStatus(status: int)
  {
    400 <= status < 600
  }

  /**
   `validate_pgturl`: refuse a non-HTTPS URL without sending anything;
   otherwise send one GET and refuse on a connection/TLS failure or an error
   status. Any other client exception escapes.
   */
  function ValidatePgtUrl(pgturl: string, pgtId: string, pgtIou: string,
                          isHttps: string -> bool, fetch: CallbackRequest -> HttpOutcome): (c: CallbackCheck)
    ensures !isHttps(pgturl) ==> c == CallbackCheck(Refused(SchemeNotHttps), [])
    ensures isHttps(pgturl) ==> c.sent == [CallbackRequest(pgturl, pgtId, pgtIou)]
    ensures c.verdict == Accepted <==>
      isHttps(pgturl) && fetch(CallbackRequest(pgturl, pgtId, pgtIou)).Responded? &&
      !IsErrorStatus(fetch(CallbackRequest(pgturl, pgtId, pgtIou)).status)
    ensures c.verdict == Refused(TransportFailed) <==>
      isHttps(pgturl) && fetch(CallbackRequest(pgturl, pgtId, pgtIou)) == ConnectionFailed
    ensures isHttps(pgturl) && fetch(CallbackRequest(pgturl, pgtId, pgtIou)).Responded? &&
            IsErrorStatus(fetch(CallbackRequest(pgturl, pgtId, pgtIou)).status) ==>
      c.verdict == Refused(ErrorStatus(fetch(CallbackRequest(pgturl, pgtId, pgtIou)).status))
    ensures c.verdict == Escaped <==>
      isHttps(pgturl) && fetch(CallbackRequest(pgturl, pgtId, pgtIou)) == OtherRequestError
  {
    if !isHttps(pgturl) then CallbackCheck(Refused(SchemeNotHttps), [])
    else
      var req := CallbackRequest(pgturl, pgtId, pgtIou);
      match fetch(req)
      case ConnectionFailed => CallbackCheck(Refused(TransportFailed), [req])
      case OtherRequestError => CallbackCheck(Escaped, [req])
      case Responded(status) =>
        if IsErrorStatus(status) then CallbackCheck(Refused(ErrorStatus(status)), [req])
        else CallbackCheck(Accepted, [req])
  }

  /** Result of PGT issuance: the new ticket, `None` after a refused callback, or an escaping exception. */
  datatype IssueResult = Issued(pgt: Ticket) | NotIssued(error: CallbackError) | Raised

  datatype Issue = Issue(result: IssueResult, store: Store, sent: seq<CallbackRequest>)

  /**
   `ProxyGrantingTicketManager.create_ticket`: generate the PGT string and its
   IOU, validate the callback with both, and store the PGT only if the
   callback was accepted. The table changes only by that one insertion.
   */
  function CreatePgt(store: Store, pgturl: string, user: User,
                     grantedBySt: Option<string>, grantedByPt: Option<string>,
                     now: nat, idTail: string, iouTail: string,
                     isHttps: string -> bool, fetch: CallbackRequest -> HttpOutcome): (r: Issue)
    ensures var pgtId := RandStr(ProxyGrantingTicketKind, Prefix(ProxyGrantingTicketKind), now, idTail);
            var pgtIou := RandStr(ProxyGrantingTicketKind, IouPrefix, now, iouTail);
            && r.sent == ValidatePgtUrl(pgturl, pgtId, pgtIou, isHttps, fetch).sent
            && (!r.result.Issued? ==> r.store == store)
            && (r.result.NotIssued? <==> ValidatePgtUrl(pgturl, pgtId, pgtIou, isHttps, fetch).verdict.Refused?)
            && (r.result.Raised? <==>
                  || ValidatePgtUrl(pgturl, pgtId, pgtIou, isHttps, fetch).verdict == Escaped
                  || (&& ValidatePgtUrl(pgturl, pgtId, pgtIou, isHttps, fetch).verdict == Accepted
                      && Collides(store, pgtId, ProxyGrantingFields(pgtIou, grantedBySt, grantedByPt))))
            && (r.result.Issued? <==>
                  && ValidatePgtUrl(pgturl, pgtId, pgtIou, isHttps, fetch).verdict == Accepted
                  && !Collides(store, pgtId, ProxyGrantingFields(pgtIou, grantedBySt, grantedByPt)))
            && (r.result.Issued? ==>
                  && r.result.pgt.ticket == pgtId
                  && r.result.pgt.user == user
                  && r.result.pgt.created == now
                  && !IsConsumed(r.result.pgt)
                  && r.result.pgt.extra == ProxyGrantingFields(pgtIou, grantedBySt, grantedByPt)
                  && pgtId !in store
                  && r.store == store[pgtId := r.result.pgt])
  {
    var pgtId := RandStr(ProxyGrantingTicketKind, Prefix(ProxyGrantingTicketKind), now, idTail);
    var pgtIou := RandStr(ProxyGrantingTicketKind, IouPrefix, now, iouTail);
    var check := ValidatePgtUrl(pgturl, pgtId, pgtIou, isHttps, fetch);
    match check.verdict
    case Refused(e) => Issue(NotIssued(e), store, check.sent)
    case Escaped => Issue(Raised, store, check.sent)
    case Accepted =>
      match CreateTicket(store, pgtId, user, ProxyGrantingFields(pgtIou, grantedBySt, grantedByPt), now, idTail)
      case DuplicateKey => Issue(Raised, store, check.sent)
      case Created(t, s) => Issue(Issued(t), s, check.sent)
  }

  /**
   A PGT enters the table only after its callback URL proved control: an
   HTTPS URL whose single GET got a non-error response. Any new key is the
   generated PGT string, the table grows by exactly one, and the stored IOU
   is the generated IOU string (which is not a valid ticket string).
   */
  lemma PgtOnlyAfterCallback(store: Store, pgturl: string, user: User,
                             grantedBySt: Option<string>, grantedByPt: Option<string>,
                             now: nat, idTail: string, iouTail: string,
                             isHttps: string -> bool, fetch: CallbackRequest -> HttpOutcome, k: string)
    requires var r := CreatePgt(store, pgturl, user, grantedBySt, grantedByPt, now, idTail, iouTail, isHttps, fetch);
             k in r.store && k !in store
    ensures var r := CreatePgt(store, pgturl, user, grantedBySt, grantedByPt, now, idTail, iouTail, isHttps, fetch);
            var pgtId := RandStr(ProxyGrantingTicketKind, Prefix(ProxyGrantingTicketKind), now, idTail);
            var pgtIou := RandStr(ProxyGrantingTicketKind, IouPrefix, now, iouTail);
            && isHttps(pgturl)
            && r.sent == [CallbackRequest(pgturl, pgtId, pgtIou)]
            && fetch(CallbackRequest(pgturl, pgtId, pgtIou)).Responded?
            && !IsErrorStatus(fetch(CallbackRequest(pgturl, pgtId, pgtIou)).status)
            && k == pgtId && r.store[k].extra.iou == pgtIou
            && |r.store| == |store| + 1
            && !TicketRe(r.store[k].extra.iou)
  {
    IouNeverMatches(now, iouTail, TicketRandLen);
  }

  /**
   A refused callback leaves both generated strings out of the table: neither
   the PGT string nor the IOU is stored afterwards unless it was there before.
   */
  lemma RefusedCallbackStoresNothing(store: Store, pgturl: string, user: User,
                                     grantedBySt: Option<string>, grantedByPt: Option<string>,
                                     now: nat, idTail: string, iouTail: string,
                                     isHttps: string -> bool, fetch: CallbackRequest -> HttpOutcome)
    requires !CreatePgt(store, pgturl, user, grantedBySt, grantedByPt, now, idTail, iouTail, isHttps, fetch).result.Issued?
    ensures var r := CreatePgt(store, pgturl, user, grantedBySt, grantedByPt, now, idTail, iouTail, isHttps, fetch);
            var pgtId := RandStr(ProxyGrantingTicketKind, Prefix(ProxyGrantingTicketKind), now, idTail);
            var pgtIou := RandStr(ProxyGrantingTicketKind, IouPrefix, now, iouTail);
            && (pgtId in r.store <==> pgtId in store)
            && (IouTaken(r.store, pgtIou) <==> IouTaken(store, pgtIou))
  {
  }
}
