/**
 The document-store variant of the ticket entities. The lifecycle predicates
 are the same as in the relational model except that expiry compares against
 an `expires` instant stored on the ticket rather than one computed from the
 creation instant.
 */
module MongoTickets {
  import opened TicketString
  import opened Tickets

  /** MAMA_CAS_TICKET_RAND_LEN, default 32. */
  const MTicketRandLen: nat := 32

  datatype MExtra =
    | MServiceFields(service: string, primary: bool)
    | MProxyFields(service: string, grantedByPgt: Option<string>)
    | MProxyGrantingFields(iou: string, grantedBySt: Option<string>, grantedByPt: Option<string>)

  datatype MTicket = MTicket(ticket: string, user: User, expires: nat, consumed: Option<nat>, extra: MExtra)

  /** `MTicket.TICKET_RE`: the same pattern, with this model's tail length. */
  predicate MTicketRe(s: string)
  {
    Matches(s, MTicketRandLen)
  }

  function MConsume(t: MTicket, now: nat): (r: MTicket)
    ensures MIsConsumed(r) && r.consumed == Some(now)
    ensures r.ticket == t.ticket && r.user == t.user && r.expires == t.expires && r.extra == t.extra
  {
    t.(consumed := Some(now))
  }

  predicate MIsConsumed(t: MTicket)
  {
    t.consumed.Some?
  }

  /** Expired from the stored instant on, boundary included. */
  predicate MIsExpired(t: MTicket, now: nat)
  {
    t.expires <= now
  }

  /** `is_primary()` is defined on service tickets only. */
  function MIsPrimary(t: MTicket): (r: Option<bool>)
    ensures r.Some? <==> t.extra.MServiceFields?
    ensures r.Some? ==> r.value == t.extra.primary
  {
    match t.extra
    case MServiceFields(_, primary) => Some(primary)
    case _ => None
  }

  /** A new service-ticket document; an omitted `primary` takes its default, false. */
  function NewMServiceTicket(ticket: string, user: User, expires: nat, service: string,
                             primary: Option<bool>): (t: MTicket)
    ensures !MIsConsumed(t) && t.ticket == ticket && t.expires == expires
    ensures MIsPrimary(t) == Some(primary.Some? && primary.value)
  {
    var flag := match primary case Some(b) => b case None => false;
    MTicket(ticket, user, expires, None, MServiceFields(service, flag))
  }

  /** Consumption marks the document consumed and does not move its expiry. */
  lemma MConsumeThenConsumed(t: MTicket, now: nat, later: nat)
    ensures MIsConsumed(MConsume(t, now))
    ensures MIsExpired(MConsume(t, now), later) == MIsExpired(t, later)
  {
  }

  function ToMExtra(extra: Extra): MExtra
  {
    match extra
    case ServiceFields(service, primary) => MServiceFields(service, primary)
    case ProxyFields(service, pgt) => MProxyFields(service, pgt)
    case ProxyGrantingFields(iou, st, pt) => MProxyGrantingFields(iou, st, pt)
  }

  /** A relational ticket as a document whose stored expiry is `created + lifetime`. */
  function ToMongo(t: Ticket): MTicket
  {
    MTicket(t.ticket, t.user, t.created + ExpireSeconds, t.consumed, ToMExtra(t.extra))
  }

  /**
   The two models agree: under the map that stores `created + lifetime` as
   the expiry, consumed, expired and primary read the same, and consuming
   commutes with the map.
   */
  lemma PredicatesAgree(t: Ticket, now: nat)
    ensures MIsConsumed(ToMongo(t)) == IsConsumed(t)
    ensures MIsExpired(ToMongo(t), now) == IsExpired(t, now)
    ensures MIsPrimary(ToMongo(t)) == IsPrimary(t)
    ensures ToMongo(Consume(t, now)) == MConsume(ToMongo(t), now)
  {
  }

  /** With both tail-length settings at their defaults the two patterns accept the same strings. */
  lemma GrammarsAgree(s: string)
    ensures MTicketRe(s) <==> TicketRe(s)
  {
  }
}
