/**
 The ticket entities of the relational model: the shared lifecycle fields
 (ticket string, owner, creation instant, consumption instant) plus the
 fields of each kind, and the predicates every kind shares. Instants are
 whole seconds.
 */
module Tickets {
  import opened TicketString

  datatype Option<T> = None | Some(value: T)

  /** The owning principal, identified by user name. */
  type User = string

  datatype Kind = ServiceTicketKind | ProxyTicketKind | ProxyGrantingTicketKind

  /** Fields that only one kind carries. */
  datatype Extra =
    | ServiceFields(service: string, primary: bool)
    | ProxyFields(service: string, grantedByPgt: Option<string>)
    | ProxyGrantingFields(iou: string, grantedBySt: Option<string>, grantedByPt: Option<string>)

  datatype Ticket = Ticket(ticket: string, user: User, created: nat, consumed: Option<nat>, extra: Extra)

  /** One kind's table, keyed by ticket string. */
  type Store = map<string, Ticket>

  /** Lifetime in minutes (the CAS_SERVICE_TICKET_EXPIRE setting, default 5). */
  const TicketExpireMinutes: nat := 5

  const ExpireSeconds: nat := TicketExpireMinutes * 60

  function Prefix(kind: Kind): string
  {
    match kind
    case ServiceTicketKind => "ST"
    case ProxyTicketKind => "PT"
    case ProxyGrantingTicketKind => "PGT"
  }

  function KindOf(extra: Extra): Kind
  {
    match extra
    case ServiceFields(_, _) => ServiceTicketKind
    case ProxyFields(_, _) => ProxyTicketKind
    case ProxyGrantingFields(_, _, _) => ProxyGrantingTicketKind
  }

  /** Whether the kind's schema has a `service` field. */
  predicate HasServiceField(kind: Kind)
  {
    kind == ServiceTicketKind || kind == ProxyTicketKind
  }

  /** Whether this ticket carries a service URL. */
  predicate HasService(t: Ticket)
  {
    t.extra.ServiceFields? || t.extra.ProxyFields?
  }

  predicate IsConsumed(t: Ticket)
  {
    t.consumed.Some?
  }

  /** Expired once `created + lifetime` has been reached, boundary included. */
  predicate IsExpired(t: Ticket, now: nat)
  {
    t.created + ExpireSeconds <= now
  }

  /** Neither consumed nor expired. */
  predicate Live(t: Ticket, now: nat)
  {
    !IsConsumed(t) && !IsExpired(t, now)
  }

  /** Marks the ticket consumed at `now`, overwriting any earlier mark. */
  function Consume(t: Ticket, now: nat): (r: Ticket)
    ensures IsConsumed(r) && r.consumed == Some(now)
    ensures r.ticket == t.ticket && r.user == t.user && r.created == t.created && r.extra == t.extra
    ensures IsExpired(r, now) == IsExpired(t, now)
  {
    t.(consumed := Some(now))
  }

  /**
   `is_primary()` exists only on service tickets; on other kinds the call
   has no method to dispatch to, which is `None` here.
   */
  function IsPrimary(t: Ticket): (r: Option<bool>)
    ensures r.Some? <==> t.extra.ServiceFields?
    ensures r.Some? ==> r.value == t.extra.primary
  {
    match t.extra
    case ServiceFields(_, primary) => Some(primary)
    case _ => None
  }

  /**
   `create_rand_str`: an empty prefix falls back to the kind's own, then
   `PREFIX-<epoch seconds>-<tail>`.
   */
  function RandStr(kind: Kind, prefix: string, now: nat, tail: string): (r: string)
    // The three dash-separated fields read back as the prefix used, `now` and the tail.
    ensures var p := if prefix == "" then Prefix(kind) else prefix;
            && |r| > |p| + 1 + |tail| + 1
            && r[..|p|] == p && r[|p|] == '-'
            && r[|r| - |tail|..] == tail && r[|r| - |tail| - 1] == '-'
            && AllDigits(r[|p| + 1..|r| - |tail| - 1])
            && DecimalValue(r[|p| + 1..|r| - |tail| - 1]) == now
            && (|r| - |tail| - 1 - (|p| + 1) > 1 ==> r[|p| + 1] != '0')
    // At the configured tail length, the result is a valid ticket string exactly when
    // the prefix is, the clock has reached ten digits and the tail is alphanumeric.
    ensures |tail| == TicketRandLen ==>
      (TicketRe(r) <==> IsPrefix(if prefix == "" then Prefix(kind) else prefix) && now >= TenDigitEpoch && AllAlnum(tail))
  {
    var p := if prefix == "" then Prefix(kind) else prefix;
    var s := Join(p, Decimal(now), tail);
    DecimalRoundTrip(now);
    JoinFields(p, Decimal(now), tail);
    if |tail| == TicketRandLen then GeneratedMatchesIff(p, now, tail); s else s
  }

  /** Every key names its own ticket. */
  predicate WellKeyed(store: Store)
  {
    forall k :: k in store ==> store[k].ticket == k
  }

  /** Expiry is inclusive at `created + lifetime` and, once reached, stays. */
  lemma ExpiryBoundary(t: Ticket, now: nat, later: nat)
    requires now <= later
    ensures IsExpired(t, t.created + ExpireSeconds)
    ensures t.created + ExpireSeconds > 0 ==> !IsExpired(t, t.created + ExpireSeconds - 1)
    ensures IsExpired(t, now) ==> IsExpired(t, later)
  {
  }

  /**
   A generated string with its kind's default prefix, a ten-digit clock and an
   alphanumeric tail of the configured length is accepted by TICKET_RE; the
   IOU string generated alongside a PGT never is.
   */
  lemma GeneratedTicketMatches(kind: Kind, now: nat, tail: string, iouTail: string)
    requires |tail| == TicketRandLen && AllAlnum(tail)
    requires now >= TenDigitEpoch
    ensures TicketRe(RandStr(kind, "", now, tail))
    ensures !TicketRe(RandStr(kind, IouPrefix, now, iouTail))
  {
    GeneratedMatchesIff(Prefix(kind), now, tail);
    IouNeverMatches(now, iouTail, TicketRandLen);
  }
}
