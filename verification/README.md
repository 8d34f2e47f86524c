# Ticket lifecycle of the mama-cas CAS server, in Dafny

This project models the ticket core of a Central Authentication Service (CAS) server. It covers
these parts:

- **Ticket strings.** Strings are generated as `PREFIX-<epoch seconds>-<random tail>`. Every
  presented string is checked against `^[A-Z]{2,3}-[0-9]{10,}-[a-zA-Z0-9]{N}$` (module
  `TicketString`).
- **Ticket entities.** Service, proxy and proxy-granting tickets share their lifecycle
  predicates: consume, consumed, expired and primary (module `Tickets`).
- **`TicketManager.validate_ticket`.** This is the ordered validation state machine. A found,
  unconsumed ticket is consumed before its expiry, origin and primary checks. So the first
  presentation burns the ticket whatever the verdict. The module also has the read-only
  proxy-granting-ticket (PGT) variant (module `Validation`).
- **Bulk operations.** `delete_invalid_tickets` is the cleanup sweep. `consume_tickets` is the
  logout pass. Both are loops over one kind's table (module `Maintenance`).
- **Creation and PGT issuance.** `create_ticket` inserts into a table with unique ticket and
  IOU columns. The PGT variant has two phases: it validates the callback URL with the two
  strings generated beforehand, then stores the PGT only if that check passed (module
  `Issuance`).
- **The document-store models.** Their predicates are the same as above, except that expiry
  compares against a stored `expires` instant. A mapping lemma links them to the relational
  model (module `MongoTickets`).

Each table is a `map<string, Ticket>` keyed by ticket string. Instants are whole seconds (`nat`),
passed in as `now`. The random tail is a parameter. So are three helpers whose bodies lie outside
this model: `same_origin`, the HTTPS-scheme test and the HTTP client. Each of these is a pure
function parameter.

Where the code departs from the intent stated in its docstrings and in the CAS protocol, the model follows the code, with one exception (the trailing newline below):

- **Renewal on a proxy ticket.** With `renew` set, `validate_ticket` calls `is_primary()`.
  Proxy tickets do not define that method, so the call raises instead of skipping the check.
  The model gives `Failure.NoPrimaryAttribute` (mama_cas/models.py:100, 209-223).
- **Callback status codes.** The callback check accepts every status that `raise_for_status`
  lets through, which is anything outside 400-599. It is not limited to 200-399. The HTTP
  client follows redirects, so the status seen is the final one (mama_cas/models.py:266-274).
- **No timeout and no atomic consumption.** The code sets no timeout on the callback request.
  Consumption is a plain read followed by a save (mama_cas/models.py:89-91, 266).
- **Trailing newline.** The code's format check accepts one trailing newline. This is a
  defect, so the main validators (`Validation.Validate`, `Validation.ValidatePgt`) use the strict
  check. The code's behaviour is kept in the as-written variants `Validation.ValidateAsWritten`
  and `Validation.ValidatePgtAsWritten`. See "## Findings".

## Model

| member | source | states |
|---|---|---|
| TicketString.MatchesIffGrammar | mama_cas/models.py:25-26 | the matcher accepts exactly the strings that split as 2-3 capitals, dash, at least ten digits, dash, exactly N alphanumerics |
| TicketString.JoinMatches | mama_cas/models.py:26 | well-formed prefix, epoch digits and tail always join into a string the pattern accepts |
| TicketString.MatchSplits | mama_cas/models.py:26 | every accepted string splits back into a well-formed prefix, epoch field and tail |
| TicketString.JoinMatchesOnlyIf | mama_cas/models.py:26 | when the middle field is digits and the tail has length N, acceptance forces a 2-3 capital prefix, at least ten digits and an alphanumeric tail |
| TicketString.IouNeverMatches | mama_cas/models.py:314 | a string generated with the six-letter `PGTIOU` prefix is never accepted by the ticket pattern, whatever the clock and tail |
| TicketString.Decimal | mama_cas/models.py:50 | the `%d` rendering of the epoch seconds is a non-empty digit string without a leading zero |
| TicketString.DecimalRoundTrip | mama_cas/models.py:50 | reading the rendered epoch digits back gives the original number |
| TicketString.DecimalLength | mama_cas/models.py:50 | the rendering has more than k digits exactly when the number is at least 10^k |
| TicketString.TenDigitsFrom | mama_cas/models.py:26 | the epoch field meets the ten-digit minimum exactly when the clock is at least 10^9 seconds |
| TicketString.GeneratedMatchesIff | mama_cas/models.py:43-51 | a generated `prefix-now-tail` string with a tail of length N matches iff the prefix is 2-3 capitals, now >= 10^9 and the tail is alphanumeric |
| TicketString.TailLengthsDisjoint | mama_cas/models.py:26 | the tail length is part of the grammar: no string matches the pattern at two different tail lengths |
| TicketString.TrailingNewlineSlipsThrough | mama_cas/models.py:79 | a valid ticket string plus one newline passes the code's `$`-anchored match but is not a ticket string |
| Tickets.RandStr | mama_cas/models.py:43-51 | an empty prefix falls back to the kind's own; the generated string reads back as that prefix, a dash, the decimal digits of `now` without a leading zero, a dash and the tail; with a tail of length N it is a valid ticket string iff the prefix is 2-3 capitals, now >= 10^9 and the tail is alphanumeric |
| Tickets.GeneratedTicketMatches | mama_cas/models.py:36-37 | a string generated with the kind's default prefix, a ten-digit clock and an alphanumeric tail passes the format check, and the IOU string never does |
| Tickets.Consume | mama_cas/models.py:157-164 | consuming records `now` as the consumption instant, makes the ticket consumed, and leaves string, owner, creation instant, kind fields and expiry unchanged |
| Tickets.IsPrimary | mama_cas/models.py:199-207 | `is_primary` exists exactly on service tickets and there returns the `primary` flag |
| Tickets.ExpiryBoundary | mama_cas/models.py:175-182 | a ticket is expired at exactly `created + 5 minutes`, boundary included, not one second before, and stays expired later |
| Validation.Validate | mama_cas/models.py:53-104 | rejections before the lookup and on a consumed ticket leave the table untouched; a found, unconsumed ticket is consumed whatever the verdict and nothing else changes; success returns the stored, now consumed ticket |
| Validation.ValidateAsWritten | mama_cas/models.py:53-104 | validation with the code's `$`-anchored format check changes no other key and no key set, and succeeds only on a stored live ticket, returned consumed at `now` |
| Validation.NewlineTicketReachesLookup | mama_cas/models.py:79-85 | a valid ticket string plus a newline is malformed under the strict check; as written it is looked up, so it is not found in a table without that key, and a stored live key of that shape validates |
| Validation.EarlyRejections | mama_cas/models.py:66-87 | an empty ticket is InvalidRequest first; a missing service for kinds with a service field is InvalidRequest; a bad format is InvalidTicket; an unknown string is InvalidTicket; none of these changes the table |
| Validation.LateRejections | mama_cas/models.py:89-101 | after consumption: expired gives InvalidTicket, then an origin mismatch gives InvalidService, then renewal without primary credentials gives InvalidTicket (no method on proxy tickets) |
| Validation.ValidatedIff | mama_cas/models.py:53-104 | validation succeeds iff the ticket is found, unconsumed, unexpired, origin-compatible and primary when renewal is asked, and then returns the ticket consumed at `now` |
| Validation.ReplayRejected | mama_cas/models.py:89-91 | after any first presentation of a found, unconsumed ticket, a second presentation always fails as already used (or for a missing service) and changes nothing |
| Validation.ConsumedStaysConsumed | mama_cas/models.py:89-90 | a consumed ticket keeps its record, including its consumption instant, through any sequence of validations and is never validated again |
| Validation.AtMostOnce | mama_cas/models.py:89-104 | in any sequence of validations each ticket string is validated successfully at most once |
| Validation.ValidatePgt | mama_cas/models.py:276-304 | PGT validation never changes the table and succeeds only on a found, unconsumed, unexpired ticket, returned as stored |
| Validation.PgtVerdicts | mama_cas/models.py:281-301 | PGT verdicts in order: no ticket, no service, malformed, BadPgt for an unknown string, already used, then expired for a found, unconsumed, expired ticket; success iff admissible, found and live |
| Validation.PgtRepeatable | mama_cas/models.py:276-304 | repeating a PGT validation, with any supplied service, gives the same verdict: nothing is consumed and the service is not compared |
| Validation.ValidatePgtAsWritten | mama_cas/models.py:287-295 | PGT validation with the code's `$`-anchored format check never changes the table and succeeds only on a live stored ticket |
| Validation.NewlinePgtReachesLookup | mama_cas/models.py:287-295 | in a table of well-formed keys, a PGT string plus a newline is BadPgt as written but malformed under the strict check |
| Validation.NewlinePgtExample | mama_cas/models.py:287-295 | the concrete string `PGT-1700000000-` followed by 32 `a`s and a newline is BadPgt as written and InvalidTicket under the strict check |
| Maintenance.DeleteInvalidTickets | mama_cas/models.py:106-119 | the sweep keeps exactly the tickets that are neither consumed nor expired, each unchanged |
| Maintenance.SweepPreservesValidation | mama_cas/models.py:117-119 | at any later instant, a string validates against the swept table iff it validates against the full one, with the same ticket, under the common validator and under the proxy-granting-ticket validator alike |
| Maintenance.ConsumeTickets | mama_cas/models.py:121-130 | logout consumes exactly the user's unconsumed, unexpired tickets at `now`, leaves all other tickets (and earlier consumption instants) unchanged, and leaves none of the user's tickets live |
| Maintenance.NoValidationAfterLogout | mama_cas/models.py:128-130 | after logout none of the user's tickets validates, at that instant or later, under the common validator or the proxy-granting-ticket validator |
| Issuance.CreateTicket | mama_cas/models.py:29-41 | an empty ticket string is replaced by the string generated with the kind's prefix; creation fails with a duplicate key iff that string or the IOU is taken; otherwise it inserts exactly one unconsumed ticket under that string, created at `now` with the given owner and fields |
| Issuance.CreatePreservesWellKeyed | mama_cas/models.py:30-41 | creation keeps every key naming its own ticket and grows the table by one |
| Issuance.ValidatePgtUrl | mama_cas/models.py:247-274 | a non-HTTPS URL is refused with no request sent; otherwise exactly one GET carries both strings; the URL is accepted iff it responds with a status outside 400-599; an error status is refused with that status; a connection or TLS failure is refused as a transport failure; any other client error escapes, and only then |
| Issuance.CreatePgt | mama_cas/models.py:226-245 | any callback failure or exception leaves the table unchanged; `None` is returned iff the callback was refused; an exception escapes iff the client raised one or the accepted PGT string or IOU is already taken; a PGT is issued iff the callback was accepted and nothing collides, and it is the generated PGT string, owned by the user, created at `now`, unconsumed, carrying the generated IOU and the granting tickets, inserted as the one new key |
| Issuance.PgtOnlyAfterCallback | mama_cas/models.py:234-245 | a new key appears only after an HTTPS callback answered with a non-error status; it is the generated PGT string, the table grows by one, and its IOU is not a valid ticket string |
| Issuance.RefusedCallbackStoresNothing | mama_cas/models.py:236-241 | when no PGT is issued, neither the generated PGT string nor its IOU is present afterwards unless it was before |
| MongoTickets.MConsume | mama_cas/mongo_models.py:40-47 | consuming a document records `now`, makes it consumed and leaves string, owner, expiry and fields unchanged |
| MongoTickets.MIsPrimary | mama_cas/mongo_models.py:70-78 | `is_primary` exists exactly on service-ticket documents and returns their `primary` flag |
| MongoTickets.NewMServiceTicket | mama_cas/mongo_models.py:64-68 | a new service-ticket document is unconsumed and primary only when `primary` is given as true (the default is false) |
| MongoTickets.MConsumeThenConsumed | mama_cas/mongo_models.py:40-61 | after `consume` the document is consumed, and its expiry verdict at any instant is unchanged |
| MongoTickets.PredicatesAgree | mama_cas/mongo_models.py:49-61 | storing `created + lifetime` as `expires` makes the document's consumed, expired (`expires <= now`) and primary predicates equal the relational ones, and consuming commutes with that mapping |
| MongoTickets.GrammarsAgree | mama_cas/mongo_models.py:23-24 | with both tail-length settings at their default 32 the document model's pattern accepts exactly the relational model's strings (when the settings differ, `TicketString.TailLengthsDisjoint` makes the two patterns disjoint) |

## Left out

- Persistence: the ORM and document-store calls (`get`, `filter`, `all`, `save`, `delete`) become operations on a map. The unique constraints become a duplicate-key result. The 255-character column limits are not modelled.
- Concurrency: consumption is a plain read and then a save, with no compare-and-set. Only sequential behaviour is modelled. `Validation.AtMostOnce` is the sequential form of the anti-replay guarantee.
- Clock: the code reads the clock several times within one call. The model uses a single `now` per call.
- Randomness: `get_random_string` becomes a tail parameter. Its length and alphabet are hypotheses of the lemmas that need them.
- Foreign helpers: `same_origin`, `is_scheme_https` and `requests.get` are function parameters with no interpretation.
- Issuance.ValidatePgtUrl: how `add_query_params` merges `pgtId` and `pgtIou` into the URL is not modelled. The request is the triple of URL and the two strings.
- Exceptions: an exception that escapes `validate_pgturl` or the insert appears in `CreatePgt` as `Raised`, with the table unchanged. Its type and message are not kept.
- Error messages: failure reasons are enumerated. The human-readable message strings and the logging are left out.
- Settings: they are constants at their defaults. These are a 32-character tail, a 5-minute lifetime and a document-model tail of 32.
- Document-model expiry settings: `TICKET_EXPIRE` (90) and the PGT `SESSION_COOKIE_AGE` are not read by any modelled predicate, so they are left out.
- `request_sign_out`, `__unicode__` and the `name` property: these are an outbound POST and presentation helpers.
- Maintenance.DeleteInvalidTickets: deleting a ticket also deletes, through the foreign keys `granted_by_pgt`, `granted_by_st` and `granted_by_pt` (mama_cas/models.py:219, 317-318) and the default cascade of Django 1.x, every ticket it granted, and transitively what those granted. The chain can come back into the table being swept: a consumed proxy ticket takes the proxy-granting tickets it granted with it, and they take the proxy tickets they granted, live ones included (and likewise from a proxy-granting ticket through a proxy ticket to another proxy-granting ticket). The model deletes only the consumed and expired tickets themselves, so it matches the code only for a table in which no live ticket descends, through `granted_by_*`, from a consumed or expired one.
- Maintenance.SweepPreservesValidation: for the same reason it does not hold in the code for a proxy or proxy-granting table that holds a live ticket granted, directly or through other tickets, by a consumed or expired one; the model promises it only for the sweep as modelled.
- Missing arguments: a `None` ticket argument is modelled as the empty string. A `None` service is `Option.None`. Both are falsy in the code.

## Findings

| source | as written | input that shows it | evidently intended | confidence | as-written member | corrected member |
|---|---|---|---|---|---|---|
| mama_cas/models.py:79 | `TICKET_RE.match` uses a `$` anchor, so a valid service or proxy ticket string followed by a newline passes the format check and goes to the store lookup. Against well-formed keys it is reported as not found, not as malformed; a stored key of that shape would be validated. | `ST-1700000000-` followed by 32 `a` characters and `\n`, with a service | any string that is not exactly `PREFIX-DIGITS-TAIL` is rejected as malformed before the lookup | medium, not executed | Validation.ValidateAsWritten | Validation.Validate |
| mama_cas/models.py:287 | `TICKET_RE.match` uses a `$` anchor. In Python, `$` also matches just before one trailing newline, so a valid ticket string followed by a newline passes the format check and goes to the store lookup. For PGT validation, an unknown string is reported as BadPGT, not as an invalid ticket. | `PGT-1700000000-` followed by 32 `a` characters and `\n`, with a service, against a table of well-formed strings | any string that is not exactly `PREFIX-DIGITS-TAIL` is rejected as an invalid ticket before the lookup | medium, not executed | Validation.ValidatePgtAsWritten | Validation.ValidatePgt |

In the as-written model, `TicketString.MatchesAsWritten` is the `$`-anchored match.
`TicketString.TrailingNewlineSlipsThrough`, `Validation.NewlineTicketReachesLookup`,
`Validation.NewlinePgtReachesLookup` and `Validation.NewlinePgtExample` exhibit the discrepancy.
The rest of the model uses the strict `TicketString.Matches`. For service and proxy tickets, in a
table of well-formed keys, the input changes only the reason (not found instead of malformed), not
the error kind.
