/**
 The two bulk operations over one kind's table: the cleanup sweep that
 deletes consumed or expired tickets, and the logout pass that consumes a
 user's outstanding tickets. Each visits the tickets one at a time, as the
 code iterates over its query set.
 */
module Maintenance {
  import opened Tickets
  import opened Validation

  /** `swept` keeps exactly the live tickets of `store`, unchanged. */
  predicate IsSweepOf(swept: Store, store: Store, now: nat)
  {
    && swept.Keys == (set k | k in store && Live(store[k], now))
    && (forall k :: k in swept ==> swept[k] == store[k])
  }

  /** `delete_invalid_tickets`: delete every consumed or expired ticket. */
  method DeleteInvalidTickets(store: Store, now: nat) returns (swept: Store)
    ensures IsSweepOf(swept, store, now)
  {
    swept := store;
    var pending := store.Keys;
    while pending != {}
      invariant pending <= store.Keys
      invariant forall k :: k in pending ==> k in swept
      invariant forall k :: k in swept ==> k in store && swept[k] == store[k]
      invariant forall k :: k in store && k !in pending ==> (k in swept <==> Live(store[k], now))
      decreases pending
    {
      var k :| k in pending;
      if IsConsumed(store[k]) || IsExpired(store[k], now) {
        swept := swept - {k};
      }
      pending := pending - {k};
    }
  }

  /** `consumed` is `store` after the logout pass for `user` at `now`. */
  predicate IsLogoutOf(consumed: Store, store: Store, user: User, now: nat)
  {
    && consumed.Keys == store.Keys
    && forall k :: k in store ==>
         consumed[k] == (if store[k].user == user && Live(store[k], now) then Consume(store[k], now) else store[k])
  }

  /**
   `consume_tickets`: consume each of the user's tickets that is neither
   consumed nor expired. Other users' tickets, and earlier consumption
   instants, are left as they were; afterwards none of the user's tickets is live.
   */
  method ConsumeTickets(store: Store, user: User, now: nat) returns (consumed: Store)
    ensures IsLogoutOf(consumed, store, user, now)
    ensures forall k :: k in consumed && consumed[k].user == user ==> !Live(consumed[k], now)
  {
    consumed := store;
    var pending := store.Keys;
    while pending != {}
      invariant pending <= store.Keys
      invariant consumed.Keys == store.Keys
      invariant forall k :: k in pending ==> consumed[k] == store[k]
      invariant forall k :: k in store && k !in pending ==>
        consumed[k] == (if store[k].user == user && Live(store[k], now) then Consume(store[k], now) else store[k])
      decreases pending
    {
      var k :| k in pending;
      var t := store[k];
      if t.user == user && !IsConsumed(t) && !IsExpired(t, now) {
        consumed := consumed[k := Consume(t, now)];
      }
      pending := pending - {k};
    }
  }

  /**
   The sweep is invisible to successful validation: at any later instant a
   string validates against the swept table exactly when it validates against
   the full one, and with the same ticket, under either validator.
   */
  lemma SweepPreservesValidation(store: Store, swept: Store, sweptAt: nat, kind: Kind, ticket: string,
                                 service: Option<string>, renew: bool, now: nat,
                                 sameOrigin: (string, string) -> bool)
    requires IsSweepOf(swept, store, sweptAt) && sweptAt <= now
    ensures Validate(kind, swept, ticket, service, renew, now, sameOrigin).outcome.Validated? <==>
            Validate(kind, store, ticket, service, renew, now, sameOrigin).outcome.Validated?
    ensures Validate(kind, swept, ticket, service, renew, now, sameOrigin).outcome.Validated? ==>
            Validate(kind, swept, ticket, service, renew, now, sameOrigin).outcome ==
            Validate(kind, store, ticket, service, renew, now, sameOrigin).outcome
    // The same holds for the proxy-granting table under its own validator.
    ensures ValidatePgt(swept, ticket, service, now).outcome.Validated? <==>
            ValidatePgt(store, ticket, service, now).outcome.Validated?
    ensures ValidatePgt(swept, ticket, service, now).outcome.Validated? ==>
            ValidatePgt(swept, ticket, service, now).outcome == ValidatePgt(store, ticket, service, now).outcome
  {
    ValidatedIff(kind, swept, ticket, service, renew, now, sameOrigin);
    ValidatedIff(kind, store, ticket, service, renew, now, sameOrigin);
    if ticket in store && ticket !in swept {
      assert !Live(store[ticket], sweptAt);
      ExpiryBoundary(store[ticket], sweptAt, now);
    }
  }

  /**
   After logout, none of the user's tickets validates again, now or later,
   whether the table is checked by the common validator or, for
   proxy-granting tickets, by their own.
   */
  lemma NoValidationAfterLogout(store: Store, consumed: Store, user: User, loggedOutAt: nat, kind: Kind,
                                ticket: string, service: Option<string>, renew: bool, now: nat,
                                sameOrigin: (string, string) -> bool)
    requires IsLogoutOf(consumed, store, user, loggedOutAt) && loggedOutAt <= now
    requires ticket in store && store[ticket].user == user
    ensures Validate(kind, consumed, ticket, service, renew, now, sameOrigin).outcome.Rejected?
    ensures ValidatePgt(consumed, ticket, service, now).outcome.Rejected?
  {
    ValidatedIff(kind, consumed, ticket, service, renew, now, sameOrigin);
    ExpiryBoundary(store[ticket], loggedOutAt, now);
  }
}
