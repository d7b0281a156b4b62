/** The payment provider as the subscription routes see it: a remote service
    whose `subscriptions.create` either fails or returns a subscription with a
    fresh id and a payment link, and whose `subscriptions.cancel` either
    succeeds or fails. The outcome of each remote call is not determined by
    anything the backend controls, so the client chooses it arbitrarily; every
    call is recorded in `log`. */
module Razorpay {
  import opened Common

  /** The part of the provider's subscription object the routes use. */
  datatype ProviderSubscription = ProviderSubscription(id: string, shortUrl: string)

  datatype ProviderCall =
    | CancelCall(subscriptionId: string, ok: bool)
    | CreateCall(planId: Option<string>, result: Option<ProviderSubscription>)

  // Digit, Decimal and their injectivity lemmas stand for nothing in the
  // backend: they give the client's stand-in id scheme `"sub_" + serial`,
  // which only serves to make every returned id provably fresh.

  function Digit(d: nat): (c: char)
    requires d < 10
    ensures '0' <= c <= '9'
  {
    ['0', '1', '2', '3', '4', '5', '6', '7', '8', '9'][d]
  }

  function Decimal(n: nat): (s: string)
    ensures |s| >= 1
    ensures n >= 10 ==> |s| >= 2
  {
    if n < 10 then [Digit(n)] else Decimal(n / 10) + [Digit(n % 10)]
  }

  lemma DigitInjective(a: nat, b: nat)
    requires a < 10 && b < 10 && Digit(a) == Digit(b)
    ensures a == b
  {
  }

  /** Distinct serial numbers give distinct decimal strings. */
  lemma {:induction false} DecimalInjective(a: nat, b: nat)
    requires Decimal(a) == Decimal(b)
    ensures a == b
  {
    var s, t := Decimal(a), Decimal(b);
    if a < 10 && b < 10 {
      DigitInjective(a, b);
    } else if a >= 10 && b >= 10 {
      assert s[|s| - 1] == Digit(a % 10) && t[|t| - 1] == Digit(b % 10);
      DigitInjective(a % 10, b % 10);
      assert Decimal(a / 10) == s[..|s| - 1] == t[..|t| - 1] == Decimal(b / 10);
      DecimalInjective(a / 10, b / 10);
    }
  }

  /** The provider's subscription id for the n-th subscription it issues. */
  function SubscriptionIdOf(n: nat): string
  {
    "sub_" + Decimal(n)
  }

  /** Distinct serial numbers give distinct subscription ids. */
  lemma SubscriptionIdInjective(m: nat, n: nat)
    requires SubscriptionIdOf(m) == SubscriptionIdOf(n)
    ensures m == n
  {
    assert Decimal(m) == SubscriptionIdOf(m)[4..] == SubscriptionIdOf(n)[4..] == Decimal(n);
    DecimalInjective(m, n);
  }

  class RazorpayClient {
    var log: seq<ProviderCall>
    var serial: nat
    ghost var issued: set<string>

    /** Every id issued so far came from a serial number below `serial`. */
    ghost predicate Valid()
      reads this
    {
      forall id :: id in issued ==> exists n: nat :: n < serial && SubscriptionIdOf(n) == id
    }

    constructor ()
      ensures Valid() && log == [] && issued == {}
    {
      log, serial, issued := [], 0, {};
    }

    /** `subscriptions.cancel(id)`: the provider accepts or rejects the call. */
    method CancelSubscription(subscriptionId: string) returns (ok: bool)
      requires Valid()
      modifies this
      ensures Valid() && issued == old(issued)
      ensures log == old(log) + [CancelCall(subscriptionId, ok)]
    {
      ok := *;
      log := log + [CancelCall(subscriptionId, ok)];
    }

    /** `subscriptions.create({ plan_id, ... })`: either a failure or a
        subscription whose id the provider has never issued before. */
    method CreateSubscription(planId: Option<string>) returns (r: Option<ProviderSubscription>)
      requires Valid()
      modifies this
      ensures Valid()
      ensures log == old(log) + [CreateCall(planId, r)]
      ensures r.Some? ==> r.value.id !in old(issued) && issued == old(issued) + {r.value.id}
      ensures r.None? ==> issued == old(issued)
    {
      var accepted: bool := *;
      if accepted {
        var shortUrl: string := *;
        var id := SubscriptionIdOf(serial);
        forall x | x in issued
          ensures x != id
        {
          var n: nat :| n < serial && SubscriptionIdOf(n) == x;
          if x == id {
            SubscriptionIdInjective(n, serial);
          }
        }
        r := Some(ProviderSubscription(id, shortUrl));
        issued := issued + {id};
        serial := serial + 1;
      } else {
        r := None;
      }
      log := log + [CreateCall(planId, r)];
    }
  }
}
