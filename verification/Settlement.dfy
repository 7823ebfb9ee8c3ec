/** One request's hold on a quota reservation, released at most once. */
module Settlement {
  import opened Common
  import opened QuotaService

  /** Calls to the quota service in order. */
  datatype QuotaCall = Reserve(granted: bool) | Settle(usage: Option<Usage>, forwarded: int) | Refund

  class Account {
    var calls: seq<QuotaCall>

    constructor ()
      ensures calls == []
    {
      calls := [];
    }
  }

  class QuotaSettlement {
    const account: Account
    var settled: bool
    var usage: Option<Usage>

    constructor (account: Account)
      ensures this.account == account && !settled && usage == None
    {
      this.account, settled, usage := account, false, None;
    }

    method CaptureUsage(usage: Option<Usage>)
      modifies this`usage
      ensures this.usage == usage
    {
      this.usage := usage;
    }

    /** Reported usage wins over captured usage; a second release of either kind does nothing. */
    method SettleOnce(usage: Option<Usage>, forwarded: int)
      modifies this`settled, account
      ensures settled
      ensures account.calls == if old(settled) then old(account.calls)
                               else old(account.calls) + [Settle(if usage.Some? then usage else this.usage, forwarded)]
    {
      if settled {
        return;
      }
      settled := true;
      var final := if usage.Some? then usage else this.usage;
      account.calls := account.calls + [Settle(final, forwarded)];
    }

    method RefundFull()
      modifies this`settled, account
      ensures settled
      ensures account.calls == if old(settled) then old(account.calls) else old(account.calls) + [Refund]
    {
      if settled {
        return;
      }
      settled := true;
      account.calls := account.calls + [Refund];
    }
  }

  /** A granted reservation is a settlement to be released; a refused one leaves nothing to release. */
  method ReserveQuota(account: Account, granted: bool) returns (held: QuotaSettlement?)
    modifies account
    ensures held == null <==> !granted
    ensures granted ==> fresh(held) && held.account == account && !held.settled && held.usage == None
    ensures account.calls == old(account.calls) + [Reserve(granted)]
  {
    account.calls := account.calls + [Reserve(granted)];
    if !granted {
      return null;
    }
    held := new QuotaSettlement(account);
  }
}
