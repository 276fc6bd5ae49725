/**
 * Error classification: `wrapNetworkError` turns a transport failure into a
 * diagnostic, and `describeError` turns whatever reached the top-level `catch`
 * into the one message the user sees.
 */
module Errors {
  import Text

  const UrlErrorDomain: string := "NSURLErrorDomain"

  // Foundation's URL error codes for the failures that mean "nothing is listening".
  const TimedOut: int := -1001
  const CannotFindHost: int := -1003
  const CannotConnectToHost: int := -1004
  const NetworkConnectionLost: int := -1005
  const DnsLookupFailed: int := -1006
  const NotConnectedToInternet: int := -1009

  predicate IsConnectivityFailure(domain: string, code: int) {
    domain == UrlErrorDomain
    && code in {CannotConnectToHost, NetworkConnectionLost, TimedOut,
                CannotFindHost, NotConnectedToInternet, DnsLookupFailed}
  }

  const HintHead: string := "Can't reach" + " the clawd browser control server at "
  const StartAdvice: string := "Start (or restart)"
  const HintAdvice: string := StartAdvice + " the Clawdis gateway (Clawdis.app menubar, or `clawdis gateway`) and try again."
  const GenericHead: string := "Failed to reach "

  /** The two-line hint for a server that cannot be reached. */
  function UnreachableHint(url: string): string {
    HintHead + url + ".\n" + HintAdvice
  }

  /** `wrapNetworkError`: the hint for a connectivity failure, otherwise a
      generic message with the timeout in whole seconds. */
  function WrapNetworkError(domain: string, code: int, url: string, timeout: nat): (msg: string)
    ensures IsConnectivityFailure(domain, code) <==> Text.StartsWith(msg, HintHead)
    ensures IsConnectivityFailure(domain, code) ==>
              Text.Contains(msg, url) && Text.Contains(msg, StartAdvice)
    ensures !IsConnectivityFailure(domain, code) ==>
              msg == GenericHead + url + " (timeout " + Text.Decimal(timeout) + "s)."
  {
    if IsConnectivityFailure(domain, code) then
      var m := UnreachableHint(url);
      assert Text.OccursAt(m, url, |HintHead|);
      var k := |HintHead| + |url| + 2;
      assert m[k..] == HintAdvice;
      assert m[k..k + |StartAdvice|] == StartAdvice;
      assert Text.OccursAt(m, StartAdvice, k);
      m
    else
      var m := GenericHead + url + " (timeout " + Text.Decimal(timeout) + "s).";
      assert m[0] == GenericHead[0] == 'F';
      assert HintHead[0] == 'C';
      m
  }

  /** `describeError`: the error's own description without surrounding
      whitespace, or a generic message naming the base URL when that is blank. */
  function DescribeError(description: string, base: string): (msg: string)
    ensures msg != []
    ensures !Text.IsBlank(description) ==> msg == Text.Trim(description)
    ensures Text.IsBlank(description) ==> msg == "Browser request failed (" + base + ")"
  {
    var trimmed := Text.Trim(description);
    if trimmed != [] then trimmed else "Browser request failed (" + base + ")"
  }

  /** A wrapped network failure reaches the user unchanged: it has no
      whitespace at either end for `describeError` to cut. */
  lemma WrappedFailureIsShownVerbatim(domain: string, code: int, url: string, timeout: nat, base: string)
    ensures var msg := WrapNetworkError(domain, code, url, timeout);
            DescribeError(msg, base) == msg
  {
    var msg := WrapNetworkError(domain, code, url, timeout);
    if IsConnectivityFailure(domain, code) {
      assert msg == UnreachableHint(url);
      assert msg[0] == HintHead[0] == 'C';
    } else {
      assert msg[0] == GenericHead[0] == 'F';
    }
    assert msg[|msg| - 1] == '.';
    Text.TrimOfTrimmed(msg);
  }
}
