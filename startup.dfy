/** The option loop of the server's start-up: already-parsed `(option, argument)`
    pairs update the port and the region, and `-h` ends the program. */
module Startup {
  import opened Wrappers

  const DefaultPort := 80
  const FallbackRegion := "us-east-2"

  /** How the loop ends: serving on a port for a region, exiting on `-h`, or
      stopping with the ValueError that `int` raises on a port argument. */
  datatype Startup = Serve(port: int, region: string) | HelpExit | PortValueError(arg: string)

  /** The region the instance reports, else the fixed fallback. */
  function InitialRegion(detected: Option<string>): (region: string)
    ensures detected.Some? ==> region == detected.value
    ensures detected.None? ==> region == "us-east-2"
  {
    detected.GetOr(FallbackRegion)
  }

  predicate IsPortOption(opt: string)
  {
    opt == "-p" || opt == "--server_port"
  }

  predicate IsRegionOption(opt: string)
  {
    opt == "-r" || opt == "--region"
  }

  /** One pass of the loop body, from a running configuration. `parseInt` is
      Python's `int` on a string, None where it raises. */
  function ApplyOption(port: int, region: string, option: (string, string), parseInt: string -> Option<int>): Startup
  {
    var (opt, arg) := option;
    if opt == "-h" then HelpExit
    else if IsPortOption(opt) then
      match parseInt(arg)
      case Some(p) => Serve(p, region)
      case None => PortValueError(arg)
    else if IsRegionOption(opt) then Serve(port, arg)
    else Serve(port, region)
  }

  /** The loop run over `opts`: a left fold from the defaults that stops at the first exit. */
  function Configure(opts: seq<(string, string)>, detected: Option<string>, parseInt: string -> Option<int>): Startup
    decreases |opts|
  {
    if |opts| == 0 then Serve(DefaultPort, InitialRegion(detected))
    else
      match Configure(opts[..|opts| - 1], detected, parseInt)
      case Serve(port, region) => ApplyOption(port, region, opts[|opts| - 1], parseInt)
      case stopped => stopped
  }

  /** The option ends the loop: a help request, or a port argument `int` rejects. */
  predicate Stops(option: (string, string), parseInt: string -> Option<int>)
  {
    option.0 == "-h" || (IsPortOption(option.0) && parseInt(option.1).None?)
  }

  /** Position `k` holds the last port option of `opts`. */
  predicate IsLastPortOption(opts: seq<(string, string)>, k: int)
  {
    0 <= k < |opts| && IsPortOption(opts[k].0) && forall j :: k < j < |opts| ==> !IsPortOption(opts[j].0)
  }

  /** Position `k` holds the last region option of `opts`. */
  predicate IsLastRegionOption(opts: seq<(string, string)>, k: int)
  {
    0 <= k < |opts| && IsRegionOption(opts[k].0) && forall j :: k < j < |opts| ==> !IsRegionOption(opts[j].0)
  }

  /** Without an option that stops it, the loop serves on the port of the last
      port option (80 if there is none) and the region of the last region option
      (the detected or fallback region if there is none). */
  lemma {:induction false} ConfigureServes(opts: seq<(string, string)>, detected: Option<string>, parseInt: string -> Option<int>)
    requires forall i :: 0 <= i < |opts| ==> !Stops(opts[i], parseInt)
    ensures Configure(opts, detected, parseInt).Serve?
    ensures (forall i :: 0 <= i < |opts| ==> !IsPortOption(opts[i].0)) ==>
      Configure(opts, detected, parseInt).port == 80
    ensures forall k :: IsLastPortOption(opts, k) ==>
      parseInt(opts[k].1) == Some(Configure(opts, detected, parseInt).port)
    ensures (forall i :: 0 <= i < |opts| ==> !IsRegionOption(opts[i].0)) ==>
      Configure(opts, detected, parseInt).region == InitialRegion(detected)
    ensures forall k :: IsLastRegionOption(opts, k) ==>
      Configure(opts, detected, parseInt).region == opts[k].1
  {
    if |opts| > 0 {
      var n := |opts|;
      var init := opts[..n - 1];
      var last := opts[n - 1];
      assert forall i :: 0 <= i < n - 1 ==> init[i] == opts[i];
      ConfigureServes(init, detected, parseInt);
      var before := Configure(init, detected, parseInt);
      var after := Configure(opts, detected, parseInt);
      assert after == ApplyOption(before.port, before.region, last, parseInt);
      forall k | IsLastPortOption(opts, k)
        ensures parseInt(opts[k].1) == Some(after.port)
      {
        if k < n - 1 {
          assert IsLastPortOption(init, k);
        }
      }
      forall k | IsLastRegionOption(opts, k)
        ensures after.region == opts[k].1
      {
        if k < n - 1 {
          assert IsLastRegionOption(init, k);
        }
      }
      if forall i :: 0 <= i < n ==> !IsPortOption(opts[i].0) {
        assert !IsPortOption(last.0);
      }
      if forall i :: 0 <= i < n ==> !IsRegionOption(opts[i].0) {
        assert !IsRegionOption(last.0);
      }
    }
  }

  /** Once the loop has stopped it stays stopped: later options change nothing. */
  lemma {:induction false} StoppedStays(opts: seq<(string, string)>, i: nat, detected: Option<string>, parseInt: string -> Option<int>)
    requires i <= |opts|
    requires !Configure(opts[..i], detected, parseInt).Serve?
    ensures Configure(opts, detected, parseInt) == Configure(opts[..i], detected, parseInt)
  {
    if i == |opts| {
      assert opts[..i] == opts;
    } else {
      var init := opts[..|opts| - 1];
      assert init[..i] == opts[..i];
      StoppedStays(init, i, detected, parseInt);
    }
  }

  /** The first option that stops the loop decides how it ends: exit on `-h`,
      the ValueError on a bad port argument. */
  lemma ConfigureStopsAt(opts: seq<(string, string)>, k: nat, detected: Option<string>, parseInt: string -> Option<int>)
    requires k < |opts| && Stops(opts[k], parseInt)
    requires forall i :: 0 <= i < k ==> !Stops(opts[i], parseInt)
    ensures Configure(opts, detected, parseInt) == if opts[k].0 == "-h" then HelpExit else PortValueError(opts[k].1)
  {
    var upTo := opts[..k];
    assert forall i :: 0 <= i < k ==> upTo[i] == opts[i];
    ConfigureServes(upTo, detected, parseInt);
    assert opts[..k + 1][..k] == upTo;
    StoppedStays(opts, k + 1, detected, parseInt);
  }

  /** An option the loop does not recognise leaves the outcome as it was. */
  lemma IgnoredOption(opts: seq<(string, string)>, option: (string, string), detected: Option<string>, parseInt: string -> Option<int>)
    requires option.0 != "-h" && !IsPortOption(option.0) && !IsRegionOption(option.0)
    ensures Configure(opts + [option], detected, parseInt) == Configure(opts, detected, parseInt)
  {
    assert (opts + [option])[..|opts|] == opts;
  }

  /** `run`'s loop over the options, from port 80 and the detected or fallback region. */
  method ProcessOptions(opts: seq<(string, string)>, detected: Option<string>, parseInt: string -> Option<int>)
    returns (outcome: Startup)
    ensures outcome == Configure(opts, detected, parseInt)
  {
    var serverPort := DefaultPort;
    var region := InitialRegion(detected);
    for i := 0 to |opts|
      invariant Configure(opts[..i], detected, parseInt) == Serve(serverPort, region)
    {
      var (opt, arg) := opts[i];
      assert opts[..i + 1][..i] == opts[..i];
      if opt == "-h" {
        StoppedStays(opts, i + 1, detected, parseInt);
        return HelpExit;
      } else if IsPortOption(opt) {
        match parseInt(arg) {
          case Some(p) => serverPort := p;
          case None =>
            StoppedStays(opts, i + 1, detected, parseInt);
            return PortValueError(arg);
        }
      } else if IsRegionOption(opt) {
        region := arg;
      }
    }
    assert opts[..|opts|] == opts;
    outcome := Serve(serverPort, region);
  }
}
