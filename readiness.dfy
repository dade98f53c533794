/**
 * Waiting for the containers to be ready (`ContainersReadiness.wait`): probe
 * rounds, each evaluating the probes in order and stopping at the first that
 * is not ready, separated by a sleep, until a round succeeds or the clock
 * passes a deadline fixed before the first round.
 *
 * The clock is an integer that only sleeping advances; what a probe observes
 * (the Keycloak status file, the HTTP status of MinIO's health URL) is an
 * oracle indexed by the probe call's number.
 */
module Readiness {
  import opened Wrappers
  import opened Strings

  const DefaultWaitTimeout: int := 300
  const DefaultInterval: int := 5

  /** What the probes see at one probe call: the status file's text, if it can be read, and the HTTP status, if the URL can be opened. */
  datatype Reading = Reading(statusFile: Option<string>, httpStatus: Option<int>)

  datatype Probe =
    | ProbeKeycloak(pathStatusFile: string)
    | ProbeMinio(healthLiveUrl: string)

  /** What a probe raises: the status file cannot be read. */
  datatype ProbeError = StatusFileUnreadable(path: string)

  datatype ReadinessError =
    | ProbeRaised(error: ProbeError)
    | NegativeSleep(interval: int)
    | Timeout(waitTimeout: int)

  /** How a probe judges what it observes; `ProbeResult` is the one `wait` uses. */
  type Check = (Probe, Reading) -> Result<bool, ProbeError>

  /** `_probe`: Keycloak is ready once the stripped status is not "SETUP"; MinIO once its health URL answers 200. */
  function ProbeResult(p: Probe, reading: Reading): (r: Result<bool, ProbeError>)
    ensures p.ProbeKeycloak? ==> (r.Err? <==> reading.statusFile.None?)
    ensures p.ProbeKeycloak? && reading.statusFile.Some? ==> (r == Ok(true) <==> Strip(reading.statusFile.value) != "SETUP")
    ensures p.ProbeMinio? ==> (r == Ok(true) <==> reading.httpStatus == Some(200)) && r.Ok?
  {
    match p
    case ProbeKeycloak(path) =>
      if reading.statusFile.None? then Err(StatusFileUnreadable(path))
      else Ok(Strip(reading.statusFile.value) != "SETUP")
    case ProbeMinio(_) =>
      if reading.httpStatus.None? then Ok(false)
      else Ok(reading.httpStatus.value == 200)
  }

  /** "ERROR" in the status file counts as ready, as does any text other than "SETUP". */
  lemma KeycloakErrorIsReady(path: string)
    ensures ProbeResult(ProbeKeycloak(path), Reading(Some("ERROR\n"), None)) == Ok(true)
  {
    StripUnchanged("ERROR");
    assert Strip("ERROR\n") == "ERROR" by {
      assert TrimEnd("ERROR\n") == "ERROR";
    }
  }

  /**
   * One round, `all(probe.probe() for probe in probes)`, starting at probe
   * call `n`: its result and the number of probe calls it made.
   */
  function Round(check: Check, probes: seq<Probe>, read: nat -> Reading, n: nat): (Result<bool, ProbeError>, nat)
    decreases |probes|
  {
    if probes == [] then (Ok(true), 0)
    else
      match check(probes[0], read(n))
      case Err(e) => (Err(e), 1)
      case Ok(ready) =>
        if !ready then (Ok(false), 1)
        else
          var (r, k) := Round(check, probes[1..], read, n + 1);
          (r, k + 1)
  }

  /** Every probe is ready, the i-th at probe call `m + i`. */
  predicate AllReady(check: Check, probes: seq<Probe>, read: nat -> Reading, m: nat) {
    forall i :: 0 <= i < |probes| ==> check(probes[i], read(m + i)) == Ok(true)
  }

  /** A round calls every probe when it is ready, and at least one when it is not. */
  lemma {:induction false} RoundCalls(check: Check, probes: seq<Probe>, read: nat -> Reading, n: nat)
    ensures Round(check, probes, read, n).1 <= |probes|
    ensures Round(check, probes, read, n).0 == Ok(true) ==> Round(check, probes, read, n).1 == |probes|
    ensures Round(check, probes, read, n).0 != Ok(true) ==> Round(check, probes, read, n).1 >= 1
    decreases |probes|
  {
    if probes != [] {
      RoundCalls(check, probes[1..], read, n + 1);
    }
  }

  /** A round is ready exactly when every probe, in order, is. */
  lemma {:induction false} RoundReadyIff(check: Check, probes: seq<Probe>, read: nat -> Reading, n: nat)
    ensures Round(check, probes, read, n).0 == Ok(true) <==> AllReady(check, probes, read, n)
    decreases |probes|
  {
    if probes != [] {
      RoundReadyIff(check, probes[1..], read, n + 1);
      AllReadyCons(check, probes, read, n);
    }
  }

  /**
   * A round that is not ready stops at its last call: every probe before
   * it was ready, and that one raised or was not ready.
   */
  lemma {:induction false} RoundStopsAtFirstFailure(check: Check, probes: seq<Probe>, read: nat -> Reading, n: nat)
    requires Round(check, probes, read, n).0 != Ok(true)
    ensures var k := Round(check, probes, read, n).1;
      && 1 <= k <= |probes|
      && AllReady(check, probes[..k - 1], read, n)
      && check(probes[k - 1], read(n + k - 1)) != Ok(true)
      && Round(check, probes, read, n).0 == (if check(probes[k - 1], read(n + k - 1)).Err? then check(probes[k - 1], read(n + k - 1)) else Ok(false))
    decreases |probes|
  {
    RoundCalls(check, probes, read, n);
    var first := check(probes[0], read(n));
    if first == Ok(true) {
      var rest := Round(check, probes[1..], read, n + 1);
      assert Round(check, probes, read, n) == (rest.0, rest.1 + 1);
      RoundStopsAtFirstFailure(check, probes[1..], read, n + 1);
      var k := rest.1 + 1;
      assert probes[1..][k - 2] == probes[k - 1];
      AllReadyCons(check, probes[..k - 1], read, n);
      assert probes[..k - 1][1..] == probes[1..][..k - 2];
    }
  }

  /** All of a non-empty list is ready iff its head is and its tail is, one call later. */
  lemma AllReadyCons(check: Check, probes: seq<Probe>, read: nat -> Reading, n: nat)
    requires probes != []
    ensures AllReady(check, probes, read, n) <==> check(probes[0], read(n)) == Ok(true) && AllReady(check, probes[1..], read, n + 1)
  {
    forall i | 1 <= i < |probes| ensures probes[i] == probes[1..][i - 1] && read(n + i) == read((n + 1) + (i - 1)) {
    }
  }

  /** The outcome of waiting: the result, the number of probe calls made, and the final time. */
  datatype Outcome = Outcome(result: Result<(), ReadinessError>, calls: nat, time: int)

  /**
   * The rounds of `wait` from probe call `n` at time `now`: a round that
   * succeeds ends the wait; a failed round sleeps `interval`, then gives up
   * if the time is past `giveUpAt`, else probes again.
   */
  function Rounds(check: Check, probes: seq<Probe>, read: nat -> Reading, n: nat, now: int, giveUpAt: int, interval: int, waitTimeout: int): Outcome
    requires interval != 0
    decreases giveUpAt - now
  {
    var (r, k) := Round(check, probes, read, n);
    if r.Err? then Outcome(Err(ProbeRaised(r.error)), n + k, now)
    else if r.value then Outcome(Ok(()), n + k, now)
    else if interval < 0 then Outcome(Err(NegativeSleep(interval)), n + k, now)
    else if now + interval > giveUpAt then Outcome(Err(Timeout(waitTimeout)), n + k, now + interval)
    else Rounds(check, probes, read, n + k, now + interval, giveUpAt, interval, waitTimeout)
  }

  /** What follows a round that gave `r`, with `n` probe calls made so far, at time `now`. */
  function AfterRound(r: Result<bool, ProbeError>, check: Check, probes: seq<Probe>, read: nat -> Reading, n: nat, now: int, giveUpAt: int, interval: int, waitTimeout: int): Outcome
    requires interval != 0
  {
    if r.Err? then Outcome(Err(ProbeRaised(r.error)), n, now)
    else if r.value then Outcome(Ok(()), n, now)
    else if interval < 0 then Outcome(Err(NegativeSleep(interval)), n, now)
    else if now + interval > giveUpAt then Outcome(Err(Timeout(waitTimeout)), n, now + interval)
    else Rounds(check, probes, read, n, now + interval, giveUpAt, interval, waitTimeout)
  }

  /** `Rounds` is one round followed by what comes after it. */
  lemma RoundsStep(check: Check, probes: seq<Probe>, read: nat -> Reading, n: nat, now: int, giveUpAt: int, interval: int, waitTimeout: int)
    requires interval != 0
    ensures var (r, k) := Round(check, probes, read, n);
      Rounds(check, probes, read, n, now, giveUpAt, interval, waitTimeout)
      == AfterRound(r, check, probes, read, n + k, now, giveUpAt, interval, waitTimeout)
  {
  }

  /** A round that found a probe not ready, with time left: sleep, then the rounds go on. */
  lemma AfterNotReady(check: Check, probes: seq<Probe>, read: nat -> Reading, n: nat, now: int, giveUpAt: int, interval: int, waitTimeout: int)
    requires interval > 0 && now + interval <= giveUpAt
    ensures AfterRound(Ok(false), check, probes, read, n, now, giveUpAt, interval, waitTimeout)
         == Rounds(check, probes, read, n, now + interval, giveUpAt, interval, waitTimeout)
  {
  }

  /**
   * The wait ends well only after a round in which every probe, in order,
   * was ready: the last `|probes|` probe calls.
   */
  lemma {:induction false} ReadyOnlyAfterFullRound(check: Check, probes: seq<Probe>, read: nat -> Reading, n: nat, now: int, giveUpAt: int, interval: int, waitTimeout: int)
    requires interval != 0
    ensures var o := Rounds(check, probes, read, n, now, giveUpAt, interval, waitTimeout);
      o.result.Ok? ==> o.calls >= n + |probes| && AllReady(check, probes, read, o.calls - |probes|)
    decreases giveUpAt - now
  {
    var round := Round(check, probes, read, n);
    var o := Rounds(check, probes, read, n, now, giveUpAt, interval, waitTimeout);
    if round.0 == Ok(false) && interval > 0 && now + interval <= giveUpAt {
      assert o == Rounds(check, probes, read, n + round.1, now + interval, giveUpAt, interval, waitTimeout);
      ReadyOnlyAfterFullRound(check, probes, read, n + round.1, now + interval, giveUpAt, interval, waitTimeout);
    } else if o.result.Ok? {
      assert round.0 == Ok(true) && o.calls == n + round.1;
      RoundCalls(check, probes, read, n);
      RoundReadyIff(check, probes, read, n);
    }
  }

  /**
   * The wait gives up only once the clock is past the deadline, and never
   * sleeps more than one interval past it; the clock only moves forward.
   */
  lemma {:induction false} TimeoutPastDeadline(check: Check, probes: seq<Probe>, read: nat -> Reading, n: nat, now: int, giveUpAt: int, interval: int, waitTimeout: int)
    requires interval != 0
    ensures var o := Rounds(check, probes, read, n, now, giveUpAt, interval, waitTimeout);
      && (o.result == Err(Timeout(waitTimeout)) ==> o.time > giveUpAt)
      && now <= o.time
      && (interval > 0 && now <= giveUpAt ==> o.time <= giveUpAt + interval)
    decreases giveUpAt - now
  {
    RoundCalls(check, probes, read, n);
    var (r, k) := Round(check, probes, read, n);
    if r == Ok(false) && interval > 0 && now + interval <= giveUpAt {
      TimeoutPastDeadline(check, probes, read, n + k, now + interval, giveUpAt, interval, waitTimeout);
    }
  }

  /** A first round that succeeds ends the wait at once, with no sleep; an empty probe list always does. */
  lemma FirstRoundReady(check: Check, probes: seq<Probe>, read: nat -> Reading, n: nat, now: int, giveUpAt: int, interval: int, waitTimeout: int)
    requires interval != 0
    requires Round(check, probes, read, n).0 == Ok(true) || probes == []
    ensures Rounds(check, probes, read, n, now, giveUpAt, interval, waitTimeout) == Outcome(Ok(()), n + |probes|, now)
  {
    RoundCalls(check, probes, read, n);
  }

  /**
   * The clock and what the probes observe; `check` is how a probe judges
   * its observation, `ProbeResult` in every world built here.
   */
  class World {
    var now: int
    var probeCalls: nat
    const read: nat -> Reading
    const check: Check

    constructor (now: int, read: nat -> Reading)
      ensures this.now == now && this.read == read && probeCalls == 0
      ensures check == ProbeResult
    {
      this.now := now;
      this.read := read;
      check := ProbeResult;
      probeCalls := 0;
    }

    /** `time.sleep(d)`: a negative length raises. */
    method Sleep(d: int) returns (r: Result<(), ReadinessError>)
      modifies this`now
      ensures d < 0 ==> r == Err(NegativeSleep(d)) && now == old(now)
      ensures d >= 0 ==> r == Ok(()) && now == old(now) + d
    {
      if d < 0 {
        return Err(NegativeSleep(d));
      }
      now := now + d;
      r := Ok(());
    }

    /** `probe.probe()` */
    method CallProbe(p: Probe) returns (r: Result<bool, ProbeError>)
      modifies this`probeCalls
      ensures probeCalls == old(probeCalls) + 1
      ensures r == check(p, read(old(probeCalls)))
    {
      r := check(p, read(probeCalls));
      probeCalls := probeCalls + 1;
    }
  }

  /** A round's result with `i` more probe calls counted. */
  function Shift(round: (Result<bool, ProbeError>, nat), i: nat): (Result<bool, ProbeError>, nat) {
    (round.0, round.1 + i)
  }

  /** `all(probe.probe() for probe in probes)` */
  method RunRound(probes: seq<Probe>, world: World) returns (r: Result<bool, ProbeError>)
    modifies world`probeCalls
    ensures (r, world.probeCalls - old(world.probeCalls)) == Round(world.check, probes, world.read, old(world.probeCalls))
    ensures world.probeCalls >= old(world.probeCalls)
  {
    ghost var n0 := world.probeCalls;
    var i := 0;
    while i < |probes|
      invariant 0 <= i <= |probes| && world.probeCalls == n0 + i
      invariant Round(world.check, probes, world.read, n0) == Shift(Round(world.check, probes[i..], world.read, n0 + i), i)
    {
      var ready := world.CallProbe(probes[i]);
      assert probes[i..][0] == probes[i] && probes[i..][1..] == probes[i + 1..];
      if ready.Err? {
        return Err(ready.error);
      }
      if !ready.value {
        return Ok(false);
      }
      i := i + 1;
    }
    r := Ok(true);
  }

  /** `ContainersReadiness` */
  class ContainersReadiness {
    const probes: seq<Probe>
    const waitTimeout: int
    const interval: int

    constructor (probes: seq<Probe>, waitTimeout: int, interval: int)
      ensures this.probes == probes && this.waitTimeout == waitTimeout && this.interval == interval
    {
      this.probes := probes;
      this.waitTimeout := waitTimeout;
      this.interval := interval;
    }

    /**
     * `wait`: the deadline is the start time plus the timeout. An interval of
     * 0 with probes that never succeed would spin without end, so it is
     * excluded.
     */
    method Wait(world: World) returns (r: Result<(), ReadinessError>)
      requires interval != 0
      modifies world`now, world`probeCalls
      ensures var o := Rounds(world.check, probes, world.read, old(world.probeCalls), old(world.now), old(world.now) + waitTimeout, interval, waitTimeout);
        r == o.result && world.probeCalls == o.calls && world.now == o.time
    {
      var giveUpAt := world.now + waitTimeout;
      RoundsStep(world.check, probes, world.read, world.probeCalls, world.now, giveUpAt, interval, waitTimeout);
      var success := RunRound(probes, world);
      while success == Ok(false)
        invariant Rounds(world.check, probes, world.read, old(world.probeCalls), old(world.now), giveUpAt, interval, waitTimeout)
                  == AfterRound(success, world.check, probes, world.read, world.probeCalls, world.now, giveUpAt, interval, waitTimeout)
        decreases giveUpAt - world.now
      {
        ghost var before := world.now;
        var slept := world.Sleep(interval);
        if slept.Err? {
          return Err(slept.error);
        }
        if world.now > giveUpAt {
          return Err(Timeout(waitTimeout));
        }
        AfterNotReady(world.check, probes, world.read, world.probeCalls, before, giveUpAt, interval, waitTimeout);
        RoundsStep(world.check, probes, world.read, world.probeCalls, world.now, giveUpAt, interval, waitTimeout);
        success := RunRound(probes, world);
      }
      if success.Err? {
        return Err(ProbeRaised(success.error));
      }
      r := Ok(());
    }
  }
}
