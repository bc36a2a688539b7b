/** The update checker: a five-state machine that asks the PhET server for the
    latest published version of the simulation and compares it with the
    running one (js/UpdateCheck.js).

    The checker is the class `UpdateCheck`, whose methods assign its fields in
    the order the source does. Its observable fields are collected in a
    `Snapshot` value, and each event the browser may deliver (a call of
    `check()`, of `resetTimeout()`, the timer firing, the request's `onload` or
    `onerror`) is also given as a pure step on snapshots, so that runs of
    events can be reasoned about. The browser delivers those events in any
    order; nothing ties a response to the request that produced it, exactly as
    in the source. */
module UpdateChecking {
  import opened JsBuiltins

  /** The values of the `state` property. */
  datatype CheckState = Unchecked | Checking | UpToDate | OutOfDate | Offline

  /** A version as `SimVersion` represents it. How `SimVersion` parses and
      compares versions is not part of this model; the checker only reads the
      suffix and the not-published flag. `major`, `minor` and `maintenance`
      are there for documentation only: nothing in the model reads them, since
      `compare` is a parameter. */
  datatype SimVersion = SimVersion(major: nat, minor: nat, maintenance: nat, suffix: string, isSimNotPublished: bool)

  /** What the checker is built with and the collaborators it calls.
      - `simName`, `ourVersion`: read from the repository's package.json at load time;
      - `areUpdatesChecked`: false when running inside the "together" wrapper;
      - `corsSupported`: whether the browser's XMLHttpRequest has `withCredentials`;
      - `assertionsEnabled`: whether `assert` is on, which adds the sim-name check;
      - `parse`: `SimVersion.parse`, None when it throws;
      - `compare`: `SimVersion.prototype.compare`. */
  datatype Config = Config(
    simName: string,
    ourVersion: SimVersion,
    areUpdatesChecked: bool,
    corsSupported: bool,
    assertionsEnabled: bool,
    parse: string -> Option<SimVersion>,
    compare: (SimVersion, SimVersion) -> int)

  /** How many milliseconds a request may take before the checker gives up. */
  const TimeoutMilliseconds := 15000

  /** The checker's fields, plus two counters kept for the environment:
      `sent` counts the requests issued so far and `outstanding` those whose
      `onload` or `onerror` has not run yet. `timeout` is the deadline of the
      pending timer, if one is armed. */
  datatype Snapshot = Snapshot(
    state: CheckState,
    latestVersion: Option<SimVersion>,
    timeout: Option<int>,
    sent: nat,
    outstanding: nat)

  /** The events the browser can deliver to the checker. `Load` carries the
      `comment` field of the response's JSON, or None when the body is not
      JSON or has no string `comment`. `now` is the clock reading at the call. */
  datatype Event = Check(now: int) | ResetTimeout(now: int) | TimerFires | Load(comment: Option<string>) | Error

  // ---------------------------------------------------------------------------
  // The pure parts of `onload`

  /** The sim-name assertion of `onload`: the name sits at index 2 of the
      comment, after "# ". An empty name always matches, since
      `substring(2, 2)` is empty whatever the comment. */
  predicate NameMatches(comment: string, simName: string)
    ensures NameMatches(comment, simName) <==>
      simName == [] || (|simName| + 2 <= |comment| && comment[2..|simName| + 2] == simName)
  {
    Substring(comment, 2, |simName| + 2) == simName
  }

  /** The version token of a comment "# <name> <version> <date...>": what
      starts at index |name| + 3 and runs up to the next space. It is empty
      when no space follows, because `substring(0, -1)` is empty. */
  function VersionToken(comment: string, nameLength: nat): (r: string)
    ensures ' ' !in r
    ensures var k := nameLength + 3;
      if k < |comment| && ' ' in comment[k..] then
        k + |r| < |comment| && comment[k..k + |r|] == r && comment[k + |r|] == ' '
      else r == []
  {
    var rest := SubstringFrom(comment, nameLength + 3);
    var space := IndexOf(rest, ' ');
    assert space >= 0 ==> rest[..space] == rest[0..space];
    Substring(rest, 0, space)
  }

  /** What the `try` block of `onload` gets from the response: the parsed
      latest version, or None when any step throws (no comment, a name
      mismatch while assertions are on, or a version `SimVersion.parse`
      rejects). */
  function LoadOutcome(cfg: Config, comment: Option<string>): (r: Option<SimVersion>)
    ensures comment.None? ==> r.None?
    ensures comment.Some? && cfg.assertionsEnabled && !NameMatches(comment.value, cfg.simName) ==> r.None?
    ensures comment.Some? && (!cfg.assertionsEnabled || NameMatches(comment.value, cfg.simName)) ==>
      r == cfg.parse(VersionToken(comment.value, |cfg.simName|))
  {
    match comment
    case None => None
    case Some(c) =>
      if cfg.assertionsEnabled && !NameMatches(c, cfg.simName) then None
      else cfg.parse(VersionToken(c, |cfg.simName|))
  }

  /** The decision rule of `onload`: out of date when our version compares
      as older, or as equal while carrying a (non-empty) suffix. */
  function Verdict(comparison: int, ourSuffix: string): (r: CheckState)
    ensures r == OutOfDate || r == UpToDate
    ensures r == OutOfDate <==> comparison == -1 || (comparison == 0 && ourSuffix != [])
  {
    if comparison == -1 || (comparison == 0 && ourSuffix != []) then OutOfDate else UpToDate
  }

  // ---------------------------------------------------------------------------
  // The events as steps on snapshots

  /** A fresh checker: unchecked, no latest version, no timer, no request. */
  function Initial(): (r: Snapshot)
    ensures r.state == Unchecked && r.latestVersion == None && r.timeout == None
    ensures r.sent == 0 && r.outstanding == 0
  {
    Snapshot(Unchecked, None, None, 0, 0)
  }

  /** Whether `check()` gets past its first guard. */
  predicate MayCheck(cfg: Config, c: Snapshot) {
    cfg.areUpdatesChecked && (c.state == Unchecked || c.state == Offline)
  }

  /** `check()`. */
  function CheckStep(cfg: Config, c: Snapshot, now: int): (r: Snapshot)
    // disabled, or already in flight or resolved: nothing happens
    ensures !MayCheck(cfg, c) ==> r == c
    // an unpublished sim is up to date without any request or timer
    ensures MayCheck(cfg, c) && cfg.ourVersion.isSimNotPublished ==>
      r == c.(state := UpToDate)
    // a published sim with CORS support enters `checking` and sends a request
    ensures MayCheck(cfg, c) && !cfg.ourVersion.isSimNotPublished && cfg.corsSupported ==>
      r.state == Checking && r.sent == c.sent + 1
    // a request is issued exactly when the checker enters `checking`
    ensures r.sent == c.sent + 1 <==> c.state != Checking && r.state == Checking
    ensures r.sent == c.sent + 1 ==> r.timeout == Some(now + TimeoutMilliseconds) && r.outstanding == c.outstanding + 1
    ensures r.sent != c.sent + 1 ==> r.sent == c.sent && r.outstanding == c.outstanding && r.timeout == c.timeout
    // without CORS support the state is left as it was
    ensures !cfg.corsSupported && !cfg.ourVersion.isSimNotPublished ==> r == c
    ensures r.latestVersion == c.latestVersion
  {
    if !MayCheck(cfg, c) then c
    else if cfg.ourVersion.isSimNotPublished then c.(state := UpToDate)
    else if cfg.corsSupported then
      c.(state := Checking, timeout := Some(now + TimeoutMilliseconds), sent := c.sent + 1, outstanding := c.outstanding + 1)
    else c
  }

  /** `resetTimeout()`: re-arms the timer for the full duration, only while checking. */
  function ResetTimeoutStep(c: Snapshot, now: int): (r: Snapshot)
    ensures c.state != Checking ==> r == c
    ensures c.state == Checking ==> r == c.(timeout := Some(now + TimeoutMilliseconds))
  {
    if c.state == Checking then c.(timeout := Some(now + TimeoutMilliseconds)) else c
  }

  /** The timer fires: it is no longer pending, and the state is `offline`
      whatever it was. */
  function FireStep(c: Snapshot): (r: Snapshot)
    ensures r.state == Offline && r.timeout == None
    ensures r.latestVersion == c.latestVersion && r.sent == c.sent && r.outstanding == c.outstanding
  {
    c.(state := Offline, timeout := None)
  }

  /** `onload`: the timer is cleared, then the response decides the state. */
  function LoadStep(cfg: Config, c: Snapshot, comment: Option<string>): (r: Snapshot)
    requires c.outstanding > 0
    ensures r.timeout == None && r.sent == c.sent && r.outstanding == c.outstanding - 1
    ensures r.state == Offline <==> LoadOutcome(cfg, comment).None?
    ensures r.state == Offline ==> r.latestVersion == c.latestVersion
    ensures r.state != Offline ==>
      && r.latestVersion.Some?
      && r.latestVersion == LoadOutcome(cfg, comment)
      && r.state == Verdict(cfg.compare(cfg.ourVersion, r.latestVersion.value), cfg.ourVersion.suffix)
  {
    var cleared := c.(timeout := None, outstanding := c.outstanding - 1);
    match LoadOutcome(cfg, comment)
    case None => cleared.(state := Offline)
    case Some(v) => cleared.(latestVersion := Some(v), state := Verdict(cfg.compare(cfg.ourVersion, v), cfg.ourVersion.suffix))
  }

  /** `onerror`: the timer is cleared and the state is `offline`. */
  function ErrorStep(c: Snapshot): (r: Snapshot)
    requires c.outstanding > 0
    ensures r.state == Offline && r.timeout == None && r.outstanding == c.outstanding - 1
    ensures r.latestVersion == c.latestVersion && r.sent == c.sent
  {
    c.(state := Offline, timeout := None, outstanding := c.outstanding - 1)
  }

  /** The browser fires only a pending timer, and calls `onload` or `onerror`
      only for a request that was sent and has not completed. */
  predicate Enabled(c: Snapshot, e: Event) {
    match e
    case TimerFires => c.timeout.Some?
    case Load(_) => c.outstanding > 0
    case Error => c.outstanding > 0
    case _ => true
  }

  function Step(cfg: Config, c: Snapshot, e: Event): Snapshot
    requires Enabled(c, e)
  {
    match e
    case Check(now) => CheckStep(cfg, c, now)
    case ResetTimeout(now) => ResetTimeoutStep(c, now)
    case TimerFires => FireStep(c)
    case Load(comment) => LoadStep(cfg, c, comment)
    case Error => ErrorStep(c)
  }

  /** Delivers the events in order; None when one of them could not be
      delivered at its turn. */
  function Run(cfg: Config, c: Snapshot, events: seq<Event>): Option<Snapshot>
    decreases |events|
  {
    if events == [] then Some(c)
    else if !Enabled(c, events[0]) then None
    else Run(cfg, Step(cfg, c, events[0]), events[1..])
  }

  // ---------------------------------------------------------------------------
  // What every reachable snapshot satisfies

  /** A state reached by a comparison agrees with the recorded latest version. */
  predicate Justified(cfg: Config, c: Snapshot) {
    && (c.state == OutOfDate ==>
          c.latestVersion.Some? && Verdict(cfg.compare(cfg.ourVersion, c.latestVersion.value), cfg.ourVersion.suffix) == OutOfDate)
    && (c.state == UpToDate ==>
          cfg.ourVersion.isSimNotPublished ||
          (c.latestVersion.Some? && Verdict(cfg.compare(cfg.ourVersion, c.latestVersion.value), cfg.ourVersion.suffix) == UpToDate))
  }

  /** The invariant of the checker:
      - a timer is pending exactly while the state is `checking`
        (the source's comment on `timeoutId`: valid only if state is 'checking');
      - a checking checker has a request out;
      - no request is ever issued when checks are off, the sim is unpublished
        or the browser lacks CORS support;
      - `out-of-date` and `up-to-date` are justified. */
  predicate Consistent(cfg: Config, c: Snapshot) {
    && (c.timeout.Some? <==> c.state == Checking)
    && (c.state == Checking ==> c.outstanding > 0)
    && c.outstanding <= c.sent
    && (!cfg.areUpdatesChecked || cfg.ourVersion.isSimNotPublished || !cfg.corsSupported ==> c.sent == 0)
    && Justified(cfg, c)
  }

  lemma InitialConsistent(cfg: Config)
    ensures Consistent(cfg, Initial())
  {
  }

  lemma StepKeepsConsistent(cfg: Config, c: Snapshot, e: Event)
    requires Consistent(cfg, c) && Enabled(c, e)
    ensures Consistent(cfg, Step(cfg, c, e))
  {
  }

  /** Every snapshot a run reaches from a consistent one is consistent. */
  lemma {:induction false} RunKeepsConsistent(cfg: Config, c: Snapshot, events: seq<Event>)
    requires Consistent(cfg, c)
    ensures Run(cfg, c, events).Some? ==> Consistent(cfg, Run(cfg, c, events).value)
    decreases |events|
  {
    if events != [] && Enabled(c, events[0]) {
      StepKeepsConsistent(cfg, c, events[0]);
      RunKeepsConsistent(cfg, Step(cfg, c, events[0]), events[1..]);
    }
  }

  /** With update checks off, no run moves the checker: it stays unchecked
      and sends nothing, however often `check()` is called. */
  lemma {:induction false} DisabledNeverMoves(cfg: Config, events: seq<Event>)
    requires !cfg.areUpdatesChecked
    ensures Run(cfg, Initial(), events) == None || Run(cfg, Initial(), events) == Some(Initial())
    decreases |events|
  {
    if events != [] && Enabled(Initial(), events[0]) {
      assert Step(cfg, Initial(), events[0]) == Initial();
      DisabledNeverMoves(cfg, events[1..]);
    }
  }

  /** An unpublished sim never sends a request and only ever reads
      `unchecked` or `up-to-date`. */
  lemma {:induction false} UnpublishedNeverRequests(cfg: Config, c: Snapshot, events: seq<Event>)
    requires cfg.ourVersion.isSimNotPublished
    requires c.sent == 0 && c.outstanding == 0 && c.timeout == None && (c.state == Unchecked || c.state == UpToDate)
    ensures Run(cfg, c, events).Some? ==>
      var d := Run(cfg, c, events).value;
      d.sent == 0 && (d.state == Unchecked || d.state == UpToDate)
    decreases |events|
  {
    if events != [] && Enabled(c, events[0]) {
      UnpublishedNeverRequests(cfg, Step(cfg, c, events[0]), events[1..]);
    }
  }

  /** There is no staleness check: a response that arrives after the timer
      has already declared the checker offline still decides its state. */
  lemma LateLoadOverwritesOffline(cfg: Config, now: int, comment: string)
    requires MayCheck(cfg, Initial()) && !cfg.ourVersion.isSimNotPublished && cfg.corsSupported
    requires LoadOutcome(cfg, Some(comment)).Some?
    ensures var v := LoadOutcome(cfg, Some(comment)).value;
      Run(cfg, Initial(), [Check(now), TimerFires]) == Some(Initial().(state := Offline, sent := 1, outstanding := 1)) &&
      Run(cfg, Initial(), [Check(now), TimerFires, Load(Some(comment))]) ==
        Some(Snapshot(Verdict(cfg.compare(cfg.ourVersion, v), cfg.ourVersion.suffix), Some(v), None, 1, 0))
  {
    var c1 := CheckStep(cfg, Initial(), now);
    var c2 := FireStep(c1);
    var events := [Check(now), TimerFires, Load(Some(comment))];
    assert Run(cfg, c2, events[2..]) == Run(cfg, LoadStep(cfg, c2, Some(comment)), []);
    assert Run(cfg, c1, events[1..]) == Run(cfg, c2, events[2..]);
    assert Run(cfg, Initial(), events) == Run(cfg, c1, events[1..]);
    assert Run(cfg, c1, [TimerFires]) == Run(cfg, c2, []);
    assert [Check(now), TimerFires][1..] == [TimerFires];
  }

  /** `check()` guards only on the state, so once the timer has fired a second
      request can be sent while the first is still out. */
  lemma TwoRequestsInFlight(cfg: Config, t0: int, t1: int)
    requires MayCheck(cfg, Initial()) && !cfg.ourVersion.isSimNotPublished && cfg.corsSupported
    ensures Run(cfg, Initial(), [Check(t0), TimerFires, Check(t1)]) ==
      Some(Snapshot(Checking, None, Some(t1 + TimeoutMilliseconds), 2, 2))
  {
    var c1 := CheckStep(cfg, Initial(), t0);
    var c2 := FireStep(c1);
    var events := [Check(t0), TimerFires, Check(t1)];
    assert Run(cfg, c2, events[2..]) == Run(cfg, CheckStep(cfg, c2, t1), []);
    assert Run(cfg, c1, events[1..]) == Run(cfg, c2, events[2..]);
    assert Run(cfg, Initial(), events) == Run(cfg, c1, events[1..]);
  }

  // ---------------------------------------------------------------------------
  // The checker object

  class UpdateCheck {
    const config: Config
    var state: CheckState
    var latestVersion: Option<SimVersion>
    /** The deadline of the pending timer (`timeoutId` while armed). */
    var timeout: Option<int>
    var sent: nat
    var outstanding: nat

    function View(): Snapshot
      reads this
    {
      Snapshot(state, latestVersion, timeout, sent, outstanding)
    }

    /** A fresh checker is unchecked with no latest version; `ourVersion`
        and the rest of the configuration are fixed from here on. */
    constructor (cfg: Config)
      ensures config == cfg
      ensures View() == Initial()
      ensures Consistent(config, View())
    {
      config := cfg;
      state := Unchecked;
      latestVersion := None;
      timeout := None;
      sent, outstanding := 0, 0;
    }

    /** `clearTimeout`: the pending timer, if any, is cancelled. */
    method ClearTimeout()
      modifies this
      ensures timeout == None
      ensures state == old(state) && latestVersion == old(latestVersion)
      ensures sent == old(sent) && outstanding == old(outstanding)
    {
      timeout := None;
    }

    /** `setTimeout`: a timer is armed for the full duration. */
    method SetTimeout(now: int)
      modifies this
      ensures timeout == Some(now + TimeoutMilliseconds)
      ensures state == old(state) && latestVersion == old(latestVersion)
      ensures sent == old(sent) && outstanding == old(outstanding)
    {
      timeout := Some(now + TimeoutMilliseconds);
    }

    method ResetTimeout(now: int)
      modifies this
      ensures View() == ResetTimeoutStep(old(View()), now)
    {
      if state == Checking {
        ClearTimeout();
        SetTimeout(now);
      }
    }

    /** `timeout`: the state becomes `offline`, whatever it was. */
    method Timeout()
      modifies this
      ensures View() == old(View()).(state := Offline)
    {
      state := Offline;
    }

    /** The browser runs the pending timer's callback; the timer is then no
        longer pending. */
    method TimerFires()
      requires timeout.Some?
      modifies this
      ensures View() == FireStep(old(View()))
    {
      timeout := None;
      Timeout();
    }

    method Check(now: int)
      modifies this
      ensures View() == CheckStep(config, old(View()), now)
    {
      if !config.areUpdatesChecked || (state != Unchecked && state != Offline) {
        return;
      }
      if config.ourVersion.isSimNotPublished {
        state := UpToDate;
        return;
      }
      if config.corsSupported {
        state := Checking;
        SetTimeout(now);
        sent := sent + 1;
        outstanding := outstanding + 1;
      }
    }

    method OnLoad(comment: Option<string>)
      requires outstanding > 0
      modifies this
      ensures View() == LoadStep(config, old(View()), comment)
    {
      ClearTimeout();
      outstanding := outstanding - 1;
      var parsed := LoadOutcome(config, comment);
      if parsed.None? {
        state := Offline;
      } else {
        latestVersion := parsed;
        var comparison := config.compare(config.ourVersion, parsed.value);
        if comparison == -1 || (comparison == 0 && config.ourVersion.suffix != []) {
          state := OutOfDate;
        } else {
          state := UpToDate;
        }
      }
    }

    method OnError()
      requires outstanding > 0
      modifies this
      ensures View() == ErrorStep(old(View()))
    {
      ClearTimeout();
      outstanding := outstanding - 1;
      state := Offline;
    }
  }
}
