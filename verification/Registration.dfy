/** The device plugin's registration loop: one run, over everything it can observe turn by turn. Instants and delays are
    nanoseconds. */
module Registration {
  import opened Prelude

  /** A socket: the file and its modification time, since an inode may be reused at once. */
  datatype Identity = Identity(file: nat, modified: int)

  /** Retry settings; a value that is not positive stands for the default. */
  datatype Settings = Settings(retryInitial: int, retryMaximum: int)

  const SECOND := 1_000_000_000

  /** What ends a turn's wait. */
  datatype Signal = Cancelled | ServerStopped | StreamClosed(at: int) | Tick

  /** What one turn observes: a socket that cannot be identified is absent, `accepted` and `after` are the outcome of
      registering and the instant of a refusal. */
  datatype Look = Look(cancelled: bool, plugin: Option<Identity>, kubelet: Option<Identity>, now: int,
                       accepted: bool, after: int, signal: Signal)

  datatype End = Stopped | Restart | ServerFailed

  datatype Event =
    | Saw(kubelet: Identity)
    | Missed
    | Registered(kubelet: Identity, at: int)
    | Refused(kubelet: Identity, at: int, after: int)
    | StreamEnded(at: int)

  /** The loop's variables; `last` is empty until a kubelet was seen. */
  datatype Memory = Memory(last: Option<Identity>, missing: bool, registered: bool, nextAttempt: int, delay: int)

  datatype Progress = Progress(end: Option<End>, memory: Memory, trace: seq<Event>)

  predicate Attempt(e: Event) {
    e.Registered? || e.Refused?
  }

  // ---------------------------------------------------------------------------------------------
  // Delays
  // ---------------------------------------------------------------------------------------------

  function Maximum(c: Settings): (r: int)
    ensures r > 0
  {
    if c.retryMaximum <= 0 then 30 * SECOND else c.retryMaximum
  }

  function Initial(c: Settings): (r: int)
    ensures 0 < r <= Maximum(c)
  {
    Min(if c.retryInitial <= 0 then SECOND else c.retryInitial, Maximum(c))
  }

  function Longer(c: Settings, delay: int): int {
    if delay >= Maximum(c) / 2 then Maximum(c) else delay * 2
  }

  /** The delay after the k-th refusal in a row. */
  function Backoff(c: Settings, k: nat): int {
    if k <= 1 then Initial(c) else Longer(c, Backoff(c, k - 1))
  }

  /** Without settings the delays go from one second to thirty; a longer initial delay than the maximum is cut to it. */
  lemma DelaysFromSettings(initial: int, maximum: int)
    ensures Maximum(Settings(initial, maximum)) == if maximum > 0 then maximum else 30_000_000_000
    ensures Backoff(Settings(initial, maximum), 1) ==
            Min(if initial > 0 then initial else 1_000_000_000, if maximum > 0 then maximum else 30_000_000_000)
  {
  }

  /** The initial delay doubled k - 1 times. */
  function Doubled(c: Settings, k: nat): (r: int)
    ensures r > 0
  {
    if k <= 1 then Initial(c) else 2 * Doubled(c, k - 1)
  }

  function BackoffSum(c: Settings, n: nat): int {
    if n == 0 then 0 else BackoffSum(c, n - 1) + Backoff(c, n)
  }

  /** The delay doubles up to the maximum; only when the maximum is one more than a doubled delay is it reached one
      nanosecond early. */
  lemma {:induction false} BackoffDoubles(c: Settings, k: nat)
    ensures || Backoff(c, k) == Min(Doubled(c, k), Maximum(c))
            || Backoff(c, k) == Maximum(c) == Doubled(c, k) + 1
  {
    if k > 1 {
      BackoffDoubles(c, k - 1);
    }
  }

  /** Every delay is positive, at most the maximum, and no shorter than the one before it. */
  lemma {:induction false} BackoffGrows(c: Settings, k: nat)
    ensures 0 < Backoff(c, k) <= Backoff(c, k + 1) <= Maximum(c)
  {
    if k > 1 {
      BackoffGrows(c, k - 1);
    }
  }

  /** Until the maximum is reached, the delays of a streak add up to 2^n - 1 initial delays. */
  lemma {:induction false} StreakLength(c: Settings, n: nat)
    requires Doubled(c, n) <= Maximum(c)
    ensures n > 0 ==> BackoffSum(c, n) >= Doubled(c, n + 1) - Initial(c)
  {
    if n > 0 {
      BackoffDoubles(c, n);
      StreakLength(c, n - 1);
    }
  }

  /** A streak of n refusals takes at least n initial delays. */
  lemma {:induction false} StreakAtLeast(c: Settings, n: nat)
    ensures BackoffSum(c, n) >= n * Initial(c)
  {
    if n > 0 {
      StreakAtLeast(c, n - 1);
      BackoffDoubles(c, n);
      DoubledAtLeast(c, n);
      assert n * Initial(c) == (n - 1) * Initial(c) + Initial(c);
    }
  }

  lemma {:induction false} DoubledAtLeast(c: Settings, n: nat)
    ensures Doubled(c, n) >= Initial(c)
  {
    if n > 1 {
      DoubledAtLeast(c, n - 1);
    }
  }

  // ---------------------------------------------------------------------------------------------
  // One turn
  // ---------------------------------------------------------------------------------------------

  function Started(c: Settings, now: int): Progress {
    Progress(None, Memory(None, false, false, now, Initial(c)), [])
  }

  /** The kubelet's socket is not there. */
  function Absent(p: Progress): Progress {
    p.(memory := p.memory.(missing := p.memory.missing || p.memory.last.Some?, registered := false),
       trace := p.trace + [Missed])
  }

  /** The kubelet's socket is there: register unless registered, or too early. */
  function Present(c: Settings, p: Progress, kubelet: Identity, look: Look): Progress {
    var m := p.memory.(last := Some(kubelet), missing := false);
    var trace := p.trace + [Saw(kubelet)];
    if m.registered || look.now < m.nextAttempt then p.(memory := m, trace := trace)
    else if look.accepted then
      p.(memory := m.(registered := true, delay := Initial(c)), trace := trace + [Registered(kubelet, look.now)])
    else
      p.(memory := m.(nextAttempt := look.after + m.delay, delay := Longer(c, m.delay)),
         trace := trace + [Refused(kubelet, look.now, look.after)])
  }

  function Signalled(p: Progress, signal: Signal): Progress {
    match signal
    case Cancelled => p.(end := Some(Stopped))
    case ServerStopped => p.(end := Some(ServerFailed))
    case Tick => p
    case StreamClosed(at) =>
      p.(memory := if p.memory.registered then p.memory.(registered := false, nextAttempt := at) else p.memory,
         trace := p.trace + [StreamEnded(at)])
  }

  /** Either socket is no longer the one the loop started with. */
  predicate Changed(own: Identity, m: Memory, look: Look) {
    || look.plugin != Some(own)
    || (look.kubelet.Some? && m.last.Some? && (m.missing || look.kubelet != m.last))
  }

  function Turn(c: Settings, own: Identity, p: Progress, look: Look): Progress {
    if p.end.Some? then p
    else if look.cancelled then p.(end := Some(Stopped))
    else if Changed(own, p.memory, look) then p.(end := Some(Restart))
    else if look.kubelet.None? then Signalled(Absent(p), look.signal)
    else Signalled(Present(c, p, look.kubelet.value, look), look.signal)
  }

  /** The loop's progress over a script of observations. */
  function After(c: Settings, own: Identity, now: int, script: seq<Look>): Progress {
    if script == [] then Started(c, now)
    else Turn(c, own, After(c, own, now, script[..|script| - 1]), script[|script| - 1])
  }

  lemma {:induction false} EndedStays(c: Settings, own: Identity, now: int, script: seq<Look>, n: nat)
    requires n <= |script| && After(c, own, now, script[..n]).end.Some?
    ensures After(c, own, now, script) == After(c, own, now, script[..n])
    decreases |script|
  {
    if n < |script| {
      var front := script[..|script| - 1];
      assert front[..n] == script[..n];
      EndedStays(c, own, now, front, n);
    } else {
      assert script[..n] == script;
    }
  }

  lemma OneMoreTurn(c: Settings, own: Identity, now: int, script: seq<Look>, i: nat)
    requires i < |script|
    ensures After(c, own, now, script[..i + 1]) == Turn(c, own, After(c, own, now, script[..i]), script[i])
  {
    assert script[..i + 1][..i] == script[..i];
  }

  method RegistrationLoop(c: Settings, own: Identity, now: int, script: seq<Look>) returns (p: Progress)
    ensures p == After(c, own, now, script)
  {
    var retryMaximum := if c.retryMaximum <= 0 then 30 * SECOND else c.retryMaximum;
    var retryDelay := if c.retryInitial <= 0 then SECOND else c.retryInitial;
    if retryDelay > retryMaximum {
      retryDelay := retryMaximum;
    }
    var lastKubelet: Option<Identity> := None;
    var sawKubelet, kubeletWasMissing, registered := false, false, false;
    var nextAttempt := now;
    var trace: seq<Event> := [];
    for i := 0 to |script|
      invariant retryMaximum == Maximum(c) && sawKubelet == lastKubelet.Some?
      invariant After(c, own, now, script[..i]) ==
                Progress(None, Memory(lastKubelet, kubeletWasMissing, registered, nextAttempt, retryDelay), trace)
    {
      var look := script[i];
      OneMoreTurn(c, own, now, script, i);
      var end: Option<End> := None;
      if look.cancelled {
        end := Some(Stopped);
      } else if look.plugin != Some(own) {
        end := Some(Restart);
      } else if look.kubelet.Some? && sawKubelet && (kubeletWasMissing || look.kubelet != lastKubelet) {
        end := Some(Restart);
      } else {
        if look.kubelet.None? {
          if sawKubelet {
            kubeletWasMissing := true;
          }
          registered := false;
          trace := trace + [Missed];
        } else {
          lastKubelet, sawKubelet, kubeletWasMissing := look.kubelet, true, false;
          trace := trace + [Saw(look.kubelet.value)];
          if !registered && !(look.now < nextAttempt) {
            if look.accepted {
              registered := true;
              retryDelay := if c.retryInitial <= 0 then SECOND else c.retryInitial;
              if retryDelay > retryMaximum {
                retryDelay := retryMaximum;
              }
              trace := trace + [Registered(look.kubelet.value, look.now)];
            } else {
              nextAttempt := look.after + retryDelay;
              if retryDelay >= retryMaximum / 2 {
                retryDelay := retryMaximum;
              } else {
                retryDelay := retryDelay * 2;
              }
              trace := trace + [Refused(look.kubelet.value, look.now, look.after)];
            }
          }
        }
        match look.signal
        case Cancelled => end := Some(Stopped);
        case ServerStopped => end := Some(ServerFailed);
        case Tick =>
        case StreamClosed(at) =>
          if registered {
            registered, nextAttempt := false, at;
          }
          trace := trace + [StreamEnded(at)];
      }
      p := Progress(end, Memory(lastKubelet, kubeletWasMissing, registered, nextAttempt, retryDelay), trace);
      if end.Some? {
        EndedStays(c, own, now, script, i + 1);
        return;
      }
    }
    assert script[..|script|] == script;
    p := Progress(None, Memory(lastKubelet, kubeletWasMissing, registered, nextAttempt, retryDelay), trace);
  }

  // ---------------------------------------------------------------------------------------------
  // To whom it registers, and when again
  // ---------------------------------------------------------------------------------------------

  /** Whoever was seen before an attempt is the one addressed, with no absence in between. */
  ghost predicate Loyal(t: seq<Event>) {
    forall i, j | 0 <= i < j < |t| && t[i].Saw? && Attempt(t[j]) ::
      t[i].kubelet == t[j].kubelet && forall m | i < m < j :: t[m] != Missed
  }

  ghost predicate EndedBetween(t: seq<Event>, i: int, j: int) {
    exists m | i < m < j :: 0 <= m < |t| && t[m].StreamEnded?
  }

  /** After a registration the next attempt comes only once the stream has ended. */
  ghost predicate Sparing(t: seq<Event>) {
    forall i, j | 0 <= i < j < |t| && t[i].Registered? && Attempt(t[j]) :: EndedBetween(t, i, j)
  }

  /** What the loop's memory says about its trace. */
  ghost predicate Remembers(m: Memory, t: seq<Event>) {
    && (m.missing ==> m.last.Some?)
    && (forall i | 0 <= i < |t| && t[i].Saw? :: Some(t[i].kubelet) == m.last)
    && (forall i | 0 <= i < |t| && Attempt(t[i]) :: Some(t[i].kubelet) == m.last)
    && (!m.missing ==> forall i, j | 0 <= i < j < |t| && t[i].Saw? :: t[j] != Missed)
    && (!m.missing && !m.registered ==> forall i | 0 <= i < |t| && t[i].Registered? :: EndedBetween(t, i, |t|))
  }

  /** Appending an event that is not an attempt. */
  lemma QuietKeeps(t: seq<Event>, e: Event)
    requires Loyal(t) && Sparing(t) && !Attempt(e)
    ensures Loyal(t + [e]) && Sparing(t + [e])
  {
    var u := t + [e];
    forall i, j | 0 <= i < j < |u| && u[i].Registered? && Attempt(u[j])
      ensures EndedBetween(u, i, j)
    {
      EndedStill(t, e, i, j);
    }
  }

  lemma EndedStill(t: seq<Event>, e: Event, i: int, j: int)
    requires j <= |t| && EndedBetween(t, i, j)
    ensures EndedBetween(t + [e], i, j) && EndedBetween(t + [e], i, j + 1)
  {
    var m :| i < m < j && 0 <= m < |t| && t[m].StreamEnded?;
    assert (t + [e])[m].StreamEnded?;
  }

  /** Seeing the kubelet in a turn that does not restart. */
  lemma SawKeeps(m: Memory, t: seq<Event>, k: Identity)
    requires Remembers(m, t) && Loyal(t) && Sparing(t)
    requires m.last.None? || (!m.missing && m.last == Some(k))
    ensures Remembers(m.(last := Some(k), missing := false), t + [Saw(k)])
    ensures Loyal(t + [Saw(k)]) && Sparing(t + [Saw(k)])
  {
    QuietKeeps(t, Saw(k));
    if !m.registered && !m.missing {
      forall i | 0 <= i < |t| && t[i].Registered?
        ensures EndedBetween(t + [Saw(k)], i, |t| + 1)
      {
        EndedStill(t, Saw(k), i, |t|);
      }
    }
  }

  lemma AttemptKeeps(m: Memory, t: seq<Event>, e: Event, n: Memory)
    requires Remembers(m, t) && Loyal(t) && Sparing(t)
    requires !m.missing && !m.registered && Attempt(e) && m.last == Some(e.kubelet)
    requires n.last == m.last && !n.missing && n.registered == e.Registered?
    ensures Remembers(n, t + [e]) && Loyal(t + [e]) && Sparing(t + [e])
  {
    var u := t + [e];
    forall i | 0 <= i < |t| && t[i].Registered?
      ensures EndedBetween(u, i, |t|) && EndedBetween(u, i, |u|)
    {
      EndedStill(t, e, i, |t|);
    }
    forall i, j | 0 <= i < j < |u| && u[i].Registered? && Attempt(u[j])
      ensures EndedBetween(u, i, j)
    {
      if j < |t| {
        EndedStill(t, e, i, j);
      }
    }
  }

  lemma MissedKeeps(m: Memory, t: seq<Event>)
    requires Remembers(m, t) && Loyal(t) && Sparing(t)
    ensures Remembers(m.(missing := m.missing || m.last.Some?, registered := false), t + [Missed])
    ensures Loyal(t + [Missed]) && Sparing(t + [Missed])
  {
    QuietKeeps(t, Missed);
  }

  lemma StreamEndedKeeps(m: Memory, t: seq<Event>, at: int, n: Memory)
    requires Remembers(m, t) && Loyal(t) && Sparing(t)
    requires n.last == m.last && n.missing == m.missing && !n.registered
    ensures Remembers(n, t + [StreamEnded(at)]) && Loyal(t + [StreamEnded(at)]) && Sparing(t + [StreamEnded(at)])
  {
    QuietKeeps(t, StreamEnded(at));
    assert (t + [StreamEnded(at)])[|t|].StreamEnded?;
  }

  lemma PresentKeeps(c: Settings, p: Progress, k: Identity, look: Look)
    requires Remembers(p.memory, p.trace) && Loyal(p.trace) && Sparing(p.trace)
    requires p.memory.last.None? || (!p.memory.missing && p.memory.last == Some(k))
    ensures var q := Present(c, p, k, look);
            Remembers(q.memory, q.trace) && Loyal(q.trace) && Sparing(q.trace)
  {
    SawKeeps(p.memory, p.trace, k);
    var m, q := p.memory.(last := Some(k), missing := false), Present(c, p, k, look);
    if !m.registered && look.now >= m.nextAttempt {
      AttemptKeeps(m, p.trace + [Saw(k)], q.trace[|p.trace| + 1], q.memory);
    }
  }

  lemma SignalKeeps(p: Progress, signal: Signal)
    requires Remembers(p.memory, p.trace) && Loyal(p.trace) && Sparing(p.trace)
    ensures var q := Signalled(p, signal);
            Remembers(q.memory, q.trace) && Loyal(q.trace) && Sparing(q.trace)
  {
    if signal.StreamClosed? {
      StreamEndedKeeps(p.memory, p.trace, signal.at, Signalled(p, signal).memory);
    }
  }

  lemma {:induction false} RunRemembers(c: Settings, own: Identity, now: int, script: seq<Look>)
    ensures var p := After(c, own, now, script);
            Remembers(p.memory, p.trace) && Loyal(p.trace) && Sparing(p.trace)
  {
    if script != [] {
      var p, look := After(c, own, now, script[..|script| - 1]), script[|script| - 1];
      RunRemembers(c, own, now, script[..|script| - 1]);
      if p.end.None? && !look.cancelled && !Changed(own, p.memory, look) {
        if look.kubelet.None? {
          MissedKeeps(p.memory, p.trace);
          SignalKeeps(Absent(p), look.signal);
        } else {
          PresentKeeps(c, p, look.kubelet.value, look);
          SignalKeeps(Present(c, p, look.kubelet.value, look), look.signal);
        }
      }
    }
  }

  /** In every run: whoever was seen before a registration call is the kubelet called, without an absence in between,
      and after a successful call the next one comes only once the kubelet's stream has ended. */
  lemma RegistersWithOneKubelet(c: Settings, own: Identity, now: int, script: seq<Look>)
    ensures var t := After(c, own, now, script).trace;
            && (forall i, j | 0 <= i < j < |t| && t[i].Saw? && Attempt(t[j]) ::
                  t[i].kubelet == t[j].kubelet && forall m | i < m < j :: t[m] != Missed)
            && (forall i, j | 0 <= i < j < |t| && t[i].Registered? && Attempt(t[j]) ::
                  exists m | i < m < j :: t[m].StreamEnded?)
  {
    RunRemembers(c, own, now, script);
    var t := After(c, own, now, script).trace;
    forall i, j | 0 <= i < j < |t| && t[i].Registered? && Attempt(t[j])
      ensures exists m | i < m < j :: t[m].StreamEnded?
    {
      assert EndedBetween(t, i, j);
    }
  }

  // ---------------------------------------------------------------------------------------------
  // When it restarts
  // ---------------------------------------------------------------------------------------------

  /** The first kubelet of a script. */
  function FirstKubelet(script: seq<Look>): Option<Identity> {
    if script == [] then None
    else if script[0].kubelet.Some? then script[0].kubelet
    else FirstKubelet(script[1..])
  }

  /** A kubelet was seen, and later none was. */
  ghost predicate Vanished(script: seq<Look>) {
    exists i, j | 0 <= i < j < |script| :: script[i].kubelet.Some? && script[j].kubelet.None?
  }

  lemma {:induction false} FirstOfLonger(script: seq<Look>, look: Look)
    ensures FirstKubelet(script + [look]) ==
            if FirstKubelet(script).Some? then FirstKubelet(script) else look.kubelet
    ensures FirstKubelet(script).Some? <==> exists i | 0 <= i < |script| :: script[i].kubelet.Some?
  {
    if script != [] {
      assert (script + [look])[1..] == script[1..] + [look];
      FirstOfLonger(script[1..], look);
      if FirstKubelet(script[1..]).Some? {
        var i :| 0 <= i < |script[1..]| && script[1..][i].kubelet.Some?;
        assert script[i + 1].kubelet.Some?;
      }
      if i :| 0 <= i < |script| && script[i].kubelet.Some? && script[0].kubelet.None? {
        assert script[1..][i - 1].kubelet.Some?;
      }
    }
  }

  lemma VanishedWasSeen(script: seq<Look>)
    requires Vanished(script)
    ensures FirstKubelet(script).Some?
  {
    var i, j :| 0 <= i < j < |script| && script[i].kubelet.Some? && script[j].kubelet.None?;
    FirstOfLonger(script, script[i]);
  }

  lemma VanishedOfLonger(script: seq<Look>, look: Look)
    ensures Vanished(script + [look]) <==>
              Vanished(script) || (FirstKubelet(script).Some? && look.kubelet.None?)
  {
    var longer := script + [look];
    FirstOfLonger(script, look);
    if Vanished(script) {
      var i, j :| 0 <= i < j < |script| && script[i].kubelet.Some? && script[j].kubelet.None?;
      assert longer[i].kubelet.Some? && longer[j].kubelet.None?;
    }
    if FirstKubelet(script).Some? && look.kubelet.None? {
      var i :| 0 <= i < |script| && script[i].kubelet.Some?;
      assert longer[i].kubelet.Some? && longer[|script|].kubelet.None?;
    }
    if Vanished(longer) {
      var i, j :| 0 <= i < j < |longer| && longer[i].kubelet.Some? && longer[j].kubelet.None?;
      assert script[i].kubelet.Some?;
      assert j < |script| ==> script[j].kubelet.None?;
    }
  }

  lemma TurnRemembersFirst(c: Settings, own: Identity, p: Progress, look: Look)
    requires p.end.None? && Turn(c, own, p, look).end.None? && (p.memory.missing ==> p.memory.last.Some?)
    ensures var m := Turn(c, own, p, look).memory;
            && m.last == (if p.memory.last.Some? then p.memory.last else look.kubelet)
            && (m.missing <==> p.memory.missing || (p.memory.last.Some? && look.kubelet.None?))
  {
  }

  /** While it runs, the loop remembers the first kubelet and whether it has vanished since. */
  lemma {:induction false} RunningRemembersFirst(c: Settings, own: Identity, now: int, script: seq<Look>)
    requires After(c, own, now, script).end.None?
    ensures var m := After(c, own, now, script).memory;
            m.last == FirstKubelet(script) && (m.missing <==> Vanished(script))
  {
    if script != [] {
      var front, look := script[..|script| - 1], script[|script| - 1];
      assert script == front + [look];
      RunningRemembersFirst(c, own, now, front);
      FirstOfLonger(front, look);
      VanishedOfLonger(front, look);
      if Vanished(front) {
        VanishedWasSeen(front);
      }
      TurnRemembersFirst(c, own, After(c, own, now, front), look);
    }
  }

  /** A running loop restarts exactly when its own socket is not the one it created, or a kubelet is there that is not
      the first one or that comes back after an absence. */
  lemma RestartsExactly(c: Settings, own: Identity, now: int, script: seq<Look>, look: Look)
    requires After(c, own, now, script).end.None? && !look.cancelled
    ensures After(c, own, now, script + [look]).end == Some(Restart) <==>
              || look.plugin != Some(own)
              || (&& look.kubelet.Some? && FirstKubelet(script).Some?
                  && (Vanished(script) || look.kubelet != FirstKubelet(script)))
  {
    RunningRemembersFirst(c, own, now, script);
    assert (script + [look])[..|script|] == script;
  }

  // ---------------------------------------------------------------------------------------------
  // How often it tries
  // ---------------------------------------------------------------------------------------------

  /** Refusals since the last registration. */
  function Failures(t: seq<Event>): nat {
    if t == [] then 0
    else if t[|t| - 1].Registered? then 0
    else Failures(t[..|t| - 1]) + if t[|t| - 1].Refused? then 1 else 0
  }

  /** The instant of the first of those refusals' attempts, and the instant the last of them was over. */
  function StreakFrom(t: seq<Event>): int {
    if t == [] then 0
    else if t[|t| - 1].Refused? && Failures(t[..|t| - 1]) == 0 then t[|t| - 1].at
    else StreakFrom(t[..|t| - 1])
  }

  function LastRefusal(t: seq<Event>): int {
    if t == [] then 0
    else if t[|t| - 1].Refused? then t[|t| - 1].after
    else LastRefusal(t[..|t| - 1])
  }

  /** The next attempt is due after the delay for the streak so far, hence after all its delays together. */
  predicate Due(c: Settings, t: seq<Event>, at: int) {
    var k := Failures(t);
    k > 0 ==> at >= LastRefusal(t) + Backoff(c, k) && at >= StreakFrom(t) + BackoffSum(c, k)
  }

  ghost predicate Paced(c: Settings, t: seq<Event>) {
    forall j | 0 <= j < |t| && Attempt(t[j]) :: Due(c, t[..j], t[j].at)
  }

  predicate Schedules(c: Settings, m: Memory, t: seq<Event>) {
    && m.delay == Backoff(c, Failures(t) + 1)
    && (m.registered ==> Failures(t) == 0)
    && Due(c, t, m.nextAttempt)
  }

  lemma QuietSchedules(c: Settings, t: seq<Event>, e: Event)
    requires !Attempt(e)
    ensures Failures(t + [e]) == Failures(t)
    ensures StreakFrom(t + [e]) == StreakFrom(t) && LastRefusal(t + [e]) == LastRefusal(t)
    ensures Paced(c, t) ==> Paced(c, t + [e])
  {
    assert (t + [e])[..|t|] == t;
    assert forall j | 0 <= j < |t| :: (t + [e])[..j] == t[..j];
  }

  lemma AttemptSchedules(c: Settings, m: Memory, t: seq<Event>, e: Event, n: Memory)
    requires Schedules(c, m, t) && Paced(c, t) && Attempt(e) && e.at >= m.nextAttempt
    requires e.Registered? ==> n.registered && n.delay == Initial(c)
    requires e.Refused? ==>
               && e.after >= e.at && n.nextAttempt == e.after + m.delay && n.delay == Longer(c, m.delay)
               && !n.registered
    ensures Schedules(c, n, t + [e]) && Paced(c, t + [e])
  {
    var u := t + [e];
    assert u[..|t|] == t;
    assert forall j | 0 <= j < |t| :: u[..j] == t[..j];
  }

  predicate ClockForward(script: seq<Look>) {
    forall i | 0 <= i < |script| :: script[i].after >= script[i].now
  }

  lemma SawSchedules(c: Settings, p: Progress, k: Identity)
    requires Schedules(c, p.memory, p.trace) && Paced(c, p.trace)
    ensures Schedules(c, p.memory.(last := Some(k), missing := false), p.trace + [Saw(k)])
    ensures Paced(c, p.trace + [Saw(k)])
  {
    QuietSchedules(c, p.trace, Saw(k));
  }

  lemma PresentSchedules(c: Settings, p: Progress, k: Identity, look: Look)
    requires Schedules(c, p.memory, p.trace) && Paced(c, p.trace) && look.after >= look.now
    ensures var q := Present(c, p, k, look); Schedules(c, q.memory, q.trace) && Paced(c, q.trace)
  {
    SawSchedules(c, p, k);
    var m, q := p.memory.(last := Some(k), missing := false), Present(c, p, k, look);
    if !m.registered && look.now >= m.nextAttempt {
      var e := if look.accepted then Registered(k, look.now) else Refused(k, look.now, look.after);
      AttemptSchedules(c, m, p.trace + [Saw(k)], e, q.memory);
    }
  }

  lemma AbsentSchedules(c: Settings, p: Progress)
    requires Schedules(c, p.memory, p.trace) && Paced(c, p.trace)
    ensures Schedules(c, Absent(p).memory, Absent(p).trace) && Paced(c, Absent(p).trace)
  {
    QuietSchedules(c, p.trace, Missed);
  }

  lemma SignalSchedules(c: Settings, p: Progress, signal: Signal)
    requires Schedules(c, p.memory, p.trace) && Paced(c, p.trace)
    ensures var q := Signalled(p, signal); Schedules(c, q.memory, q.trace) && Paced(c, q.trace)
  {
    if signal.StreamClosed? {
      QuietSchedules(c, p.trace, StreamEnded(signal.at));
    }
  }

  lemma TurnSchedules(c: Settings, own: Identity, p: Progress, look: Look)
    requires Schedules(c, p.memory, p.trace) && Paced(c, p.trace) && look.after >= look.now
    ensures var q := Turn(c, own, p, look); Schedules(c, q.memory, q.trace) && Paced(c, q.trace)
  {
    if look.kubelet.None? {
      AbsentSchedules(c, p);
      SignalSchedules(c, Absent(p), look.signal);
    } else {
      PresentSchedules(c, p, look.kubelet.value, look);
      SignalSchedules(c, Present(c, p, look.kubelet.value, look), look.signal);
    }
  }

  lemma {:induction false} RunSchedules(c: Settings, own: Identity, now: int, script: seq<Look>)
    requires ClockForward(script)
    ensures var p := After(c, own, now, script); Schedules(c, p.memory, p.trace) && Paced(c, p.trace)
  {
    if script != [] {
      var front, look := script[..|script| - 1], script[|script| - 1];
      RunSchedules(c, own, now, front);
      TurnSchedules(c, own, After(c, own, now, front), look);
    }
  }

  /** How long a streak of k refusals takes at least. */
  lemma StreakBounds(c: Settings, k: nat)
    requires k > 0
    ensures Backoff(c, k) >= Min(Doubled(c, k), Maximum(c))
    ensures BackoffSum(c, k) >= k * Initial(c)
  {
    BackoffDoubles(c, k);
    StreakAtLeast(c, k);
  }

  /** In every run the delay stays positive and at most the maximum, an attempt after k refusals in a row comes at least
      the k-th delay after the last of them, and at least all k delays after the streak's first attempt; so a streak of
      k refusals followed by another attempt lasts k initial delays or more. */
  lemma RetriesArePaced(c: Settings, own: Identity, now: int, script: seq<Look>, j: nat)
    requires ClockForward(script) && j < |After(c, own, now, script).trace|
    requires Attempt(After(c, own, now, script).trace[j])
    ensures var p := After(c, own, now, script);
            var k, before, at := Failures(p.trace[..j]), p.trace[..j], p.trace[j].at;
            && 0 < p.memory.delay <= Maximum(c)
            && (k > 0 ==>
                  && at - LastRefusal(before) >= Backoff(c, k) >= Min(Doubled(c, k), Maximum(c))
                  && at - StreakFrom(before) >= BackoffSum(c, k) >= k * Initial(c))
  {
    RunSchedules(c, own, now, script);
    var p := After(c, own, now, script);
    assert Due(c, p.trace[..j], p.trace[j].at);
    BackoffGrows(c, Failures(p.trace));
    if Failures(p.trace[..j]) > 0 {
      StreakBounds(c, Failures(p.trace[..j]));
    }
  }

  // ---------------------------------------------------------------------------------------------
  // When it tries, and with what outcome
  // ---------------------------------------------------------------------------------------------

  /** An accepted registration stands: neither an absence nor the end of the stream came after it. */
  function Stands(t: seq<Event>): bool {
    if t == [] then false
    else match t[|t| - 1]
         case Registered(_, _) => true
         case Missed => false
         case StreamEnded(_) => false
         case _ => Stands(t[..|t| - 1])
  }

  /** When the next attempt is due: at the start, the delay after a refusal, or at once when the end of the stream ends a
      standing registration. */
  function DueInstant(c: Settings, now: int, t: seq<Event>): int {
    if t == [] then now
    else
      var front := t[..|t| - 1];
      match t[|t| - 1]
      case Refused(_, _, after) => after + Backoff(c, Failures(t))
      case StreamEnded(at) => if Stands(front) then at else DueInstant(c, now, front)
      case _ => DueInstant(c, now, front)
  }

  /** What the memory adds to the trace: nothing. */
  ghost predicate Reflects(c: Settings, now: int, m: Memory, t: seq<Event>) {
    && (m.registered <==> Stands(t))
    && m.nextAttempt == DueInstant(c, now, t)
    && m.delay == Backoff(c, Failures(t) + 1)
  }

  lemma SawReflects(c: Settings, now: int, m: Memory, t: seq<Event>, k: Identity)
    requires Reflects(c, now, m, t)
    ensures Reflects(c, now, m.(last := Some(k), missing := false), t + [Saw(k)])
  {
    assert (t + [Saw(k)])[..|t|] == t;
  }

  lemma AttemptReflects(c: Settings, now: int, m: Memory, t: seq<Event>, e: Event, n: Memory)
    requires Reflects(c, now, m, t) && !m.registered
    requires || (e.Registered? && n == m.(registered := true, delay := Initial(c)))
             || (e.Refused? && n == m.(nextAttempt := e.after + m.delay, delay := Longer(c, m.delay)))
    ensures Reflects(c, now, n, t + [e])
  {
    assert (t + [e])[..|t|] == t;
  }

  lemma MissedReflects(c: Settings, now: int, m: Memory, t: seq<Event>)
    requires Reflects(c, now, m, t)
    ensures Reflects(c, now, m.(missing := m.missing || m.last.Some?, registered := false), t + [Missed])
  {
    assert (t + [Missed])[..|t|] == t;
  }

  lemma SignalReflects(c: Settings, now: int, p: Progress, signal: Signal)
    requires Reflects(c, now, p.memory, p.trace)
    ensures Reflects(c, now, Signalled(p, signal).memory, Signalled(p, signal).trace)
  {
    if signal.StreamClosed? {
      assert (p.trace + [StreamEnded(signal.at)])[..|p.trace|] == p.trace;
    }
  }

  lemma PresentReflects(c: Settings, now: int, p: Progress, k: Identity, look: Look)
    requires Reflects(c, now, p.memory, p.trace)
    ensures Reflects(c, now, Present(c, p, k, look).memory, Present(c, p, k, look).trace)
  {
    SawReflects(c, now, p.memory, p.trace, k);
    var m, q := p.memory.(last := Some(k), missing := false), Present(c, p, k, look);
    if !m.registered && look.now >= m.nextAttempt {
      AttemptReflects(c, now, m, p.trace + [Saw(k)], q.trace[|p.trace| + 1], q.memory);
    }
  }

  lemma {:induction false} RunReflects(c: Settings, own: Identity, now: int, script: seq<Look>)
    ensures Reflects(c, now, After(c, own, now, script).memory, After(c, own, now, script).trace)
  {
    if script != [] {
      var p, look := After(c, own, now, script[..|script| - 1]), script[|script| - 1];
      RunReflects(c, own, now, script[..|script| - 1]);
      if p.end.None? && !look.cancelled && !Changed(own, p.memory, look) {
        if look.kubelet.None? {
          MissedReflects(c, now, p.memory, p.trace);
          SignalReflects(c, now, Absent(p), look.signal);
        } else {
          PresentReflects(c, now, p, look.kubelet.value, look);
          SignalReflects(c, now, Present(c, p, look.kubelet.value, look), look.signal);
        }
      }
    }
  }

  /** The attempt a look at a kubelet leads to: none while a registration stands or before the due instant; else one, and
      what the kubelet answers is what it is recorded as. */
  function AttemptOf(c: Settings, now: int, t: seq<Event>, kubelet: Identity, look: Look): seq<Event> {
    if Stands(t) || look.now < DueInstant(c, now, t) then []
    else if look.accepted then [Registered(kubelet, look.now)]
    else [Refused(kubelet, look.now, look.after)]
  }

  /** What a look adds to the trace, from nothing but the trace. */
  function Adds(c: Settings, now: int, t: seq<Event>, look: Look): seq<Event> {
    (match look.kubelet
     case None => [Missed]
     case Some(kubelet) => [Saw(kubelet)] + AttemptOf(c, now, t, kubelet, look))
    + if look.signal.StreamClosed? then [StreamEnded(look.signal.at)] else []
  }

  lemma TurnAdds(c: Settings, own: Identity, now: int, p: Progress, look: Look)
    requires p.end.None? && !look.cancelled && !Changed(own, p.memory, look) && Reflects(c, now, p.memory, p.trace)
    ensures Turn(c, own, p, look).trace == p.trace + Adds(c, now, p.trace, look)
  {
  }

  /** The sockets in a look make the loop restart. */
  predicate MustRestart(own: Identity, script: seq<Look>, look: Look) {
    || look.plugin != Some(own)
    || (&& look.kubelet.Some? && FirstKubelet(script).Some?
        && (look.kubelet != FirstKubelet(script)
            || exists i, j :: 0 <= i < j < |script| && script[i].kubelet.Some? && script[j].kubelet.None?))
  }

  /** The loop in full: how it ends and what it does in a turn, from nothing but what it was shown and did before. A running
      loop that is not cancelled and need not restart makes an attempt exactly when a kubelet is there, no accepted
      registration stands and the attempt is due; the attempt is a registration exactly when the kubelet accepts. */
  lemma TurnsExactly(c: Settings, own: Identity, now: int, script: seq<Look>, look: Look)
    requires After(c, own, now, script).end.None?
    ensures var t, next := After(c, own, now, script).trace, After(c, own, now, script + [look]);
            if look.cancelled then next.end == Some(Stopped) && next.trace == t
            else if MustRestart(own, script, look) then next.end == Some(Restart) && next.trace == t
            else
              && next.trace == t + Adds(c, now, t, look)
              && next.end == (match look.signal
                              case Cancelled => Some(Stopped)
                              case ServerStopped => Some(ServerFailed)
                              case StreamClosed(_) => None
                              case Tick => None)
  {
    RunningRemembersFirst(c, own, now, script);
    RunReflects(c, own, now, script);
    assert (script + [look])[..|script|] == script;
    var p := After(c, own, now, script);
    if !look.cancelled && !Changed(own, p.memory, look) {
      TurnAdds(c, own, now, p, look);
    }
  }
}
