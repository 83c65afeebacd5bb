/** The browser's event-stream connection: one EventSource, a reconnect timer with doubling
    delay, and the calls and callbacks that drive them. A callback runs to its end before
    the next event. */
module ReconnectClient {
  import opened Wrappers
  import opened Arithmetic

  const INITIAL_BACKOFF: nat := 1000
  const MAX_BACKOFF: nat := 60000

  datatype State = Disconnected | Connecting | Connected | Reconnecting

  /** What the connection object and the browser hold together. An EventSource is known by
      the token in its URL; `pending` maps the handle of every timer that has not fired to
      its delay in milliseconds. */
  datatype Client = Client(state: State, source: Option<string>, token: string, backoff: nat, timer: Option<nat>,
                           closed: bool, stored: string, pending: map<nat, nat>, nextHandle: nat)

  datatype Event =
    | Connect
    | Opened
    | Errored
    | TimerFires(handle: nat)
    | Disconnect
    | UpdateToken(token: string)
    | TokenStored(token: string)

  function Min(a: nat, b: nat): nat { if a < b then a else b }

  predicate Online(state: State) { state == Connected || state == Connecting }

  function New(token: string, stored: string): Client {
    Client(Disconnected, None, token, INITIAL_BACKOFF, None, false, stored, map[], 1)
  }

  function Opening(c: Client): Client {
    if Online(c.state) then c
    else
      var token := if c.stored != "" then c.stored else c.token;
      c.(token := token, closed := false, state := Connecting, source := Some(token))
  }

  function Scheduled(c: Client): Client {
    if c.closed then c
    else c.(timer := Some(c.nextHandle), pending := c.pending[c.nextHandle := c.backoff], nextHandle := c.nextHandle + 1,
            backoff := Min(c.backoff * 2, MAX_BACKOFF))
  }

  function Disconnecting(c: Client): Client {
    c.(closed := true, pending := if c.timer.Some? then c.pending - {c.timer.value} else c.pending,
       timer := None, source := None, state := Disconnected)
  }

  function After(c: Client, e: Event): Client {
    match e
    case Connect => Opening(c)
    case Opened => c.(state := Connected, backoff := INITIAL_BACKOFF)
    case Errored =>
      if c.closed then c.(source := None, state := Disconnected) else Scheduled(c.(source := None, state := Reconnecting))
    case TimerFires(handle) => Opening(c.(pending := c.pending - {handle}))
    case Disconnect => Disconnecting(c)
    case UpdateToken(token) =>
      if Online(c.state) then Opening(Disconnecting(c.(token := token))) else c.(token := token)
    case TokenStored(token) => c.(stored := token)
  }

  /** A closed EventSource calls nobody, and a timer fires at most once. */
  predicate Possible(c: Client, e: Event) {
    match e
    case Opened => c.source.Some?
    case Errored => c.source.Some?
    case TimerFires(handle) => handle in c.pending
    case _ => true
  }

  class Browser {
    var pending: map<nat, nat>
    var nextHandle: nat
    var stored: string

    constructor (stored: string)
      ensures pending == map[] && nextHandle == 1 && this.stored == stored
    {
      this.pending, this.nextHandle, this.stored := map[], 1, stored;
    }

    method SetTimeout(delay: nat) returns (handle: nat)
      modifies this
      ensures handle == old(nextHandle) && nextHandle == handle + 1 && stored == old(stored)
      ensures pending == old(pending)[handle := delay]
    {
      handle := nextHandle;
      pending := pending[handle := delay];
      nextHandle := nextHandle + 1;
    }

    method ClearTimeout(handle: nat)
      modifies this`pending
      ensures pending == old(pending) - {handle}
    {
      pending := pending - {handle};
    }
  }

  class SSEConnection {
    const browser: Browser
    var state: State
    var eventSource: Option<string>
    var token: string
    var backoff: nat
    var reconnectTimer: Option<nat>
    var intentionallyClosed: bool

    ghost function View(): Client
      reads this, browser
    {
      Client(state, eventSource, token, backoff, reconnectTimer, intentionallyClosed,
             browser.stored, browser.pending, browser.nextHandle)
    }

    constructor (browser: Browser, token: string)
      requires browser.pending == map[] && browser.nextHandle == 1
      ensures this.browser == browser && View() == New(if token != "" then token else browser.stored, browser.stored)
    {
      this.browser := browser;
      this.state, this.eventSource, this.backoff := Disconnected, None, INITIAL_BACKOFF;
      this.token := if token != "" then token else browser.stored;
      this.reconnectTimer, this.intentionallyClosed := None, false;
    }

    method Connect()
      modifies this
      ensures View() == After(old(View()), Event.Connect)
    {
      if state == Connected || state == Connecting {
        return;
      }
      if browser.stored != "" {
        token := browser.stored;
      }
      intentionallyClosed := false;
      state := Connecting;
      eventSource := Some(token);
    }

    method OnOpen()
      modifies this
      ensures View() == After(old(View()), Opened)
    {
      state := Connected;
      backoff := INITIAL_BACKOFF;
    }

    method OnError()
      modifies this, browser
      ensures View() == After(old(View()), Errored)
    {
      eventSource := None;
      if intentionallyClosed {
        state := Disconnected;
        return;
      }
      state := Reconnecting;
      ScheduleReconnect();
    }

    method ScheduleReconnect()
      modifies this, browser
      ensures View() == Scheduled(old(View()))
    {
      if intentionallyClosed {
        return;
      }
      var handle := browser.SetTimeout(backoff);
      reconnectTimer := Some(handle);
      backoff := Min(backoff * 2, MAX_BACKOFF);
    }

    /** The timer leaves the browser; the stored handle stays. */
    method OnTimer(handle: nat)
      modifies this, browser`pending
      ensures View() == After(old(View()), TimerFires(handle))
    {
      browser.pending := browser.pending - {handle};
      Connect();
    }

    method Disconnect()
      modifies this, browser`pending
      ensures View() == After(old(View()), Event.Disconnect)
    {
      intentionallyClosed := true;
      if reconnectTimer.Some? {
        browser.ClearTimeout(reconnectTimer.value);
        reconnectTimer := None;
      }
      eventSource := None;
      state := Disconnected;
    }

    method UpdateToken(token: string)
      modifies this, browser`pending
      ensures View() == After(old(View()), Event.UpdateToken(token))
    {
      this.token := token;
      if state == Connected || state == Connecting {
        Disconnect();
        Connect();
      }
    }
  }

  /** The client after a whole run of events. */
  function Ran(start: Client, es: seq<Event>): Client {
    if es == [] then start else After(Ran(start, es[..|es| - 1]), es[|es| - 1])
  }

  predicate IsRun(start: Client, es: seq<Event>) {
    es == [] || (IsRun(start, es[..|es| - 1]) && Possible(Ran(start, es[..|es| - 1]), es[|es| - 1]))
  }

  predicate Fresh(c: Client) {
    c == New(c.token, c.stored)
  }

  /** An EventSource is held exactly while connecting or connected. */
  predicate SourceRight(c: Client) {
    && (c.source.Some? <==> Online(c.state))
    && (c.source.Some? ==> !c.closed)
  }

  /** One timer is pending while reconnecting, the one `disconnect` can cancel; none otherwise. */
  predicate TimerRight(c: Client) {
    if c.state == Reconnecting then c.timer.Some? && c.pending.Keys == {c.timer.value} else c.pending == map[]
  }

  /** No call of `connect` by hand finds a timer pending. */
  predicate Clean(start: Client, es: seq<Event>) {
    es == [] || (Clean(start, es[..|es| - 1]) && (es[|es| - 1].Connect? ==> Ran(start, es[..|es| - 1]).pending == map[]))
  }

  lemma SourceStep(c: Client, e: Event)
    requires SourceRight(c) && Possible(c, e)
    ensures SourceRight(After(c, e))
  {
  }

  lemma {:induction false} SourceAlong(start: Client, es: seq<Event>)
    requires Fresh(start) && IsRun(start, es)
    ensures SourceRight(Ran(start, es))
  {
    if es != [] {
      SourceAlong(start, es[..|es| - 1]);
      SourceStep(Ran(start, es[..|es| - 1]), es[|es| - 1]);
    }
  }

  lemma TimerStep(c: Client, e: Event)
    requires SourceRight(c) && TimerRight(c) && Possible(c, e)
    ensures TimerRight(After(c, e)) <==> (e.Connect? ==> c.pending == map[])
  {
    match e {
      case Errored =>
        assert After(c, e).pending.Keys == {c.nextHandle};
      case TimerFires(handle) =>
        assert (c.pending - {handle}).Keys == {};
      case _ =>
    }
  }

  predicate AlwaysRight(start: Client, es: seq<Event>) {
    TimerRight(Ran(start, es)) && (es == [] || AlwaysRight(start, es[..|es| - 1]))
  }

  lemma {:induction false} AlwaysRightAt(start: Client, es: seq<Event>, n: nat)
    requires AlwaysRight(start, es) && n <= |es|
    ensures TimerRight(Ran(start, es[..n]))
  {
    if n < |es| {
      AlwaysRightAt(start, es[..|es| - 1], n);
      assert es[..|es| - 1][..n] == es[..n];
    } else {
      assert es[..n] == es;
    }
  }

  lemma {:induction false} RightEverywhere(start: Client, es: seq<Event>)
    requires forall n :: 0 <= n <= |es| ==> TimerRight(Ran(start, es[..n]))
    ensures AlwaysRight(start, es)
  {
    assert es[..|es|] == es;
    if es != [] {
      var init := es[..|es| - 1];
      forall n | 0 <= n <= |init| ensures TimerRight(Ran(start, init[..n])) {
        assert init[..n] == es[..n];
      }
      RightEverywhere(start, init);
    }
  }

  lemma {:induction false} AlwaysRightIffClean(start: Client, es: seq<Event>)
    requires Fresh(start) && IsRun(start, es)
    ensures AlwaysRight(start, es) <==> Clean(start, es)
  {
    if es != [] {
      var init := es[..|es| - 1];
      AlwaysRightIffClean(start, init);
      SourceAlong(start, init);
      if TimerRight(Ran(start, init)) {
        TimerStep(Ran(start, init), es[|es| - 1]);
      }
    }
  }

  /** The timer stays right through a whole run exactly when nobody connects by hand while
      one is pending. */
  lemma TimerRightIffClean(start: Client, es: seq<Event>)
    requires Fresh(start) && IsRun(start, es)
    ensures (forall n :: 0 <= n <= |es| ==> TimerRight(Ran(start, es[..n]))) <==> Clean(start, es)
  {
    AlwaysRightIffClean(start, es);
    if Clean(start, es) {
      forall n | 0 <= n <= |es| ensures TimerRight(Ran(start, es[..n])) {
        AlwaysRightAt(start, es, n);
      }
    } else if forall n :: 0 <= n <= |es| ==> TimerRight(Ran(start, es[..n])) {
      RightEverywhere(start, es);
    }
  }

  lemma TimerAlong(start: Client, es: seq<Event>)
    requires Fresh(start) && IsRun(start, es) && Clean(start, es)
    ensures TimerRight(Ran(start, es))
  {
    AlwaysRightIffClean(start, es);
  }

  /** Failures since the last open. */
  function Failures(es: seq<Event>): nat {
    if es == [] || es[|es| - 1].Opened? then 0
    else Failures(es[..|es| - 1]) + if es[|es| - 1].Errored? then 1 else 0
  }

  /** min(1000 * 2^k, 60000) ms. */
  function Delay(k: nat): nat {
    Min(INITIAL_BACKOFF * Pow2(k), MAX_BACKOFF)
  }

  lemma BackoffStep(c: Client, e: Event, k: nat)
    requires SourceRight(c) && Possible(c, e) && c.backoff == Delay(k)
    ensures After(c, e).backoff == Delay(if e.Opened? then 0 else if e.Errored? then k + 1 else k)
  {
    assert Pow2(k + 1) == 2 * Pow2(k) && Pow2(0) == 1;
  }

  lemma {:induction false} BackoffFollowsFailures(start: Client, es: seq<Event>)
    requires Fresh(start) && IsRun(start, es)
    ensures Ran(start, es).backoff == Delay(Failures(es))
  {
    if es != [] {
      SourceAlong(start, es[..|es| - 1]);
      BackoffFollowsFailures(start, es[..|es| - 1]);
      BackoffStep(Ran(start, es[..|es| - 1]), es[|es| - 1], Failures(es[..|es| - 1]));
    } else {
      assert Pow2(0) == 1;
    }
  }

  /** The k-th failure in a row waits min(1000 * 2^(k-1), 60000) ms, whoever else connects;
      a disconnect does not reset the count. */
  lemma KthFailureWaits(start: Client, es: seq<Event>)
    requires Fresh(start) && IsRun(start, es) && es != [] && es[|es| - 1].Errored?
    ensures var c := Ran(start, es);
      && c.state == Reconnecting && c.timer.Some? && c.timer.value in c.pending
      && c.pending[c.timer.value] == Min(1000 * Pow2(Failures(es) - 1), 60000)
  {
    SourceAlong(start, es[..|es| - 1]);
    BackoffFollowsFailures(start, es[..|es| - 1]);
  }

  predicate Quiet(c: Client) {
    c.state == Disconnected && c.source == None && c.pending == map[]
  }

  lemma QuietStep(c: Client, e: Event)
    requires Quiet(c) && Possible(c, e) && e != Connect
    ensures Quiet(After(c, e))
  {
  }

  lemma {:induction false} QuietStays(start: Client, es: seq<Event>)
    requires Quiet(start) && IsRun(start, es) && Connect !in es
    ensures Quiet(Ran(start, es))
  {
    if es != [] {
      QuietStays(start, es[..|es| - 1]);
      QuietStep(Ran(start, es[..|es| - 1]), es[|es| - 1]);
    }
  }

  /** After a disconnect nothing opens by itself exactly when every timer that was pending
      is the one whose handle is stored. */
  lemma DisconnectIsFinalIff(c: Client)
    ensures (forall es :: IsRun(After(c, Disconnect), es) && Connect !in es ==> Ran(After(c, Disconnect), es).source == None)
      <==> forall handle :: handle in c.pending ==> c.timer == Some(handle)
  {
    var after := After(c, Disconnect);
    if handle :| handle in c.pending && c.timer != Some(handle) {
      var es := [TimerFires(handle)];
      assert [] + [TimerFires(handle)] == es;
      RunExtends(after, [], TimerFires(handle));
      assert IsRun(after, es) && Connect !in es && Ran(after, es).source.Some?;
    } else {
      assert Quiet(after) by {
        assert after.pending.Keys == {};
      }
      forall es | IsRun(after, es) && Connect !in es ensures Ran(after, es).source == None {
        QuietStays(after, es);
      }
    }
  }

  /** On a clean run that condition holds, so a disconnect is final. */
  lemma CleanDisconnectIsFinal(start: Client, es: seq<Event>, more: seq<Event>)
    requires Fresh(start) && IsRun(start, es) && Clean(start, es)
    requires IsRun(After(Ran(start, es), Disconnect), more) && Connect !in more
    ensures Quiet(Ran(After(Ran(start, es), Disconnect), more))
  {
    SourceAlong(start, es);
    TimerAlong(start, es);
    assert After(Ran(start, es), Disconnect).pending.Keys == {};
    QuietStays(After(Ran(start, es), Disconnect), more);
  }

  lemma RunExtends(start: Client, es: seq<Event>, e: Event)
    ensures Ran(start, es + [e]) == After(Ran(start, es), e)
    ensures IsRun(start, es + [e]) <==> IsRun(start, es) && Possible(Ran(start, es), e)
    ensures Clean(start, es + [e]) <==> Clean(start, es) && (e.Connect? ==> Ran(start, es).pending == map[])
  {
    assert (es + [e])[..|es|] == es;
  }

  /** Connecting by hand between two failures leaves a timer behind that no disconnect
      cancels, and it reopens the stream. */
  lemma StrayTimerReopens(token: string)
    ensures var es := [Connect] + [Errored] + [Connect] + [Errored] + [Disconnect];
      && IsRun(New(token, ""), es + [TimerFires(1)]) && !Clean(New(token, ""), es)
      && Ran(New(token, ""), es).state == Disconnected
      && Ran(New(token, ""), es + [TimerFires(1)]).source == Some(token)
  {
    var start := New(token, "");
    var es1: seq<Event> := [Connect];
    var es2 := es1 + [Errored];
    var es3 := es2 + [Connect];
    var es4 := es3 + [Errored];
    var es5 := es4 + [Disconnect];
    assert [] + [Connect] == es1;
    RunExtends(start, [], Connect);
    RunExtends(start, es1, Errored);
    assert 1 in Ran(start, es2).pending;
    RunExtends(start, es2, Connect);
    RunExtends(start, es3, Errored);
    RunExtends(start, es4, Disconnect);
    RunExtends(start, es5, TimerFires(1));
  }

  /** In every run, where each event takes the state. */
  lemma StatesFollowTheEvents(start: Client, es: seq<Event>, e: Event)
    requires Fresh(start) && IsRun(start, es + [e])
    ensures var c, c' := Ran(start, es), Ran(start, es + [e]);
      var online := c.state == Connected || c.state == Connecting;
      c'.state == match e
                  case Opened => Connected
                  case Errored => Reconnecting
                  case Disconnect => Disconnected
                  case Connect => if online then c.state else Connecting
                  case TimerFires(_) => if online then c.state else Connecting
                  case UpdateToken(_) => if online then Connecting else c.state
                  case TokenStored(_) => c.state
  {
    RunExtends(start, es, e);
    SourceAlong(start, es);
  }

  /** The event opens an EventSource that was not there before it. */
  predicate Opens(c: Client, c': Client, e: Event) {
    c'.source.Some? && (c.source.None? || e.UpdateToken?)
  }

  /** In every run, whatever opens a stream opens it with the token that is stored at that
      moment, and only failing that with the one at hand; until it is dropped the stream keeps
      its token, and a token given in between waits for the next opening. */
  lemma StreamsCarryTheLatestToken(start: Client, es: seq<Event>, e: Event)
    requires Fresh(start) && IsRun(start, es + [e])
    ensures var c, c' := Ran(start, es), Ran(start, es + [e]);
      var given := if e.UpdateToken? then e.token else c.token;
      && c'.stored == (if e.TokenStored? then e.token else c.stored)
      && (Opens(c, c', e) ==> c'.source == Some(if c.stored != "" then c.stored else given) && c'.source == Some(c'.token))
      && (!Opens(c, c', e) ==> c'.source in {None, c.source} && c'.token == given)
  {
    RunExtends(start, es, e);
    SourceAlong(start, es);
  }
}
