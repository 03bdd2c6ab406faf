/**
 * The LoRa-to-UDP relay (gateway.py): `NanoGateWay` keeps a `connected` flag
 * and a nullable UDP socket. `run` passes a received LoRa packet to `send`,
 * which calls `sendto` only when the gateway is connected, and reconnects
 * (Wi-Fi, then a fresh socket) whenever it is not connected. As written,
 * nothing ever sets `connected`, so no packet reaches `sendto`
 * (`NeverTransmits`) and every `run` opens one more socket.
 *
 * The radio, Wi-Fi and socket calls are replaced by inputs (the packet
 * `lora.recv()` returns, whether `sendto` succeeds, how many times
 * `isconnected()` answers False, whether `bind` succeeds) and by a trace of
 * the calls made. Socket handles are numbered in creation order.
 */
module Gateway {
  import opened Wrappers

  const UdpRecvPort: int := 50140
  const UdpSendPort: int := 50141
  const UdpIp: string := "192.168.8.7"

  type Bytes = seq<bv8>
  type Handle = nat

  /** A call the gateway makes into the Wi-Fi driver or the socket layer. */
  datatype Event =
    | WlanConnect
    | WlanPoll(ready: bool)
    | SocketOpen(h: Handle)
    | Bind(h: Handle, port: int, ok: bool)
    | SendTo(h: Handle, msg: Bytes, ip: string, port: int)
    | Close(h: Handle)

  /** The gateway's state: its two fields, the next socket handle and the calls made so far. */
  datatype Gw = Gw(connected: bool, sock: Option<Handle>, nextHandle: Handle, trace: seq<Event>)

  /**
   * What the outside world answers during one `run`. `bindOk` is false when
   * the socket layer refuses the `bind` (for instance with EADDRINUSE while an
   * earlier socket still holds the port).
   */
  datatype Env = Env(packet: Bytes, sendOk: bool, failedPolls: nat, bindOk: bool)

  // ---------------------------------------------------------------------------
  // The operations on values

  function FalsePolls(n: nat): (es: seq<Event>)
    ensures |es| == n && forall i :: 0 <= i < n ==> es[i] == WlanPoll(false)
  {
    if n == 0 then [] else FalsePolls(n - 1) + [WlanPoll(false)]
  }

  /** `connect_to_wlan` when `isconnected()` answers False `failedPolls` times: it returns only once the link is up. */
  function WlanEvents(failedPolls: nat): (es: seq<Event>)
    ensures |es| == failedPolls + 2 && es[0] == WlanConnect && es[|es| - 1] == WlanPoll(true)
    ensures forall i :: 1 <= i < |es| - 1 ==> es[i] == WlanPoll(false)
    ensures forall i :: 0 <= i < |es| ==> !es[i].SocketOpen? && !es[i].Close? && !es[i].SendTo?
  {
    [WlanConnect] + FalsePolls(failedPolls) + [WlanPoll(true)]
  }

  /** `connect_to_wlan` touches none of the gateway's fields; it only makes the Wi-Fi calls. */
  function AfterConnectToWlan(g: Gw, failedPolls: nat): (r: Gw)
    ensures r.connected == g.connected && r.sock == g.sock && r.nextHandle == g.nextHandle
    ensures |r.trace| == |g.trace| + failedPolls + 2 && r.trace[..|g.trace|] == g.trace
    ensures r.trace[|r.trace| - 1] == WlanPoll(true)
    ensures forall i :: |g.trace| <= i < |r.trace| ==> r.trace[i].WlanConnect? || r.trace[i].WlanPoll?
  {
    g.(trace := g.trace + WlanEvents(failedPolls))
  }

  /**
   * `connect_to_rpi`: a fresh UDP socket replaces `sock` before it is bound to
   * the receive port; the old one is not closed. When `bind` raises (`bindOk`
   * false) the new socket is already in `sock`.
   */
  function AfterConnectToRpi(g: Gw, bindOk: bool): (r: Gw)
    ensures r.sock == Some(g.nextHandle) && r.nextHandle == g.nextHandle + 1 && r.connected == g.connected
    ensures r.trace == g.trace + [SocketOpen(g.nextHandle), Bind(g.nextHandle, UdpRecvPort, bindOk)]
  {
    var h := g.nextHandle;
    Gw(g.connected, Some(h), h + 1, g.trace + [SocketOpen(h), Bind(h, UdpRecvPort, bindOk)])
  }

  /** `send(msg)`, where `sendOk` says whether `sendto` returns rather than raises. */
  function AfterSend(g: Gw, msg: Bytes, sendOk: bool): (r: Gw)
    ensures !(g.connected && g.sock.Some?) ==> r == g
    ensures g.connected && g.sock.Some? && sendOk ==>
      r == g.(trace := g.trace + [SendTo(g.sock.value, msg, UdpIp, UdpSendPort)])
    ensures g.connected && g.sock.Some? && !sendOk ==>
      !r.connected && r.sock == None && r.nextHandle == g.nextHandle &&
      r.trace == g.trace + [SendTo(g.sock.value, msg, UdpIp, UdpSendPort), Close(g.sock.value)]
  {
    if g.connected && g.sock.Some? then
      var g' := g.(trace := g.trace + [SendTo(g.sock.value, msg, UdpIp, UdpSendPort)]);
      if sendOk then g' else Gw(false, None, g.nextHandle, g'.trace + [Close(g.sock.value)])
    else g
  }

  /** `run` up to its reconnect test: a non-empty packet is passed to `send`. */
  function Received(g: Gw, env: Env): Gw
  {
    if |env.packet| > 0 then AfterSend(g, env.packet, env.sendOk) else g
  }

  /**
   * `run`: forward a non-empty packet first, then reconnect if not connected.
   * No path sets `connected`, and a run that ends disconnected holds the
   * socket it has just opened.
   */
  function AfterRun(g: Gw, env: Env): (r: Gw)
    ensures r.connected ==> g.connected
    ensures !r.connected ==> r.sock == Some(g.nextHandle) && r.nextHandle == g.nextHandle + 1
    ensures r.connected ==> r.nextHandle == g.nextHandle
    ensures |g.trace| <= |r.trace| && r.trace[..|g.trace|] == g.trace
  {
    var g' := Received(g, env);
    if !g'.connected then AfterConnectToRpi(AfterConnectToWlan(g', env.failedPolls), env.bindOk) else g'
  }

  /** `run` raises (the `OSError` of a refused `bind`) exactly when it reconnects and the bind fails. */
  predicate RunRaises(g: Gw, env: Env)
  {
    !Received(g, env).connected && !env.bindOk
  }

  /** The state `__init__` leaves: it connects to Wi-Fi, then sets `sock = None` and `connected = False`. */
  function Init(failedPolls: nat): (g: Gw)
    ensures g.sock == None && !g.connected && g.nextHandle == 0
  {
    Gw(false, None, 0, WlanEvents(failedPolls))
  }

  /**
   * `main`'s loop, one `run` per element of `envs`. Nothing catches an
   * exception from `run`, so the loop (and the program) ends after the first
   * run that raises.
   */
  function RunAll(g: Gw, envs: seq<Env>): (r: Gw)
    ensures r.connected ==> g.connected
    ensures |g.trace| <= |r.trace| && r.trace[..|g.trace|] == g.trace
    decreases |envs|
  {
    if envs == [] then g
    else
      var g1 := AfterRun(g, envs[0]);
      if RunRaises(g, envs[0]) then g1
      else
        var r := RunAll(g1, envs[1..]);
        assert r.trace[..|g.trace|] == r.trace[..|g1.trace|][..|g.trace|];
        r
  }

  /**
   * How many runs `main` makes over `envs` when every run reconnects: all up
   * to and including the first whose `bind` fails.
   */
  function RunsMade(envs: seq<Env>): (n: nat)
    ensures n <= |envs|
    ensures forall i :: 0 <= i < n - 1 ==> envs[i].bindOk
    ensures n < |envs| ==> 0 < n && !envs[n - 1].bindOk
    decreases |envs|
  {
    if envs == [] then 0
    else if !envs[0].bindOk then 1
    else 1 + RunsMade(envs[1..])
  }

  // ---------------------------------------------------------------------------
  // Open sockets

  function LiveStep(live: set<Handle>, e: Event): set<Handle>
  {
    match e
    case SocketOpen(h) => live + {h}
    case Close(h) => live - {h}
    case _ => live
  }

  /** The socket handles opened and not yet closed in `trace`. */
  function LiveHandles(trace: seq<Event>): set<Handle>
    decreases |trace|
  {
    if trace == [] then {} else LiveStep(LiveHandles(trace[..|trace| - 1]), trace[|trace| - 1])
  }

  lemma LiveSnoc(t: seq<Event>, e: Event)
    ensures LiveHandles(t + [e]) == LiveStep(LiveHandles(t), e)
  {
    assert (t + [e])[..|t|] == t;
  }

  /** Calls that neither open nor close a socket leave the open sockets as they are. */
  lemma {:induction false} LiveInert(t: seq<Event>, es: seq<Event>)
    requires forall i :: 0 <= i < |es| ==> !es[i].SocketOpen? && !es[i].Close?
    ensures LiveHandles(t + es) == LiveHandles(t)
    decreases |es|
  {
    if es != [] {
      var init, last := es[..|es| - 1], es[|es| - 1];
      assert forall i :: 0 <= i < |init| ==> init[i] == es[i];
      LiveInert(t, init);
      assert t + es == (t + init) + [last];
      LiveSnoc(t + init, last);
      assert LiveStep(LiveHandles(t + init), last) == LiveHandles(t + init);
    } else {
      assert t + es == t;
    }
  }

  /** Every open handle, and the one in `sock`, is numbered below `nextHandle`. */
  ghost predicate HandlesBelow(g: Gw)
  {
    (forall h :: h in LiveHandles(g.trace) ==> h < g.nextHandle) && (g.sock.Some? ==> g.sock.value < g.nextHandle)
  }

  // ---------------------------------------------------------------------------
  // What `run` does

  /**
   * A disconnected gateway makes exactly one Wi-Fi connect (with its polls),
   * opens one socket and binds it: the packet is not sent, the old socket is
   * not closed and stays open beside the new one. The run raises exactly when
   * that bind fails.
   */
  lemma RunDisconnected(g: Gw, env: Env)
    ensures !g.connected ==>
      var r := AfterRun(g, env);
      r.trace == g.trace + WlanEvents(env.failedPolls) +
        [SocketOpen(g.nextHandle), Bind(g.nextHandle, UdpRecvPort, env.bindOk)] &&
      !r.connected && r.sock == Some(g.nextHandle) && r.nextHandle == g.nextHandle + 1 &&
      LiveHandles(r.trace) == LiveHandles(g.trace) + {g.nextHandle} &&
      (RunRaises(g, env) <==> !env.bindOk)
  {
    if !g.connected {
      var w := AfterConnectToWlan(g, env.failedPolls);
      var bind := Bind(g.nextHandle, UdpRecvPort, env.bindOk);
      LiveInert(g.trace, WlanEvents(env.failedPolls));
      assert Received(g, env) == g;
      assert AfterRun(g, env) == AfterConnectToRpi(w, env.bindOk);
      LiveSnoc(w.trace, SocketOpen(g.nextHandle));
      LiveSnoc(w.trace + [SocketOpen(g.nextHandle)], bind);
      assert w.trace + [SocketOpen(g.nextHandle)] + [bind] == w.trace + [SocketOpen(g.nextHandle), bind];
    }
  }

  /** A `sendto` that raises closes the socket, and the same `run` reconnects at once. */
  lemma RunSendFails(g: Gw, env: Env)
    requires g.connected && g.sock.Some? && |env.packet| > 0 && !env.sendOk
    ensures var r := AfterRun(g, env);
      r.trace == g.trace + [SendTo(g.sock.value, env.packet, UdpIp, UdpSendPort), Close(g.sock.value)] +
        WlanEvents(env.failedPolls) + [SocketOpen(g.nextHandle), Bind(g.nextHandle, UdpRecvPort, env.bindOk)] &&
      !r.connected && r.sock == Some(g.nextHandle) && (RunRaises(g, env) <==> !env.bindOk)
  {
  }

  /** A connected gateway only forwards: a non-empty packet goes out on its socket, an empty one changes nothing. */
  lemma RunConnected(g: Gw, env: Env)
    requires g.connected && g.sock.Some? && (|env.packet| == 0 || env.sendOk)
    ensures AfterRun(g, env) ==
      if |env.packet| > 0 then g.(trace := g.trace + [SendTo(g.sock.value, env.packet, UdpIp, UdpSendPort)]) else g
    ensures !RunRaises(g, env)
  {
  }

  /** The calls a disconnected `run` makes are neither `sendto` nor `close`. */
  lemma RunQuiet(g: Gw, env: Env)
    requires !g.connected
    ensures var r := AfterRun(g, env);
      forall i :: |g.trace| <= i < |r.trace| ==> !r.trace[i].SendTo? && !r.trace[i].Close?
  {
    RunDisconnected(g, env);
    var r := AfterRun(g, env);
    var ws := WlanEvents(env.failedPolls);
    forall i | |g.trace| <= i < |r.trace|
      ensures !r.trace[i].SendTo? && !r.trace[i].Close?
    {
      if i - |g.trace| < |ws| {
        assert r.trace[i] == ws[i - |g.trace|];
      }
    }
  }

  /**
   * From a disconnected state, `main` stays disconnected, never calls `sendto`
   * or `close`, and each run it makes leaves one more open socket. It makes
   * every run up to and including the first whose `bind` fails.
   */
  lemma {:induction false} NeverConnected(g: Gw, envs: seq<Env>)
    requires !g.connected
    ensures var r := RunAll(g, envs);
      !r.connected &&
      (forall i :: |g.trace| <= i < |r.trace| ==> !r.trace[i].SendTo? && !r.trace[i].Close?) &&
      r.nextHandle == g.nextHandle + RunsMade(envs) &&
      (forall h :: h in LiveHandles(g.trace) ==> h in LiveHandles(r.trace)) &&
      (forall h :: g.nextHandle <= h < r.nextHandle ==> h in LiveHandles(r.trace))
    decreases |envs|
  {
    if envs != [] {
      var g1 := AfterRun(g, envs[0]);
      RunDisconnected(g, envs[0]);
      RunQuiet(g, envs[0]);
      if !RunRaises(g, envs[0]) {
        NeverConnected(g1, envs[1..]);
        var r := RunAll(g1, envs[1..]);
        assert RunAll(g, envs) == r;
        forall i | |g.trace| <= i < |g1.trace|
          ensures !r.trace[i].SendTo? && !r.trace[i].Close?
        {
          assert r.trace[i] == r.trace[..|g1.trace|][i];
        }
      }
    }
  }

  /**
   * From construction, the gateway is disconnected in every reachable state,
   * no packet is ever passed to `sendto`, and after `main`'s runs (up to the
   * first refused `bind`) one socket per run is open at once.
   */
  lemma NeverTransmits(failedPolls: nat, envs: seq<Env>)
    ensures var r := RunAll(Init(failedPolls), envs);
      !r.connected &&
      (forall i :: 0 <= i < |r.trace| ==> !r.trace[i].SendTo? && !r.trace[i].Close?) &&
      (forall h :: 0 <= h < RunsMade(envs) ==> h in LiveHandles(r.trace))
  {
    var g := Init(failedPolls);
    NeverConnected(g, envs);
    var r := RunAll(g, envs);
    forall i | 0 <= i < |g.trace|
      ensures !r.trace[i].SendTo? && !r.trace[i].Close?
    {
      assert r.trace[i] == r.trace[..|g.trace|][i];
    }
  }

  /**
   * The second run binds a second socket to the receive port while the first,
   * never closed, still holds it. Whether or not the socket layer accepts that
   * bind, handles 0 and 1 are open together afterwards; when it refuses,
   * `main` ends there, whatever would have come next.
   */
  lemma LeakExample(secondBindOk: bool, rest: seq<Env>)
    ensures var first := AfterRun(Init(0), Env([], true, 0, true));
      0 in LiveHandles(first.trace) && Bind(0, UdpRecvPort, true) in first.trace &&
      AfterRun(first, Env([], true, 0, secondBindOk)).trace ==
        first.trace + WlanEvents(0) + [SocketOpen(1), Bind(1, UdpRecvPort, secondBindOk)]
    ensures var r := RunAll(Init(0), [Env([], true, 0, true), Env([], true, 0, secondBindOk)] + rest);
      LiveHandles(r.trace) >= {0, 1} && (!secondBindOk ==> r.nextHandle == 2)
  {
    var envs := [Env([], true, 0, true), Env([], true, 0, secondBindOk)] + rest;
    var first := AfterRun(Init(0), envs[0]);
    RunDisconnected(Init(0), envs[0]);
    RunDisconnected(first, envs[1]);
    assert first.trace[|first.trace| - 1] == Bind(0, UdpRecvPort, true);
    assert envs[1..] == [envs[1]] + rest;
    assert RunsMade(envs) >= 2;
    if !secondBindOk {
      assert RunsMade(envs) == 2;
    }
    NeverTransmits(0, envs);
  }

  // ---------------------------------------------------------------------------
  // The evident intent: a reconnect closes the stale socket and marks the gateway connected

  function SockSet(sock: Option<Handle>): set<Handle>
  {
    if sock.Some? then {sock.value} else {}
  }

  /**
   * `connect_to_rpi` as intended: close the previous socket, open and bind a
   * fresh one, and set `connected` once the bind has succeeded.
   */
  function IntendedAfterConnectToRpi(g: Gw, bindOk: bool): (r: Gw)
    ensures r.connected <==> g.connected || bindOk
    ensures r.sock == Some(g.nextHandle) && r.nextHandle == g.nextHandle + 1
    ensures g.sock.Some? ==> r.trace == g.trace + [Close(g.sock.value), SocketOpen(g.nextHandle), Bind(g.nextHandle, UdpRecvPort, bindOk)]
    ensures g.sock.None? ==> r.trace == g.trace + [SocketOpen(g.nextHandle), Bind(g.nextHandle, UdpRecvPort, bindOk)]
  {
    var h := g.nextHandle;
    var closing := if g.sock.Some? then [Close(g.sock.value)] else [];
    Gw(g.connected || bindOk, Some(h), h + 1, g.trace + closing + [SocketOpen(h), Bind(h, UdpRecvPort, bindOk)])
  }

  function IntendedAfterRun(g: Gw, env: Env): Gw
  {
    var g' := Received(g, env);
    if !g'.connected then IntendedAfterConnectToRpi(AfterConnectToWlan(g', env.failedPolls), env.bindOk) else g'
  }

  /** `main`'s loop over the intended `run`, which also ends at the first refused bind. */
  function IntendedRunAll(g: Gw, envs: seq<Env>): Gw
    decreases |envs|
  {
    if envs == [] then g
    else if RunRaises(g, envs[0]) then IntendedAfterRun(g, envs[0])
    else IntendedRunAll(IntendedAfterRun(g, envs[0]), envs[1..])
  }

  /**
   * With the intended reconnect, the first run connects and a later run with a
   * packet passes it to `sendto` on the open socket.
   */
  lemma IntendedTransmits(failedPolls: nat, first: Env, packet: Bytes)
    requires |packet| > 0 && first.bindOk
    ensures var g := IntendedAfterRun(Init(failedPolls), first);
      g.connected && g.sock.Some? &&
      IntendedAfterRun(g, Env(packet, true, 0, true)).trace == g.trace + [SendTo(g.sock.value, packet, UdpIp, UdpSendPort)]
  {
  }

  /** The open sockets are exactly `sock`, and every handle is below `nextHandle`. */
  ghost predicate OneLive(g: Gw)
  {
    HandlesBelow(g) && LiveHandles(g.trace) == SockSet(g.sock)
  }

  lemma SendKeepsOneLive(g: Gw, msg: Bytes, sendOk: bool)
    requires OneLive(g)
    ensures OneLive(AfterSend(g, msg, sendOk))
  {
    if g.connected && g.sock.Some? {
      var h := g.sock.value;
      var t1 := g.trace + [SendTo(h, msg, UdpIp, UdpSendPort)];
      LiveSnoc(g.trace, SendTo(h, msg, UdpIp, UdpSendPort));
      if !sendOk {
        LiveSnoc(t1, Close(h));
        assert AfterSend(g, msg, sendOk).trace == t1 + [Close(h)];
      }
    }
  }

  /** Closing the one open socket leaves none open. */
  lemma CloseStale(t: seq<Event>, sock: Option<Handle>)
    requires LiveHandles(t) == SockSet(sock)
    ensures LiveHandles(t + if sock.Some? then [Close(sock.value)] else []) == {}
  {
    if sock.Some? {
      LiveSnoc(t, Close(sock.value));
    } else {
      assert t + [] == t;
    }
  }

  /** Opening and binding a socket when none is open leaves exactly that one open. */
  lemma OpenFresh(t: seq<Event>, h: Handle, bindOk: bool)
    requires LiveHandles(t) == {}
    ensures LiveHandles(t + [SocketOpen(h), Bind(h, UdpRecvPort, bindOk)]) == {h}
  {
    LiveSnoc(t, SocketOpen(h));
    LiveSnoc(t + [SocketOpen(h)], Bind(h, UdpRecvPort, bindOk));
    assert t + [SocketOpen(h)] + [Bind(h, UdpRecvPort, bindOk)] == t + [SocketOpen(h), Bind(h, UdpRecvPort, bindOk)];
  }

  lemma ReconnectKeepsOneLive(g: Gw, failedPolls: nat, bindOk: bool)
    requires OneLive(g)
    ensures OneLive(IntendedAfterConnectToRpi(AfterConnectToWlan(g, failedPolls), bindOk))
  {
    var w := AfterConnectToWlan(g, failedPolls);
    LiveInert(g.trace, WlanEvents(failedPolls));
    CloseStale(w.trace, w.sock);
    var t := w.trace + if w.sock.Some? then [Close(w.sock.value)] else [];
    OpenFresh(t, w.nextHandle, bindOk);
  }

  lemma IntendedRunKeepsOneLive(g: Gw, env: Env)
    requires OneLive(g)
    ensures OneLive(IntendedAfterRun(g, env))
  {
    if |env.packet| > 0 {
      SendKeepsOneLive(g, env.packet, env.sendOk);
    }
    var g' := Received(g, env);
    if !g'.connected {
      ReconnectKeepsOneLive(g', env.failedPolls, env.bindOk);
    }
  }

  /** With the intended reconnect, at most one socket is ever open: the one in `sock`. */
  lemma {:induction false} IntendedOneLive(g: Gw, envs: seq<Env>)
    requires OneLive(g)
    ensures OneLive(IntendedRunAll(g, envs))
    ensures |LiveHandles(IntendedRunAll(g, envs).trace)| <= 1
    decreases |envs|
  {
    if envs == [] {
      assert |SockSet(g.sock)| <= 1;
    } else {
      IntendedRunKeepsOneLive(g, envs[0]);
      if RunRaises(g, envs[0]) {
        assert |SockSet(IntendedAfterRun(g, envs[0]).sock)| <= 1;
      } else {
        IntendedOneLive(IntendedAfterRun(g, envs[0]), envs[1..]);
      }
    }
  }

  lemma InitOneLive(failedPolls: nat)
    ensures OneLive(Init(failedPolls))
  {
    LiveInert([], WlanEvents(failedPolls));
    assert [] + WlanEvents(failedPolls) == WlanEvents(failedPolls);
  }

  /** From construction, with the intended reconnect, at most one socket is ever open: the one in `sock`. */
  lemma IntendedOneLiveFromInit(failedPolls: nat, envs: seq<Env>)
    ensures var r := IntendedRunAll(Init(failedPolls), envs);
      LiveHandles(r.trace) == SockSet(r.sock) && |LiveHandles(r.trace)| <= 1
  {
    InitOneLive(failedPolls);
    IntendedOneLive(Init(failedPolls), envs);
  }

  // ---------------------------------------------------------------------------
  // The class

  class NanoGateWay {
    var connected: bool
    var sock: Option<Handle>
    var nextHandle: Handle
    var trace: seq<Event>

    function State(): Gw
      reads this
    {
      Gw(connected, sock, nextHandle, trace)
    }

    constructor (failedPolls: nat)
      ensures State() == Init(failedPolls)
    {
      connected, sock, nextHandle, trace := false, None, 0, [];
      new;
      ConnectToWlan(failedPolls);
      sock := None;
      connected := false;
    }

    /** `connect_to_wlan`, where `isconnected()` answers False `failedPolls` times and then True. */
    method ConnectToWlan(failedPolls: nat)
      modifies this
      ensures State() == AfterConnectToWlan(old(State()), failedPolls)
    {
      trace := trace + [WlanConnect];
      var polls: nat := 0;
      var ready := polls == failedPolls;
      trace := trace + [WlanPoll(ready)];
      while !ready
        invariant polls <= failedPolls && (ready <==> polls == failedPolls)
        invariant trace == old(trace) + [WlanConnect] + FalsePolls(polls) + [WlanPoll(ready)]
        invariant connected == old(connected) && sock == old(sock) && nextHandle == old(nextHandle)
        decreases failedPolls - polls
      {
        polls := polls + 1;
        ready := polls == failedPolls;
        trace := trace + [WlanPoll(ready)];
      }
    }

    /** `connect_to_rpi`, where `bindOk` says whether `bind` returns; `raised` is its OSError. */
    method ConnectToRpi(bindOk: bool) returns (raised: bool)
      modifies this
      ensures State() == AfterConnectToRpi(old(State()), bindOk)
      ensures raised <==> !bindOk
    {
      var h := nextHandle;
      nextHandle := nextHandle + 1;
      sock := Some(h);
      trace := trace + [SocketOpen(h)];
      trace := trace + [Bind(h, UdpRecvPort, bindOk)];
      raised := !bindOk;
    }

    method Send(msg: Bytes, sendOk: bool)
      modifies this
      ensures State() == AfterSend(old(State()), msg, sendOk)
    {
      if connected && sock.Some? {
        var h := sock.value;
        trace := trace + [SendTo(h, msg, UdpIp, UdpSendPort)];
        if !sendOk {
          connected := false;
          trace := trace + [Close(h)];
          sock := None;
        }
      }
    }

    /** `run`; `raised` says that the exception of a refused `bind` escapes it. */
    method Run(env: Env) returns (raised: bool)
      modifies this
      ensures State() == AfterRun(old(State()), env)
      ensures raised == RunRaises(old(State()), env)
    {
      var loraP := env.packet;
      if |loraP| > 0 {
        Send(loraP, env.sendOk);
      }
      raised := false;
      if !connected {
        ConnectToWlan(env.failedPolls);
        raised := ConnectToRpi(env.bindOk);
      }
    }
  }
}
