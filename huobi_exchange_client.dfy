/**
 * exchange/huobi/HuobiWebSocketClient: Huobi pushes GZIP-compressed binary
 * frames; the client drops heartbeats and acknowledgements by substring,
 * turns a `.bbo` (best bid/offer) push into one price update, subscribes on
 * open and keeps at most one ping timer. Inflating and parsing are inputs: a
 * binary frame arrives with what GZIP inflation yields and with the tree
 * readTree builds from the decompressed text (None when readTree throws).
 */
module HuobiExchangeClient {
  import opened Wrappers
  import opened Text
  import opened Json
  import ArbitrageConfig
  import GzipUtil
  import ExchangeClient
  import opened WebSocketMessageHandler

  /** The venue name handed to handlePriceUpdate. */
  const ExchangeName: string := "火币"

  /** Every JsonNode test handleHuobiMessage makes before it reports an update. */
  ghost predicate IsBboPush(j: Json) {
    && Has(j, "ch") && Has(j, "tick")
    && EndsWith(AsText(Get(j, "ch").value), ".bbo")
    && Has(Get(j, "tick").value, "bid") && Has(Get(j, "tick").value, "ask")
  }

  /** A payload the substring filters let through to the parser. */
  predicate PassesFilters(decompressed: string) {
    && decompressed != ""
    && !Contains(decompressed, "pong")
    && !Contains(decompressed, "subbed") && !Contains(decompressed, "err-msg")
  }

  /** handleHuobiMessage after decompression: the update it reports, if any. */
  function BboUpdate(decompressed: string, parsed: Option<Json>): (r: Option<PriceUpdate>)
    ensures r.Some? <==> PassesFilters(decompressed) && parsed.Some? && IsBboPush(parsed.value)
    ensures r.Some? ==>
      var tick := Get(parsed.value, "tick").value;
      r.value == PriceUpdate(ExchangeName, AsDouble(Get(tick, "bid").value), AsDouble(Get(tick, "ask").value))
  {
    if decompressed == "" then None
    else if Contains(decompressed, "pong") then None
    else if Contains(decompressed, "subbed") || Contains(decompressed, "err-msg") then None
    else if parsed.None? then None
    else
      var j := parsed.value;
      if Has(j, "ch") && Has(j, "tick") then
        var channel := AsText(Get(j, "ch").value);
        if EndsWith(channel, ".bbo") then
          var tick := Get(j, "tick").value;
          if Has(tick, "bid") && Has(tick, "ask") then
            Some(PriceUpdate(ExchangeName, AsDouble(Get(tick, "bid").value), AsDouble(Get(tick, "ask").value)))
          else None
        else None
      else None
  }

  /** A heartbeat reply is dropped whatever it parses to, and so is any text mentioning "pong". */
  lemma PongDropped(a: string, b: string, parsed: Option<Json>)
    ensures BboUpdate(a + "pong" + b, parsed).None?
  {
    ContainsInfix(a, "pong", b);
  }

  /** Subscription acknowledgements and error replies are dropped before parsing. */
  lemma AcknowledgementDropped(a: string, b: string, parsed: Option<Json>)
    ensures BboUpdate(a + "subbed" + b, parsed).None?
    ensures BboUpdate(a + "err-msg" + b, parsed).None?
  {
    ContainsInfix(a, "subbed", b);
    ContainsInfix(a, "err-msg", b);
  }

  /** A server heartbeat {"ping": n} has no channel, so it is never an update (and is not answered). */
  lemma ServerPingYieldsNothing(decompressed: string, n: Number)
    ensures BboUpdate(decompressed, Some(JObj([Field("ping", JNum(n))]))).None?
  {
    assert !Has(JObj([Field("ping", JNum(n))]), "ch");
  }

  /** A ticker channel that is not `.bbo` yields nothing, even with a bid and an ask. */
  lemma TickerChannelIgnored(decompressed: string, bid: Number, ask: Number)
    ensures BboUpdate(decompressed, Some(JObj([
      Field("ch", JStr("market.ethusdt.ticker")),
      Field("tick", JObj([Field("bid", JNum(bid)), Field("ask", JNum(ask))]))]))).None?
  {
    assert !EndsWith("market.ethusdt.ticker", ".bbo");
  }

  /** A `.bbo` push passing the filters reports exactly its bid and ask under the Huobi name. */
  lemma BboPushReported(decompressed: string, bid: Number, ask: Number)
    requires PassesFilters(decompressed)
    ensures BboUpdate(decompressed, Some(JObj([
      Field("ch", JStr("market.ethusdt.bbo")),
      Field("tick", JObj([Field("bid", JNum(bid)), Field("ask", JNum(ask))]))])))
      == Some(PriceUpdate(ExchangeName, bid.value, ask.value))
  {
    var fields := [Field("bid", JNum(bid)), Field("ask", JNum(ask))];
    var j := JObj([Field("ch", JStr("market.ethusdt.bbo")), Field("tick", JObj(fields))]);
    assert fields[1..] == [Field("ask", JNum(ask))];
    assert Lookup(fields, "bid") == Some(JNum(bid));
    assert Lookup(fields, "ask") == Some(JNum(ask));
    assert j.fields[1..] == [Field("tick", JObj(fields))];
    assert "ch" != "tick" by { assert "ch"[0] != "tick"[0]; }
    assert Lookup(j.fields[1..], "tick") == Some(JObj(fields));
    assert Get(j, "ch") == Some(JStr("market.ethusdt.bbo"));
    assert Get(j, "tick") == Some(JObj(fields));
    assert EndsWith("market.ethusdt.bbo", ".bbo");
    assert IsBboPush(j);
  }

  // ---------------------------------------------------------- outgoing frames

  const SubscriptionPrefix: string := "{\"sub\":\"market." + ArbitrageConfig.Symbol + ".bbo\",\"id\":\""
  const SubscriptionSuffix: string := "\"}"

  /** sendSubscriptionMessage's text for the clock reading `now`. */
  function SubscriptionMessage(now: int): string {
    SubscriptionPrefix + IntToString(now) + SubscriptionSuffix
  }

  /** Reading the id back out of a subscription frame. */
  function SubscriptionId(msg: string): Option<int> {
    match Between(msg, SubscriptionPrefix, SubscriptionSuffix)
    case None => None
    case Some(id) => ParseInt(id)
  }

  /** The subscription names the configured symbol's bbo channel ... */
  lemma SubscriptionChannel()
    ensures SubscriptionPrefix == "{\"sub\":\"market.ethusdt.bbo\",\"id\":\""
  {
  }

  /** ... and carries `now` as its id. */
  lemma SubscriptionRoundTrip(now: int)
    ensures SubscriptionId(SubscriptionMessage(now)) == Some(now)
  {
    BetweenFrame(SubscriptionPrefix, IntToString(now), SubscriptionSuffix);
    IntToStringRoundTrip(now);
  }

  /** sendPingMessage's text. */
  function PingMessage(now: int): string {
    "{\"ping\":" + IntToString(now) + "}"
  }

  // ------------------------------------------------------------- ping timers

  function CountTrue(live: seq<bool>): nat {
    if live == [] then 0 else CountTrue(live[..|live| - 1]) + (if live[|live| - 1] then 1 else 0)
  }

  /** The pingTimer field names the one timer not yet cancelled, when there is one. */
  predicate SlotHoldsLive(live: seq<bool>, slot: Option<nat>) {
    && (slot.Some? ==> slot.value < |live| && live[slot.value])
    && forall i :: 0 <= i < |live| && live[i] ==> slot == Some(i)
  }

  /** So at most one ping timer is ever running: the one in the field. */
  lemma {:induction false} AtMostOneTimer(live: seq<bool>, slot: Option<nat>)
    requires SlotHoldsLive(live, slot)
    ensures CountTrue(live) == if slot.Some? then 1 else 0
  {
    if live != [] {
      var init := live[..|live| - 1];
      var s := if slot.Some? && slot.value < |init| then slot else None;
      assert SlotHoldsLive(init, s) by {
        forall i | 0 <= i < |init|
          ensures init[i] ==> s == Some(i)
        {
          assert live[i] == init[i];
        }
        if s.Some? {
          assert live[s.value] == init[s.value];
        }
      }
      AtMostOneTimer(init, s);
    }
  }

  class HuobiWebSocketClient {
    /** Every Timer created, true while it has not been cancelled. */
    var timers: seq<bool>
    /** The pingTimer field: an index into `timers`, or null. */
    var pingTimer: Option<nat>
    /** Frames passed to send(), in order. */
    var outbox: seq<string>
    /** Calls of messageHandler.handlePriceUpdate, in order. */
    var updates: seq<PriceUpdate>
    /** Reconnect threads started by scheduleReconnect. */
    var reconnectThreads: nat
    /** Calls of the socket library's reconnect() after a failed ping. */
    var libraryReconnects: nat

    ghost predicate Valid()
      reads this
    {
      SlotHoldsLive(timers, pingTimer)
    }

    function RunningTimers(): nat
      reads this
    {
      CountTrue(timers)
    }

    constructor ()
      ensures Valid() && timers == [] && pingTimer == None && outbox == [] && updates == [] && reconnectThreads == 0
      ensures libraryReconnects == 0
    {
      timers, pingTimer, outbox, updates, reconnectThreads, libraryReconnects := [], None, [], [], 0, 0;
    }

    /** stopPingTimer: cancels the timer in the field, if any, and clears the field. */
    method StopPingTimer()
      requires Valid()
      modifies this
      ensures Valid() && pingTimer == None && RunningTimers() == 0
      ensures |timers| == |old(timers)| && forall i :: 0 <= i < |timers| ==> !timers[i]
      ensures old(pingTimer).Some? ==> timers == old(timers)[old(pingTimer).value := false]
      ensures old(pingTimer).None? ==> timers == old(timers)
      ensures outbox == old(outbox) && updates == old(updates) && reconnectThreads == old(reconnectThreads)
      ensures libraryReconnects == old(libraryReconnects)
    {
      if pingTimer.Some? {
        timers := timers[pingTimer.value := false];
        pingTimer := None;
      }
      AtMostOneTimer(timers, pingTimer);
    }

    /** startPingTimer: stops the current timer first, then installs a new one. */
    method StartPingTimer()
      requires Valid()
      modifies this
      ensures Valid() && pingTimer == Some(|old(timers)|) && |timers| == |old(timers)| + 1 && RunningTimers() == 1
      ensures forall i :: 0 <= i < |old(timers)| ==> !timers[i]
      ensures outbox == old(outbox) && updates == old(updates) && reconnectThreads == old(reconnectThreads)
      ensures libraryReconnects == old(libraryReconnects)
    {
      StopPingTimer();
      timers := timers + [true];
      pingTimer := Some(|timers| - 1);
      AtMostOneTimer(timers, pingTimer);
    }

    /**
     * A tick of the ping timer: a ping goes out only while the socket is
     * open; when send() throws (`sendOk` false) the task calls reconnect().
     */
    method PingTimerFires(isOpen: bool, now: int, sendOk: bool)
      modifies this
      ensures outbox == old(outbox) + (if isOpen && sendOk then [PingMessage(now)] else [])
      ensures libraryReconnects == old(libraryReconnects) + (if isOpen && !sendOk then 1 else 0)
      ensures timers == old(timers) && pingTimer == old(pingTimer)
      ensures updates == old(updates) && reconnectThreads == old(reconnectThreads)
    {
      if isOpen {
        if sendOk {
          outbox := outbox + [PingMessage(now)];
        } else {
          libraryReconnects := libraryReconnects + 1;
        }
      }
    }

    /** onOpen: the subscription goes out, then the ping timer is (re)started. */
    method OnOpen(now: int)
      requires Valid()
      modifies this
      ensures Valid() && outbox == old(outbox) + [SubscriptionMessage(now)]
      ensures pingTimer == Some(|old(timers)|) && RunningTimers() == 1
      ensures updates == old(updates) && reconnectThreads == old(reconnectThreads)
      ensures libraryReconnects == old(libraryReconnects)
    {
      outbox := outbox + [SubscriptionMessage(now)];
      StartPingTimer();
    }

    /** onClose: the timer stops and one reconnect thread is started. */
    method OnClose()
      requires Valid()
      modifies this
      ensures Valid() && pingTimer == None && RunningTimers() == 0
      ensures reconnectThreads == old(reconnectThreads) + 1
      ensures outbox == old(outbox) && updates == old(updates) && libraryReconnects == old(libraryReconnects)
    {
      StopPingTimer();
      reconnectThreads := reconnectThreads + 1;
    }

    /** onError: the timer stops; no reconnect is started. */
    method OnError()
      requires Valid()
      modifies this
      ensures Valid() && pingTimer == None && RunningTimers() == 0
      ensures reconnectThreads == old(reconnectThreads)
      ensures outbox == old(outbox) && updates == old(updates) && libraryReconnects == old(libraryReconnects)
    {
      StopPingTimer();
    }

    /** The body of a reconnect thread after its 5-second sleep; a throw is reported as a close. */
    method RunReconnectThread(threw: bool)
      requires Valid()
      modifies this
      ensures Valid() && outbox == old(outbox) && updates == old(updates) && libraryReconnects == old(libraryReconnects)
      ensures threw ==> pingTimer == None && reconnectThreads == old(reconnectThreads) + 1
      ensures !threw ==> timers == old(timers) && pingTimer == old(pingTimer) && reconnectThreads == old(reconnectThreads)
    {
      if threw {
        OnClose();
      }
    }

    /** onMessage(String): text frames are only logged, so nothing changes. */
    method OnTextMessage(message: string)
    {
    }

    /** onMessage(ByteBuffer): the remaining bytes are decompressed and classified; errors are swallowed. */
    method OnBinaryMessage(bytes: ExchangeClient.ByteBuffer, inflated: Option<string>, parsed: Option<Json>)
      requires ExchangeClient.WellFormed(bytes)
      modifies this
      ensures var u := BboUpdate(GzipUtil.DecompressGzip(Some(ExchangeClient.Remaining(bytes)), inflated), parsed);
        updates == old(updates) + (if u.Some? then [u.value] else [])
      ensures timers == old(timers) && pingTimer == old(pingTimer)
      ensures outbox == old(outbox) && reconnectThreads == old(reconnectThreads)
      ensures libraryReconnects == old(libraryReconnects)
    {
      var text := GzipUtil.DecompressGzip(Some(ExchangeClient.Remaining(bytes)), inflated);
      var u := BboUpdate(text, parsed);
      if u.Some? {
        updates := updates + [u.value];
      }
    }
  }
}
