/**
  The life of a session: its status under every event of the manager
  (src/core/domain/Session.js:16-104, src/core/services/SessionManager.js:849-973).
*/
module Lifecycle {
  datatype Status =
    | Created | AwaitingAnswer | AwaitingFinalize | Connecting | Connected | Disconnected | Expired | Failed

  /** VALID_TRANSITIONS */
  predicate Edge(from: Status, target: Status) {
    match from
    case Created => target in {AwaitingAnswer, AwaitingFinalize, Expired, Failed}
    case AwaitingAnswer => target in {Connecting, Expired, Failed}
    case AwaitingFinalize => target in {Connecting, Expired, Failed}
    case Connecting => target in {Connected, Disconnected, Failed}
    case Connected => target in {Disconnected, Failed}
    case Disconnected => target in {Connecting, Failed}
    case Expired => false
    case Failed => false
  }

  datatype Life = Life(status: Status, createdAt: int, expiryMs: int)

  predicate PastLife(l: Life, now: int) {
    now - l.createdAt > l.expiryMs
  }

  /** `transition`: the new status, and whether the call returned. */
  function Attempt(l: Life, target: Status, now: int): (Life, bool) {
    if PastLife(l, now) && l.status != Disconnected && target != Expired && target != Failed then
      (l.(status := Expired), false)
    else if Edge(l.status, target) then
      (l.(status := target), true)
    else
      (l, false)
  }

  /** The direct assignment the manager makes when a link is lost. */
  function LoseLink(l: Life): Life {
    if l.status == Connected || l.status == Connecting then l.(status := Disconnected) else l
  }

  /** The 'connected' branch of the state listener: up to two transitions, stopping where one throws. */
  function GainLink(l: Life, now: int): Life {
    if l.status == AwaitingAnswer || l.status == AwaitingFinalize then
      var (l1, ok) := Attempt(l, Connecting, now);
      if ok then Attempt(l1, Connected, now).0 else l1
    else if l.status == Connecting then Attempt(l, Connected, now).0
    else l
  }

  /**
    What the manager can do to a session. `heard`: closing the old transport fires its state listener, which
    happens when one is attached and the transport was not closed already.
  */
  datatype LifeEvent =
    | Create | Join | Finalize
    | LinkUp | LinkDown
    | Disconnect(heard: bool)
    | Reconnect(heard: bool)      // reconnectAsHost and reconnectAsGuest

  function Handle(l: Life, ev: LifeEvent, now: int): Life {
    match ev
    case Create => Attempt(l, AwaitingAnswer, now).0
    case Join => Attempt(l, AwaitingFinalize, now).0
    case Finalize => Attempt(l, Connecting, now).0
    case LinkUp => GainLink(l, now)
    case LinkDown => LoseLink(l)
    case Disconnect(_) => LoseLink(l)
    case Reconnect(heard) => Attempt(if heard then LoseLink(l) else l, Connecting, now).0
  }

  /** Every status an event passes through, the starting one first. */
  function Trail(l: Life, ev: LifeEvent, now: int): seq<Status> {
    match ev
    case LinkUp =>
      if (l.status == AwaitingAnswer || l.status == AwaitingFinalize) && Attempt(l, Connecting, now).1 then
        [l.status, Connecting, GainLink(l, now).status]
      else [l.status, GainLink(l, now).status]
    case Reconnect(true) => [l.status, LoseLink(l).status, Handle(l, ev, now).status]
    case _ => [l.status, Handle(l, ev, now).status]
  }

  /** A step of the table, a forced expiry of an overdue session, or no change. */
  ghost predicate Legal(l: Life, from: Status, target: Status, now: int) {
    || from == target
    || Edge(from, target)
    || (target == Expired && from != Disconnected && PastLife(l, now))
  }

  datatype Timed = Timed(event: LifeEvent, now: int)

  function LifeAfter(l: Life, evs: seq<Timed>): Life
    decreases |evs|
  {
    if evs == [] then l else LifeAfter(Handle(l, evs[0].event, evs[0].now), evs[1..])
  }

  lemma TrailIsHandle(l: Life, ev: LifeEvent, now: int)
    ensures var t := Trail(l, ev, now);
      && t[0] == l.status && t[|t| - 1] == Handle(l, ev, now).status
      && forall i :: 0 <= i < |t| - 1 ==> Legal(l, t[i], t[i + 1], now)
  {
  }

  /**
    Over every run of the manager: each status passed through is one step of the table from the one before,
    or a forced expiry; and a session becomes connected only while it is within its life time.
  */
  lemma EveryChangeIsLegal(l: Life, evs: seq<Timed>, k: nat)
    requires k < |evs|
    ensures var before := LifeAfter(l, evs[..k]);
      var t := Trail(before, evs[k].event, evs[k].now);
      && before.createdAt == l.createdAt && before.expiryMs == l.expiryMs
      && t[0] == before.status && t[|t| - 1] == LifeAfter(l, evs[..k + 1]).status
      && (forall i :: 0 <= i < |t| - 1 ==> Legal(l, t[i], t[i + 1], evs[k].now))
      && (before.status != Connected && LifeAfter(l, evs[..k + 1]).status == Connected ==>
            evs[k].now - l.createdAt <= l.expiryMs)
  {
    LifeAfterNext(l, evs, k);
    var before := LifeAfter(l, evs[..k]);
    TrailIsHandle(before, evs[k].event, evs[k].now);
    if before.status != Connected && LifeAfter(l, evs[..k + 1]).status == Connected {
      ConnectsWithinLife(before, evs[k].event, evs[k].now);
    }
  }

  lemma {:induction false} LifeAfterNext(l: Life, evs: seq<Timed>, k: nat)
    requires k < |evs|
    ensures var before := LifeAfter(l, evs[..k]);
      && before.createdAt == l.createdAt && before.expiryMs == l.expiryMs
      && LifeAfter(l, evs[..k + 1]) == Handle(before, evs[k].event, evs[k].now)
    decreases k
  {
    if k == 0 {
      assert evs[..1][1..] == [];
    } else {
      LifeAfterNext(Handle(l, evs[0].event, evs[0].now), evs[1..], k - 1);
      assert evs[1..][..k - 1] == evs[..k][1..];
      assert evs[1..][..k] == evs[..k + 1][1..];
    }
  }

  lemma ConnectsWithinLife(l: Life, ev: LifeEvent, now: int)
    requires l.status != Connected && Handle(l, ev, now).status == Connected
    ensures !PastLife(l, now)
  {
  }

  /**
    What each event makes of each status. Only a live status falls to DISCONNECTED, and only a waiting one rises to
    CONNECTED; a session past its life time expires at the next transition it attempts, unless that one leaves
    DISCONNECTED.
  */
  lemma StatusAfter(l: Life, ev: LifeEvent, now: int)
    ensures Handle(l, ev, now) == l.(status := Handle(l, ev, now).status)
    ensures ev.LinkDown? || ev.Disconnect? ==>
      Handle(l, ev, now).status == if l.status in {Connected, Connecting} then Disconnected else l.status
    ensures ev == Reconnect(true) ==>
      Trail(l, ev, now)[1] == if l.status in {Connected, Connecting} then Disconnected else l.status
    ensures ev.LinkUp? ==>
      Handle(l, ev, now).status ==
      if l.status !in {AwaitingAnswer, AwaitingFinalize, Connecting} then l.status
      else if now > l.createdAt + l.expiryMs then Expired
      else Connected
    ensures ev.Reconnect? && (l.status == Disconnected || (ev.heard && l.status in {Connected, Connecting})) ==>
      Handle(l, ev, now).status == Connecting
    ensures ev.Finalize? && l.status == Disconnected ==> Handle(l, ev, now).status == Connecting
    ensures (ev.Reconnect? && l.status != Disconnected && !(ev.heard && l.status in {Connected, Connecting}))
            || (ev.Finalize? && l.status != Disconnected) ==>
      Handle(l, ev, now).status ==
      if now > l.createdAt + l.expiryMs then Expired
      else if l.status in {AwaitingAnswer, AwaitingFinalize} then Connecting
      else l.status
    ensures ev.Create? || ev.Join? ==>
      Handle(l, ev, now).status ==
      if now > l.createdAt + l.expiryMs && l.status != Disconnected then Expired
      else if l.status != Created then l.status
      else if ev.Create? then AwaitingAnswer
      else AwaitingFinalize
  {
  }

  /**
    When `transition` returns: along the table, and past the life time only from DISCONNECTED or to EXPIRED or
    ERROR. CONNECTED is reached from CONNECTING alone, every status but the two final ones can fail, and the final
    ones are left for nothing.
  */
  lemma TransitionReturns(l: Life, target: Status, now: int)
    ensures var (l', ok) := Attempt(l, target, now);
      && (ok ==> l' == l.(status := target) && l.status !in {Expired, Failed})
      && (!ok ==> l' == l || (l' == l.(status := Expired) && now > l.createdAt + l.expiryMs))
      && (target == Failed ==> (ok <==> l.status !in {Expired, Failed}))
      && (target == Expired ==> (ok <==> l.status in {Created, AwaitingAnswer, AwaitingFinalize}))
      && (target == Disconnected ==>
            (ok <==> l.status in {Connected, Connecting} && now <= l.createdAt + l.expiryMs))
      && (target == Connected ==> (ok <==> l.status == Connecting && now <= l.createdAt + l.expiryMs))
      && (target == Connecting ==>
            (ok <==> l.status == Disconnected
                     || (l.status in {AwaitingAnswer, AwaitingFinalize} && now <= l.createdAt + l.expiryMs)))
      && (target in {AwaitingAnswer, AwaitingFinalize} ==>
            (ok <==> l.status == Created && now <= l.createdAt + l.expiryMs))
      && (target == Created ==> !ok)
  {
  }

  /** Only a link that comes up connects a session. */
  lemma {:induction false} LinkUpConnects(l: Life, evs: seq<Timed>) returns (j: nat)
    requires l.status != Connected && LifeAfter(l, evs).status == Connected
    ensures j < |evs| && evs[j].event.LinkUp?
    decreases |evs|
  {
    if evs[0].event.LinkUp? {
      j := 0;
    } else {
      var later := LinkUpConnects(Handle(l, evs[0].event, evs[0].now), evs[1..]);
      j := later + 1;
    }
  }

  /** A disconnected session needs a reconnect, or its answer pasted once more, and after that a link that comes up. */
  lemma {:induction false} DownUntilReconnected(l: Life, evs: seq<Timed>) returns (i: nat, j: nat)
    requires l.status == Disconnected && LifeAfter(l, evs).status == Connected
    ensures i < j < |evs| && (evs[i].event.Reconnect? || evs[i].event.Finalize?) && evs[j].event.LinkUp?
    decreases |evs|
  {
    var l1 := Handle(l, evs[0].event, evs[0].now);
    if l1.status == Disconnected {
      i, j := DownUntilReconnected(l1, evs[1..]);
      i, j := i + 1, j + 1;
    } else {
      var later := LinkUpConnects(l1, evs[1..]);
      i, j := 0, later + 1;
    }
  }

  /** The events after which a live session is down. */
  predicate TakesDown(ev: LifeEvent) {
    ev.LinkDown? || ev.Disconnect?
  }

  /**
    Over every run: a live session whose link goes down, or that is disconnected, is DISCONNECTED at once, and
    whenever it is CONNECTED later, a reconnect (or its answer pasted once more) and then a link that came up lie
    in between.
  */
  lemma LostLinkStaysDown(l: Life, evs: seq<Timed>, k: nat, m: nat)
    requires k < m <= |evs| && TakesDown(evs[k].event)
    requires LifeAfter(l, evs[..k]).status in {Connected, Connecting}
    ensures LifeAfter(l, evs[..k + 1]).status == Disconnected
    ensures LifeAfter(l, evs[..m]).status == Connected ==>
      exists i, j :: k < i < j < m && (evs[i].event.Reconnect? || evs[i].event.Finalize?) && evs[j].event.LinkUp?
  {
    LifeAfterNext(l, evs, k);
    LifeAfterSplit(l, evs[..m], k + 1);
    assert evs[..m][..k + 1] == evs[..k + 1];
    if LifeAfter(l, evs[..m]).status == Connected {
      var i, j := DownUntilReconnected(LifeAfter(l, evs[..k + 1]), evs[..m][k + 1..]);
      assert evs[..m][k + 1..][i] == evs[k + 1 + i] && evs[..m][k + 1..][j] == evs[k + 1 + j];
    }
  }

  lemma {:induction false} LifeAfterSplit(l: Life, evs: seq<Timed>, k: nat)
    requires k <= |evs|
    ensures LifeAfter(l, evs) == LifeAfter(LifeAfter(l, evs[..k]), evs[k..])
    decreases k
  {
    if k > 0 {
      LifeAfterSplit(Handle(l, evs[0].event, evs[0].now), evs[1..], k - 1);
      assert evs[1..][..k - 1] == evs[..k][1..] && evs[1..][k - 1..] == evs[k..];
    } else {
      assert evs[..0] == [] && evs[0..] == evs;
    }
  }

  /** An expired session stays expired. */
  lemma {:induction false} ExpiredIsFinal(l: Life, evs: seq<Timed>)
    requires l.status == Expired
    ensures LifeAfter(l, evs).status == Expired
    decreases |evs|
  {
    if evs != [] {
      ExpiredIsFinal(Handle(l, evs[0].event, evs[0].now), evs[1..]);
    }
  }

  /**
    Reconnecting a disconnected session. The expiry check is skipped when leaving Disconnected but made again
    when the link comes up, so the reconnect succeeds exactly while the session is younger than its invite
    may be; later it ends in Expired, for good.
  */
  lemma ReconnectOnlyWithinLife(l: Life, heard: bool, at: int, linkedAt: int)
    requires l.status == Disconnected
    ensures var linked := Handle(Handle(l, Reconnect(heard), at), LinkUp, linkedAt);
      && Handle(l, Reconnect(heard), at).status == Connecting
      && (linked.status == Connected <==> linkedAt - l.createdAt <= l.expiryMs)
      && (linked.status != Connected ==> linked.status == Expired)
  {
  }

  /** A session established in time, lost, and reconnected six minutes after it was created. */
  lemma LateReconnectExpires()
    ensures var l := Life(Created, 0, 300000);
      var evs := [Timed(Create, 0), Timed(Finalize, 60000), Timed(LinkUp, 61000), Timed(LinkDown, 350000),
                  Timed(Reconnect(false), 351000), Timed(LinkUp, 360000)];
      LifeAfter(l, evs[..3]).status == Connected && LifeAfter(l, evs).status == Expired
  {
    var l := Life(Created, 0, 300000);
    var evs := [Timed(Create, 0), Timed(Finalize, 60000), Timed(LinkUp, 61000), Timed(LinkDown, 350000),
                Timed(Reconnect(false), 351000), Timed(LinkUp, 360000)];
    var l3 := Handle(Handle(Handle(l, Create, 0), Finalize, 60000), LinkUp, 61000);
    AfterThree(l, evs[..3]);
    AfterThree(l, evs);
    AfterThree(l3, evs[3..]);
    assert evs[3..][3..] == [] && evs[..3][3..] == [];
  }

  lemma AfterThree(l: Life, evs: seq<Timed>)
    requires |evs| >= 3
    ensures LifeAfter(l, evs) ==
      LifeAfter(Handle(Handle(Handle(l, evs[0].event, evs[0].now), evs[1].event, evs[1].now), evs[2].event, evs[2].now),
                evs[3..])
  {
    var l1 := Handle(l, evs[0].event, evs[0].now);
    assert evs[1..][1..][1..] == evs[3..];
    assert LifeAfter(l1, evs[1..]) == LifeAfter(Handle(l1, evs[1].event, evs[1].now), evs[1..][1..]);
  }
}
