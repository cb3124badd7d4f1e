/**
  The title of a session: each peer shows the last one that was set here or opened in a title message
  (src/core/services/SessionManager.js:774-792, 997-998, 1157-1167).
*/
module Titles {
  import opened Keys
  import opened Payload
  import opened DoubleRatchet
  import opened TwoParty
  import opened Conversation
  import opened Rekeying

  /** The title a payload carries; an empty one counts as none. */
  function TitleIn(plain: Payload): seq<string> {
    if plain.Control? && plain.action == Title && plain.title != "" then [plain.title] else []
  }

  /** The titles that one event brings to `who`: set by its user, or opened in a message of the other peer. */
  function TitlesOf(w: World, ev: Event, who: Role): seq<string>
    requires Enabled(w, ev)
  {
    if ev.SendControl? && ev.from == who && ev.action == Title then [ev.title]
    else if ev.Deliver? && ev.to == who then
      match Result(w, who, ev.at)
      case Opened(plain) => TitleIn(plain)
      case Rejected(_) => []
    else []
  }

  ghost function TitleHistory(w: World, evs: seq<Event>, who: Role): seq<string>
    requires Admissible(w, evs)
    decreases |evs|
  {
    if evs == [] then [] else TitlesOf(w, evs[0], who) + TitleHistory(Next(w, evs[0]), evs[1..], who)
  }

  function Last(initial: string, titles: seq<string>): string {
    if titles == [] then initial else titles[|titles| - 1]
  }

  lemma NextTitle(w: World, ev: Event, who: Role)
    requires Enabled(w, ev)
    ensures Get(Next(w, ev), who).app.title == Last(Get(w, who).app.title, TitlesOf(w, ev, who))
  {
  }

  /** Over every run a peer's title is the last one set here or opened in a title message. */
  lemma {:induction false} TitleIsTheLastOne(w: World, evs: seq<Event>, who: Role)
    requires Admissible(w, evs)
    ensures Get(Run(w, evs), who).app.title == Last(Get(w, who).app.title, TitleHistory(w, evs, who))
    decreases |evs|
  {
    if evs != [] {
      NextTitle(w, evs[0], who);
      TitleIsTheLastOne(Next(w, evs[0]), evs[1..], who);
    }
  }

  // ---- No title from nowhere ----

  /** The titles that the two users set. */
  function TitlesSet(evs: seq<Event>): set<string> {
    set ev | ev in evs && ev.SendControl? && ev.action == Title :: ev.title
  }

  ghost predicate SentWithin(sent: seq<Sent>, titles: set<string>) {
    forall i, t :: 0 <= i < |sent| && t in TitleIn(sent[i].envelope.c.plain) ==> t in titles
  }

  /** Both titles, and all that are under way, are among `titles`. */
  ghost predicate TitlesWithin(w: World, titles: set<string>) {
    && w.host.app.title in titles && w.guest.app.title in titles
    && SentWithin(w.host.side.sent, titles) && SentWithin(w.guest.side.sent, titles)
  }

  lemma SendKeepsWithin(w: World, ev: Event, titles: set<string>)
    requires TitlesWithin(w, titles) && (ev.SendChat? || ev.SendControl?)
    ensures TitlesWithin(Next(w, ev), titles + TitlesSet([ev]))
  {
    assert ev in [ev];
  }

  lemma NextKeepsWithin(w: World, ev: Event, titles: set<string>)
    requires TitlesWithin(w, titles) && Enabled(w, ev)
    ensures TitlesWithin(Next(w, ev), titles + TitlesSet([ev]))
  {
    match ev
    case Deliver(to, at) =>
      var r, e := Get(w, to), Get(w, Other(to)).side.sent[at].envelope;
      OpenedIsSealed(r.side.ratchet, e, w.nextKey);
    case Reconnect(_) =>
    case _ => SendKeepsWithin(w, ev, titles);
  }

  lemma {:induction false} RunKeepsWithin(w: World, evs: seq<Event>, titles: set<string>)
    requires TitlesWithin(w, titles) && Admissible(w, evs)
    ensures TitlesWithin(Run(w, evs), titles + TitlesSet(evs))
    decreases |evs|
  {
    if evs != [] {
      NextKeepsWithin(w, evs[0], titles);
      RunKeepsWithin(Next(w, evs[0]), evs[1..], titles + TitlesSet([evs[0]]));
      assert evs == [evs[0]] + evs[1..];
      assert titles + TitlesSet([evs[0]]) + TitlesSet(evs[1..]) == titles + TitlesSet(evs);
    } else {
      assert titles + TitlesSet([]) == titles;
    }
  }

  /** Over every run from the handshake on, a title that a peer shows was set by one of the two users. */
  lemma EveryTitleWasSet(w: World, evs: seq<Event>, who: Role)
    requires Untouched(w.host.side) && Untouched(w.guest.side) && Admissible(w, evs)
    ensures Get(Run(w, evs), who).app.title in {w.host.app.title, w.guest.app.title} + TitlesSet(evs)
  {
    RunKeepsWithin(w, evs, {w.host.app.title, w.guest.app.title});
  }

  // ---- Lossless channels ----

  /** The next delivery over a lossless link: a title message sets the title that was sent, and nothing else does. */
  lemma NextTitleArrives(w: World, evs: seq<Event>, who: Role)
    requires Synced(w) && Calm(w) && FifoRun(w, evs) && Pending(AfterFifo(w, evs), who)
    ensures SetsNextTitle(AfterFifo(w, evs), who)
  {
    LosslessDelivery(w, evs, who);
    OpenedSetsTitle(AfterFifo(w, evs), who);
  }

  /** The next envelope can be delivered, and if it is a title message, sets exactly its title. */
  ghost predicate SetsNextTitle(now: World, who: Role)
    requires Pending(now, who)
  {
    var at := |Get(now, who).side.arrived|;
    var plain := Get(now, Other(who)).side.sent[at].envelope.c.plain;
    && Enabled(now, Deliver(who, at))
    && Get(Next(now, Deliver(who, at)), who).app.title ==
         if plain.Control? && plain.action == Title && plain.title != "" then plain.title
         else Get(now, who).app.title
  }

  lemma OpenedSetsTitle(now: World, who: Role)
    requires Pending(now, who) && NextOpens(now, who)
    ensures SetsNextTitle(now, who)
  {
    var at := |Get(now, who).side.arrived|;
    HeardApp(now, who, at, Get(now, Other(who)).side.sent[at].envelope.c.plain);
  }

  /** The titles in a peer's envelopes, in the order they were sent. */
  function TitlesSent(sent: seq<Sent>): seq<string> {
    if sent == [] then []
    else TitlesSent(sent[..|sent| - 1]) + TitleIn(sent[|sent| - 1].envelope.c.plain)
  }

  /** `s` sets titles, none of them empty, and `r` does not. */
  ghost predicate SetsTitles(evs: seq<Event>, s: Role) {
    forall ev :: ev in evs && ev.SendControl? && ev.action == Title ==> ev.from == s && ev.title != ""
  }

  /** What `s` shows is the last title it has sent; what `r` shows, the last of those that have arrived. */
  ghost predicate TitlesFlow(s: Peer, r: Peer, initial: string) {
    && s.app.title == Last(initial, TitlesSent(s.side.sent))
    && |r.side.arrived| <= |s.side.sent|
    && r.app.title == Last(initial, TitlesSent(s.side.sent[..|r.side.arrived|]))
    && TitlesSent(r.side.sent) == []
  }

  lemma TitlesSentAppend(sent: seq<Sent>, x: Sent)
    ensures TitlesSent(sent + [x]) == TitlesSent(sent) + TitleIn(x.envelope.c.plain)
  {
    assert (sent + [x])[..|sent|] == sent;
  }

  lemma {:induction false} NoTitlesSent(sent: seq<Sent>, i: nat)
    requires TitlesSent(sent) == [] && i < |sent|
    ensures TitleIn(sent[i].envelope.c.plain) == []
  {
    if i < |sent| - 1 {
      NoTitlesSent(sent[..|sent| - 1], i);
    }
  }

  /** Sending adds one envelope or none; no title is set without one that carries it. */
  lemma SendAdds(p: Peer, ev: Event) returns (added: seq<Sent>)
    requires ev.SendChat? || (ev.SendControl? && (ev.action == Title ==> ev.title != ""))
    ensures var p' := if ev.SendChat? then Say(p, ev.id, ev.text, ev.sender, ev.timestamp, ev.nonce, ev.wired)
                      else Tell(p, ev.action, ev.title, ev.nonce, ev.wired);
      && p'.side.sent == p.side.sent + added && p'.side.arrived == p.side.arrived
      && p'.app.title == Last(p.app.title, TitlesSent(added))
      && (ev.SendChat? || ev.action != Title ==> TitlesSent(added) == [])
  {
    added := [];
    if ev.SendControl? {
      added := [Sent(Encrypt(p.side.ratchet, Control(ev.action, ev.title), ev.nonce).1, ev.wired)];
      TitlesSentAppend([], added[0]);
    } else if ValidText(ev.text) {
      var m := Message(ev.id, ev.text, ev.sender, ev.timestamp, p.app.counter + 1);
      added := [Sent(Encrypt(p.side.ratchet, Chat(m), ev.nonce).1, ev.wired)];
      TitlesSentAppend([], added[0]);
    }
  }

  lemma {:induction false} TitlesSentPlus(a: seq<Sent>, b: seq<Sent>)
    ensures TitlesSent(a + b) == TitlesSent(a) + TitlesSent(b)
    decreases |b|
  {
    if b == [] {
      assert a + b == a;
    } else {
      TitlesSentPlus(a, b[..|b| - 1]);
      assert (a + b)[..|a + b| - 1] == a + b[..|b| - 1];
    }
  }

  lemma SenderKeepsFlow(s: Peer, s': Peer, r: Peer, added: seq<Sent>, initial: string)
    requires TitlesFlow(s, r, initial)
    requires s'.side.sent == s.side.sent + added && s'.app.title == Last(s.app.title, TitlesSent(added))
    ensures TitlesFlow(s', r, initial)
  {
    TitlesSentPlus(s.side.sent, added);
    assert s'.side.sent[..|r.side.arrived|] == s.side.sent[..|r.side.arrived|];
  }

  lemma OtherKeepsFlow(s: Peer, r: Peer, r': Peer, added: seq<Sent>, initial: string)
    requires TitlesFlow(s, r, initial)
    requires r'.side.sent == r.side.sent + added && TitlesSent(added) == []
    requires r'.side.arrived == r.side.arrived && r'.app.title == r.app.title
    ensures TitlesFlow(s, r', initial)
  {
    TitlesSentPlus(r.side.sent, added);
  }

  lemma SendKeepsFlow(w: World, ev: Event, s: Role, initial: string)
    requires TitlesFlow(Get(w, s), Get(w, Other(s)), initial) && SetsTitles([ev], s)
    requires ev.SendChat? || ev.SendControl?
    ensures TitlesFlow(Get(Next(w, ev), s), Get(Next(w, ev), Other(s)), initial)
  {
    assert ev in [ev];
    var added := SendAdds(Get(w, ev.from), ev);
    if ev.from == s {
      SenderKeepsFlow(Get(w, s), Get(Next(w, ev), s), Get(w, Other(s)), added, initial);
    } else {
      OtherKeepsFlow(Get(w, s), Get(w, Other(s)), Get(Next(w, ev), Other(s)), added, initial);
    }
  }

  lemma HearOpened(r: Peer, e: Envelope, at: nat, newKey: KeyId, plain: Payload)
    requires Decrypt(r.side.ratchet, e, newKey).1 == Opened(plain)
    ensures var r' := Hear(r, e, at, newKey);
      && r'.side.sent == r.side.sent && r'.side.arrived == r.side.arrived + [at]
      && r'.app.title == Last(r.app.title, TitleIn(plain))
  {
  }

  /** A title message that opens, or another payload. */
  lemma HearKeepsFlow(s: Peer, r: Peer, newKey: KeyId, initial: string)
    requires TitlesFlow(s, r, initial) && |r.side.arrived| < |s.side.sent|
    requires var e := s.side.sent[|r.side.arrived|].envelope;
      Decrypt(r.side.ratchet, e, newKey).1 == Opened(e.c.plain)
    ensures TitlesFlow(s, Hear(r, s.side.sent[|r.side.arrived|].envelope, |r.side.arrived|, newKey), initial)
  {
    var at := |r.side.arrived|;
    var e := s.side.sent[at].envelope;
    HearOpened(r, e, at, newKey, e.c.plain);
    HeardKeepsFlow(s, r, Hear(r, e, at, newKey), initial);
  }

  lemma HeardKeepsFlow(s: Peer, r: Peer, r': Peer, initial: string)
    requires TitlesFlow(s, r, initial) && |r.side.arrived| < |s.side.sent|
    requires r'.side.sent == r.side.sent && |r'.side.arrived| == |r.side.arrived| + 1
    requires r'.app.title == Last(r.app.title, TitleIn(s.side.sent[|r.side.arrived|].envelope.c.plain))
    ensures TitlesFlow(s, r', initial)
  {
    var at := |r.side.arrived|;
    TitlesSentAppend(s.side.sent[..at], s.side.sent[at]);
    assert s.side.sent[..at + 1] == s.side.sent[..at] + [s.side.sent[at]];
  }

  lemma HearsNoTitle(s: Peer, r: Peer, newKey: KeyId, initial: string)
    requires TitlesFlow(s, r, initial) && |s.side.arrived| < |r.side.sent|
    requires var e := r.side.sent[|s.side.arrived|].envelope;
      Decrypt(s.side.ratchet, e, newKey).1 == Opened(e.c.plain)
    ensures TitlesFlow(Hear(s, r.side.sent[|s.side.arrived|].envelope, |s.side.arrived|, newKey), r, initial)
  {
    var e := r.side.sent[|s.side.arrived|].envelope;
    HearOpened(s, e, |s.side.arrived|, newKey, e.c.plain);
    NoTitlesSent(r.side.sent, |s.side.arrived|);
  }

  lemma DeliverKeepsFlow(w: World, to: Role, s: Role, initial: string)
    requires TitlesFlow(Get(w, s), Get(w, Other(s)), initial)
    requires Pending(w, to) && NextOpens(w, to)
    ensures var w' := Next(w, Deliver(to, |Get(w, to).side.arrived|));
      TitlesFlow(Get(w', s), Get(w', Other(s)), initial)
  {
    if to == s {
      HearsNoTitle(Get(w, s), Get(w, Other(s)), w.nextKey, initial);
    } else {
      HearKeepsFlow(Get(w, s), Get(w, Other(s)), w.nextKey, initial);
    }
  }

  lemma NextKeepsFlow(w: World, ev: Event, s: Role, initial: string)
    requires TitlesFlow(Get(w, s), Get(w, Other(s)), initial) && SetsTitles([ev], s)
    requires Synced(w) && Calm(w) && Fifo(w, ev) && Enabled(w, ev)
    ensures TitlesFlow(Get(Next(w, ev), s), Get(Next(w, ev), Other(s)), initial)
  {
    if ev.Deliver? {
      CalmDelivery(w, ev.to);
      DeliverKeepsFlow(w, ev.to, s, initial);
    } else {
      SendKeepsFlow(w, ev, s, initial);
    }
  }

  lemma FifoNextKeepsSynced(w: World, ev: Event)
    requires Synced(w) && Calm(w) && Fifo(w, ev) && Enabled(w, ev)
    ensures Synced(Next(w, ev)) && Calm(Next(w, ev))
  {
    NextKeepsSync(w, ev, Leader(w));
    FifoNextKeepsCalm(w, ev);
  }

  lemma {:induction false} RunKeepsFlow(w: World, evs: seq<Event>, s: Role, initial: string)
    requires Synced(w) && Calm(w) && FifoRun(w, evs)
    requires TitlesFlow(Get(w, s), Get(w, Other(s)), initial) && SetsTitles(evs, s)
    ensures TitlesFlow(Get(AfterFifo(w, evs), s), Get(AfterFifo(w, evs), Other(s)), initial)
    decreases |evs|
  {
    if evs != [] {
      FifoNextKeepsSynced(w, evs[0]);
      NextKeepsFlow(w, evs[0], s, initial);
      RunKeepsFlow(Next(w, evs[0]), evs[1..], s, initial);
    }
  }

  /**
    Over lossless channels, when one peer alone sets titles: the other shows the last of those that have arrived,
    and once all is delivered both show the same.
  */
  lemma TitlesConverge(w: World, evs: seq<Event>, s: Role)
    requires Synced(w) && Calm(w) && Untouched(w.host.side) && Untouched(w.guest.side)
    requires w.host.app.title == w.guest.app.title
    requires FifoRun(w, evs) && SetsTitles(evs, s)
    ensures var now := AfterFifo(w, evs);
      var from, to := Get(now, s), Get(now, Other(s));
      && from.app.title == Last(w.host.app.title, TitlesSent(from.side.sent))
      && |to.side.arrived| <= |from.side.sent|
      && to.app.title == Last(w.host.app.title, TitlesSent(from.side.sent[..|to.side.arrived|]))
      && (|to.side.arrived| == |from.side.sent| ==> to.app.title == from.app.title)
  {
    RunKeepsFlow(w, evs, s, w.host.app.title);
    var from, to := Get(AfterFifo(w, evs), s), Get(AfterFifo(w, evs), Other(s));
    if |to.side.arrived| == |from.side.sent| {
      assert from.side.sent[..|to.side.arrived|] == from.side.sent;
    }
  }
}
