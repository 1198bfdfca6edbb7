/** One stream from its connection to the quiet after it: the replay, the pending commands that the
    connection re-sends, the subscription, and what the channel's other users publish, allocate
    without publishing, and echo meanwhile. Publishing is allocating an entry and handing it to the
    message broker, which forwards it later, in order, to whoever has subscribed by then. */
module Streams {
  import opened Domain
  import opened Realtime

  datatype Stage = Replayed | Live

  /** `outgoing` is published and not forwarded yet; `inbox` is forwarded to this connection and not
      handled yet; `got` is what the client has been sent. The other fields record history: the
      length of the log at the connection and at the subscription, the replay, the commands that
      this connection re-sent, the ids that were allocated by others without publishing, and what
      was outgoing at the subscription and was forwarded after it. */
  datatype Stream = Stream(
    channel: Channel, ctx: SseContext, log: seq<StreamEntry>, outgoing: seq<StreamEntry>,
    stage: Stage, inbox: seq<StreamEntry>, got: seq<StreamEntry>,
    connectedAt: nat, replayed: seq<StreamEntry>, resent: seq<StreamEntry>, silent: set<int>,
    subscribedAt: nat, waiting: seq<StreamEntry>, heard: seq<StreamEntry>)

  /** The client connects and is sent the replay. */
  function Connect(channel: Channel, log: seq<StreamEntry>, outgoing: seq<StreamEntry>, last: Option<int>, ctx: SseContext): Stream {
    var replay := GetReplay(channel, last, ctx);
    Stream(channel, ctx, log, outgoing, Replayed, [], replay, |log|, replay, [], {}, 0, [], [])
  }

  // ---- Steps -------------------------------------------------------------------

  /** `Resend` is this connection's; `Allot` is another connection's, of a command for its own PC. */
  datatype Step =
    | Announce(evt: CafeEvent)
    | Allot(evt: CafeEvent)
    | Resend(evt: CafeEvent)
    | Forward
    | Subscribe
    | Handle
    | EchoElsewhere(k: nat)

  predicate CanStep(s: Stream, st: Step) {
    match st
    case Announce(_) => true
    case Allot(_) => true
    case Resend(evt) => s.stage.Replayed? && s.ctx.Pc? && s.ctx.pc.Some? && evt.pc == s.ctx.pc
    case Forward => |s.outgoing| > 0
    case Subscribe => s.stage.Replayed?
    case Handle => |s.inbox| > 0
    case EchoElsewhere(k) => k < |s.log|
  }

  function NextEntry(s: Stream, evt: CafeEvent): StreamEntry {
    EntryOf(evt, s.channel.counter + 1)
  }

  function Allocated(s: Stream, evt: CafeEvent): Stream {
    s.(channel := Allocate(s.channel, evt), log := s.log + [NextEntry(s, evt)])
  }

  function Take(s: Stream, st: Step): Stream
    requires CanStep(s, st)
  {
    match st
    case Announce(evt) => Allocated(s, evt).(outgoing := s.outgoing + [NextEntry(s, evt)])
    case Allot(evt) => Allocated(s, evt).(silent := s.silent + {s.channel.counter + 1})
    case Resend(evt) => Allocated(s, evt).(got := s.got + [NextEntry(s, evt)], resent := s.resent + [NextEntry(s, evt)])
    case Forward =>
      var e := s.outgoing[0];
      if s.stage.Live? then s.(outgoing := s.outgoing[1..], inbox := s.inbox + [e], heard := s.heard + [e])
      else s.(outgoing := s.outgoing[1..])
    case Subscribe => s.(stage := Live, subscribedAt := |s.log|, waiting := s.outgoing)
    case Handle =>
      var e := s.inbox[0];
      s.(channel := Remember(s.channel, Some(e)), inbox := s.inbox[1..], got := s.got + if Matches(e, s.ctx) then [e] else [])
    case EchoElsewhere(k) => s.(channel := Remember(s.channel, Some(s.log[k])))
  }

  predicate CanRun(s: Stream, steps: seq<Step>)
    decreases |steps|
  {
    |steps| == 0 || (CanStep(s, steps[0]) && CanRun(Take(s, steps[0]), steps[1..]))
  }

  function After(s: Stream, steps: seq<Step>): Stream
    requires CanRun(s, steps)
    decreases |steps|
  {
    if |steps| == 0 then s else After(Take(s, steps[0]), steps[1..])
  }

  // ---- Invariant ---------------------------------------------------------------

  predicate InLog(log: seq<StreamEntry>, xs: seq<StreamEntry>) {
    forall x :: x in xs ==> 1 <= x.id <= |log| && log[x.id - 1] == x
  }

  predicate Rising(xs: seq<StreamEntry>) {
    forall i, j :: 0 <= i < j < |xs| ==> xs[i].id < xs[j].id
  }

  ghost predicate LogFits(s: Stream) {
    && Numbered(s.log) && s.channel.counter == |s.log| && s.connectedAt <= |s.log|
    && InLog(s.log, s.resent) && Rising(s.resent)
    && (forall r :: r in s.resent ==> r.id > s.connectedAt && Matches(r, s.ctx))
    && InLog(s.log, s.heard + s.outgoing) && Rising(s.heard + s.outgoing)
    && InLog(s.log, s.inbox)
    && (forall id :: id in s.silent ==> id <= |s.log|)
  }

  /** What is forwarded after the subscription is what was outgoing then and what is published later. */
  ghost predicate HearsFits(s: Stream) {
    match s.stage
    case Replayed => s.heard == [] && s.inbox == []
    case Live =>
      && s.connectedAt <= s.subscribedAt <= |s.log|
      && InLog(s.log, s.waiting) && (forall e :: e in s.waiting ==> e.id <= s.subscribedAt)
      && (forall r :: r in s.resent ==> r.id <= s.subscribedAt)
      && forall e :: e in s.log ==>
           (e in s.heard + s.outgoing <==> e in s.waiting || (e.id > s.subscribedAt && e.id !in s.silent))
  }

  ghost predicate GotFits(s: Stream) {
    s.got + Visible(s.inbox, s.ctx) == s.replayed + s.resent + Visible(s.heard, s.ctx)
  }

  ghost predicate Fits(s: Stream) {
    LogFits(s) && HearsFits(s) && GotFits(s)
  }

  lemma {:induction false} ConnectFits(channel: Channel, log: seq<StreamEntry>, outgoing: seq<StreamEntry>, last: Option<int>, ctx: SseContext)
    requires Mirrors(channel, log) && InLog(log, outgoing) && Rising(outgoing)
    ensures Fits(Connect(channel, log, outgoing, last, ctx))
  {
    hide GetReplay;
    assert [] + outgoing == outgoing;
  }

  // ---- Each step keeps it ------------------------------------------------------

  /** One more entry at the end of the log. */
  lemma {:induction false} AllocatedFits(s: Stream, evt: CafeEvent)
    requires LogFits(s)
    ensures LogFits(Allocated(s, evt)) && NextEntry(s, evt).id == |s.log| + 1
    ensures InLog(Allocated(s, evt).log, [NextEntry(s, evt)])
    ensures forall x :: x in s.resent || x in s.heard + s.outgoing || x in s.inbox ==> x.id <= |s.log|
  {
    AllocateCounts(s.channel, evt);
    hide Rising, Allocate, Matches;
  }

  lemma {:induction false} AllocateCounts(c: Channel, evt: CafeEvent)
    ensures Allocate(c, evt).counter == c.counter + 1
  {
  }

  lemma {:induction false} RisingAppend(xs: seq<StreamEntry>, e: StreamEntry)
    requires Rising(xs) && forall x :: x in xs ==> x.id < e.id
    ensures Rising(xs + [e])
  {
  }

  lemma {:induction false} AnnounceFits(s: Stream, evt: CafeEvent)
    requires Fits(s)
    ensures Fits(Take(s, Announce(evt)))
  {
    hide Visible, Allocate, Matches;
    AllocatedFits(s, evt);
    RisingAppend(s.heard + s.outgoing, NextEntry(s, evt));
    assert s.heard + (s.outgoing + [NextEntry(s, evt)]) == s.heard + s.outgoing + [NextEntry(s, evt)];
    hide Rising;
  }

  lemma {:induction false} AllotFits(s: Stream, evt: CafeEvent)
    requires Fits(s)
    ensures Fits(Take(s, Allot(evt)))
  {
    hide Visible, Allocate, Matches;
    AllocatedFits(s, evt);
    hide Rising;
  }

  lemma {:induction false} ResendFits(s: Stream, evt: CafeEvent)
    requires Fits(s) && CanStep(s, Resend(evt))
    ensures Fits(Take(s, Resend(evt)))
  {
    hide Visible, Allocate;
    AllocatedFits(s, evt);
    RisingAppend(s.resent, NextEntry(s, evt));
    NothingVisible(s.ctx);
    assert s.got + [] == s.got && s.replayed + s.resent + [] == s.replayed + s.resent;
    assert s.replayed + (s.resent + [NextEntry(s, evt)]) == s.replayed + s.resent + [NextEntry(s, evt)];
    hide Rising;
  }

  /** An entry is forwarded to a connection that has subscribed. */
  lemma {:induction false} ForwardedFits(s: Stream)
    requires Fits(s) && CanStep(s, Forward) && s.stage.Live?
    ensures LogFits(Take(s, Forward)) && HearsFits(Take(s, Forward))
  {
    hide Visible, Matches, Rising;
    var t, e := Take(s, Forward), s.outgoing[0];
    assert s.outgoing == [e] + s.outgoing[1..];
    assert t.heard + t.outgoing == s.heard + s.outgoing;
    assert e in s.heard + s.outgoing;
  }

  lemma {:induction false} ForwardedGot(s: Stream)
    requires GotFits(s) && CanStep(s, Forward) && s.stage.Live?
    ensures GotFits(Take(s, Forward))
  {
    hide Visible, Matches;
    var e := s.outgoing[0];
    VisibleAppend(s.inbox, e, s.ctx);
    VisibleAppend(s.heard, e, s.ctx);
    var v := if Matches(e, s.ctx) then [e] else [];
    assert s.got + (Visible(s.inbox, s.ctx) + v) == s.got + Visible(s.inbox, s.ctx) + v;
    assert s.replayed + s.resent + (Visible(s.heard, s.ctx) + v) == s.replayed + s.resent + Visible(s.heard, s.ctx) + v;
  }

  /** An entry is forwarded before the connection has subscribed. */
  lemma {:induction false} PassedByFits(s: Stream)
    requires Fits(s) && CanStep(s, Forward) && s.stage.Replayed?
    ensures Fits(Take(s, Forward))
  {
    hide Visible, Matches;
    var t := Take(s, Forward);
    assert t.heard + t.outgoing == s.outgoing[1..] && s.heard + s.outgoing == s.outgoing;
  }

  lemma {:induction false} ForwardFits(s: Stream)
    requires Fits(s) && CanStep(s, Forward)
    ensures Fits(Take(s, Forward))
  {
    hide LogFits, HearsFits, GotFits, Take;
    if s.stage.Live? {
      ForwardedFits(s);
      ForwardedGot(s);
    } else {
      PassedByFits(s);
    }
  }

  lemma {:induction false} SubscribeFits(s: Stream)
    requires Fits(s) && CanStep(s, Subscribe)
    ensures Fits(Take(s, Subscribe))
  {
    hide Visible, Matches, Rising;
    assert s.heard + s.outgoing == s.outgoing;
  }

  lemma {:induction false} EchoKeepsCounter(c: Channel, e: StreamEntry)
    requires e.id <= c.counter
    ensures Remember(c, Some(e)).counter == c.counter
  {
  }

  lemma {:induction false} HandleFits(s: Stream)
    requires Fits(s) && CanStep(s, Handle)
    ensures Fits(Take(s, Handle))
  {
    hide Visible, Matches, Remember, Rising;
    var e, rest := s.inbox[0], s.inbox[1..];
    EchoKeepsCounter(s.channel, e);
    assert s.inbox == [e] + rest;
    VisibleConcat([e], rest, s.ctx);
    VisibleOne(e, s.ctx);
    var v := if Matches(e, s.ctx) then [e] else [];
    assert s.got + v + Visible(rest, s.ctx) == s.got + (v + Visible(rest, s.ctx));
  }

  lemma {:induction false} VisibleOne(e: StreamEntry, ctx: SseContext)
    ensures Visible([e], ctx) == if Matches(e, ctx) then [e] else []
  {
    VisibleAppend([], e, ctx);
    NothingVisible(ctx);
    assert [] + [e] == [e];
  }

  lemma {:induction false} EchoFits(s: Stream, k: nat)
    requires Fits(s) && CanStep(s, EchoElsewhere(k))
    ensures Fits(Take(s, EchoElsewhere(k)))
  {
    hide Visible, Matches, Remember, Rising;
    EchoKeepsCounter(s.channel, s.log[k]);
  }

  lemma {:induction false} TakeFits(s: Stream, st: Step)
    requires Fits(s) && CanStep(s, st)
    ensures Fits(Take(s, st))
  {
    hide Fits, Take;
    match st
    case Announce(evt) => AnnounceFits(s, evt);
    case Allot(evt) => AllotFits(s, evt);
    case Resend(evt) => ResendFits(s, evt);
    case Forward => ForwardFits(s);
    case Subscribe => SubscribeFits(s);
    case Handle => HandleFits(s);
    case EchoElsewhere(k) => EchoFits(s, k);
  }

  /** The parts of the connection that no later step changes. */
  ghost predicate SameConnection(s: Stream, t: Stream) {
    && t.ctx == s.ctx && t.connectedAt == s.connectedAt && t.replayed == s.replayed
    && |s.log| <= |t.log| && t.log[..|s.log|] == s.log
  }

  lemma {:induction false} TakeSameConnection(s: Stream, st: Step)
    requires CanStep(s, st)
    ensures SameConnection(s, Take(s, st))
  {
    hide Allocate, Remember, Matches;
  }

  lemma {:induction false} FitsHolds(s: Stream, steps: seq<Step>)
    requires Fits(s) && CanRun(s, steps)
    ensures Fits(After(s, steps)) && SameConnection(s, After(s, steps))
    decreases |steps|
  {
    hide Fits, Take, CanStep;
    if |steps| > 0 {
      TakeFits(s, steps[0]);
      TakeSameConnection(s, steps[0]);
      FitsHolds(Take(s, steps[0]), steps[1..]);
    }
  }

  // ---- What the client gets ----------------------------------------------------

  lemma {:induction false} VisibleRises(es: seq<StreamEntry>, ctx: SseContext)
    requires Rising(es)
    ensures Rising(Visible(es, ctx))
  {
    hide Matches;
    if |es| > 0 {
      var front, e := es[..|es| - 1], es[|es| - 1];
      VisibleRises(front, ctx);
      VisibleMembers(front, ctx);
      assert forall x :: x in front ==> x.id < e.id;
      RisingAppend(Visible(front, ctx), e);
    }
  }

  lemma {:induction false} RisingFront(xs: seq<StreamEntry>, m: nat)
    requires Rising(xs) && |xs| == m + 1
    ensures Rising(xs[..m]) && forall e :: e in xs[..m] <==> e in xs && e != xs[m]
  {
    assert xs == xs[..m] + [xs[m]];
  }

  lemma {:induction false} RisingLastsAgree(xs: seq<StreamEntry>, ys: seq<StreamEntry>)
    requires Rising(xs) && Rising(ys) && |xs| > 0 && |ys| > 0 && forall e :: e in xs <==> e in ys
    ensures xs[|xs| - 1] == ys[|ys| - 1]
  {
    assert xs[|xs| - 1] in ys && ys[|ys| - 1] in xs;
  }

  lemma {:induction false} RisingUnique(xs: seq<StreamEntry>, ys: seq<StreamEntry>)
    requires Rising(xs) && Rising(ys) && forall e :: e in xs <==> e in ys
    ensures xs == ys
    decreases |xs|
  {
    hide Rising;
    assert |xs| > 0 ==> xs[0] in ys;
    assert |ys| > 0 ==> ys[0] in xs;
    if |xs| > 0 {
      var m, n := |xs| - 1, |ys| - 1;
      RisingLastsAgree(xs, ys);
      RisingFront(xs, m);
      RisingFront(ys, n);
      forall e
        ensures e in xs[..m] <==> e in ys[..n]
      {
        assert e in xs[..m] <==> e in xs && e != xs[m];
      }
      RisingUnique(xs[..m], ys[..n]);
      assert xs == xs[..m] + [xs[m]] && ys == ys[..n] + [ys[n]];
    }
  }

  /** Every visible entry after the replay was re-sent by this connection, or was still outgoing when
      it subscribed, or was published after that. */
  ghost predicate NoneMissed(s: Stream) {
    forall e :: e in s.log && Matches(e, s.ctx) && e.id > s.connectedAt ==>
      e in s.resent || if e.id <= s.subscribedAt then e in s.waiting else e.id !in s.silent
  }

  /** No visible entry that the replay covers was still outgoing at the subscription. */
  ghost predicate NoneTwice(s: Stream) {
    forall e :: e in s.waiting && Matches(e, s.ctx) ==> e.id > s.connectedAt
  }

  /** No visible entry that was outgoing at the subscription is older than a re-sent command. */
  ghost predicate NoneLate(s: Stream) {
    forall r, e :: r in s.resent && e in s.waiting && Matches(e, s.ctx) ==> r.id < e.id
  }

  predicate Quiet(s: Stream) {
    s.stage.Live? && s.outgoing == [] && s.inbox == []
  }

  lemma {:induction false} HeardExactly(s: Stream)
    requires Fits(s) && Quiet(s)
    ensures Rising(s.heard) && InLog(s.log, s.heard)
    ensures forall e :: e in s.log ==> (e in s.heard <==> e in s.waiting || (e.id > s.subscribedAt && e.id !in s.silent))
    ensures s.got == s.replayed + s.resent + Visible(s.heard, s.ctx)
  {
    hide Visible, Matches;
    assert s.heard + s.outgoing == s.heard;
    NothingVisible(s.ctx);
    assert s.got + [] == s.got;
  }

  lemma {:induction false} TailMembers(log: seq<StreamEntry>, c: nat)
    requires Numbered(log) && c <= |log|
    ensures Rising(log[c..]) && forall e :: e in log[c..] <==> e in log && e.id > c
  {
    forall e
      ensures e in log[c..] <==> e in log && e.id > c
    {
      if e in log && e.id > c {
        var i :| 0 <= i < |log| && log[i] == e;
        assert log[c..][i - c] == e;
      }
    }
  }

  /** After the replay the client gets exactly the visible rest of the log. */
  lemma {:induction false} RestExactly(s: Stream)
    requires Fits(s) && Quiet(s)
    ensures s.resent + Visible(s.heard, s.ctx) == Visible(s.log[s.connectedAt..], s.ctx)
            <==> NoneMissed(s) && NoneTwice(s) && NoneLate(s)
  {
    HeardExactly(s);
    VisibleMembers(s.heard, s.ctx);
    VisibleRises(s.heard, s.ctx);
    TailMembers(s.log, s.connectedAt);
    VisibleMembers(s.log[s.connectedAt..], s.ctx);
    VisibleRises(s.log[s.connectedAt..], s.ctx);
    var xs, ys := s.resent + Visible(s.heard, s.ctx), Visible(s.log[s.connectedAt..], s.ctx);
    LogMembers(s.log, s.resent);
    LogMembers(s.log, s.heard);
    LogMembers(s.log, s.waiting);
    hide Visible, Matches, GotFits;
    if NoneMissed(s) && NoneTwice(s) && NoneLate(s) {
      SentInOrder(s);
      SentIsRest(s);
      RisingUnique(xs, ys);
    }
    if xs == ys {
      RestIsSent(s);
    }
  }

  lemma {:induction false} LogMembers(log: seq<StreamEntry>, xs: seq<StreamEntry>)
    requires InLog(log, xs)
    ensures forall x :: x in xs ==> x in log
  {
  }

  lemma {:induction false} RisingConcat(xs: seq<StreamEntry>, ys: seq<StreamEntry>)
    requires Rising(xs) && Rising(ys) && forall x, y :: x in xs && y in ys ==> x.id < y.id
    ensures Rising(xs + ys)
  {
  }

  /** What is heard visibly is younger than every re-sent command. */
  lemma {:induction false} HeardAfterResent(s: Stream)
    requires Fits(s) && Quiet(s) && NoneLate(s)
    ensures forall r, e :: r in s.resent && e in Visible(s.heard, s.ctx) ==> r.id < e.id
  {
    HeardExactly(s);
    VisibleMembers(s.heard, s.ctx);
    LogMembers(s.log, s.heard);
    hide Visible, Matches, GotFits, LogFits, Rising, InLog;
  }

  lemma {:induction false} SentInOrder(s: Stream)
    requires Fits(s) && Quiet(s) && NoneLate(s)
    ensures Rising(s.resent + Visible(s.heard, s.ctx))
  {
    HeardExactly(s);
    VisibleRises(s.heard, s.ctx);
    HeardAfterResent(s);
    hide Visible, GotFits, HearsFits, NoneLate, Rising, InLog, Matches;
    RisingConcat(s.resent, Visible(s.heard, s.ctx));
  }

  lemma {:induction false} SentIsRest(s: Stream)
    requires Fits(s) && Quiet(s) && NoneMissed(s) && NoneTwice(s)
    ensures forall e :: e in s.resent + Visible(s.heard, s.ctx) <==> e in Visible(s.log[s.connectedAt..], s.ctx)
  {
    HeardExactly(s);
    VisibleMembers(s.heard, s.ctx);
    TailMembers(s.log, s.connectedAt);
    VisibleMembers(s.log[s.connectedAt..], s.ctx);
    LogMembers(s.log, s.resent);
    LogMembers(s.log, s.heard);
    hide Visible, Matches, GotFits, Rising, InLog, Numbered;
  }

  lemma {:induction false} RisingParts(xs: seq<StreamEntry>, ys: seq<StreamEntry>)
    requires Rising(xs + ys)
    ensures forall x, y :: x in xs && y in ys ==> x.id < y.id
  {
    forall x, y | x in xs && y in ys
      ensures x.id < y.id
    {
      var i :| 0 <= i < |xs| && xs[i] == x;
      var j :| 0 <= j < |ys| && ys[j] == y;
      assert (xs + ys)[i] == x && (xs + ys)[|xs| + j] == y;
    }
  }

  lemma {:induction false} RestIsInOrder(s: Stream)
    requires Fits(s) && Quiet(s) && s.resent + Visible(s.heard, s.ctx) == Visible(s.log[s.connectedAt..], s.ctx)
    ensures NoneLate(s)
  {
    HeardExactly(s);
    VisibleMembers(s.heard, s.ctx);
    TailMembers(s.log, s.connectedAt);
    VisibleRises(s.log[s.connectedAt..], s.ctx);
    LogMembers(s.log, s.waiting);
    RisingParts(s.resent, Visible(s.heard, s.ctx));
    hide Visible, Matches, GotFits, LogFits, Rising, InLog;
    assert forall e :: e in s.waiting ==> e in s.heard;
  }

  lemma {:induction false} SentMembers(s: Stream)
    requires Fits(s) && Quiet(s) && s.resent + Visible(s.heard, s.ctx) == Visible(s.log[s.connectedAt..], s.ctx)
    ensures forall e :: e in s.resent || (e in s.heard && Matches(e, s.ctx)) <==>
                        e in s.log && e.id > s.connectedAt && Matches(e, s.ctx)
  {
    VisibleMembers(s.heard, s.ctx);
    TailMembers(s.log, s.connectedAt);
    VisibleMembers(s.log[s.connectedAt..], s.ctx);
    var xs := s.resent + Visible(s.heard, s.ctx);
    hide Visible, Matches, GotFits, HearsFits, LogFits, Rising, Numbered;
    assert forall e :: e in xs <==> e in s.resent || e in Visible(s.heard, s.ctx);
  }

  lemma {:induction false} RestIsSent(s: Stream)
    requires Fits(s) && Quiet(s) && s.resent + Visible(s.heard, s.ctx) == Visible(s.log[s.connectedAt..], s.ctx)
    ensures NoneMissed(s) && NoneTwice(s) && NoneLate(s)
  {
    RestIsInOrder(s);
    SentMembers(s);
    HeardExactly(s);
    LogMembers(s.log, s.waiting);
    hide Visible, Matches, GotFits, NoneLate, Rising, InLog, LogFits;
  }

  /** Over every run of a connection: once all is quiet, a client that had everything up to `last`,
      with the ring reaching back that far, has got the whole visible log, in order and each entry
      once, if and only if nothing visible was missed, nothing was sent twice, and nothing late. */
  lemma {:induction false} StreamIsCompleteExactly(channel: Channel, log: seq<StreamEntry>, outgoing: seq<StreamEntry>,
                                                   last: nat, ctx: SseContext, steps: seq<Step>)
    requires Mirrors(channel, log) && Oldest(log) <= last <= |log| && InLog(log, outgoing) && Rising(outgoing)
    requires CanRun(Connect(channel, log, outgoing, Some(last), ctx), steps)
    requires Quiet(After(Connect(channel, log, outgoing, Some(last), ctx), steps))
    ensures var s := After(Connect(channel, log, outgoing, Some(last), ctx), steps);
            Visible(log[..last], ctx) + s.got == Visible(s.log, ctx) <==> NoneMissed(s) && NoneTwice(s) && NoneLate(s)
  {
    hide CanRun, After, Visible, GetReplay, Matches, Fits, Mirrors, InLog, Rising, NoneMissed, NoneTwice, NoneLate;
    var s0 := Connect(channel, log, outgoing, Some(last), ctx);
    ConnectFits(channel, log, outgoing, Some(last), ctx);
    FitsHolds(s0, steps);
    var s := After(s0, steps);
    HeardExactly(s);
    RestExactly(s);
    ReplayCompletesLog(channel, log, last, ctx);
    NothingVisible(ctx);
    VisibleConcat(log, s.log[|log|..], ctx);
    assert log + s.log[|log|..] == s.log;
    var before, rest := Visible(log, ctx), Visible(s.log[|log|..], ctx);
    var sent := s.resent + Visible(s.heard, ctx);
    assert Visible(log[..last], ctx) + s.got == before + sent by {
      assert s.got == s.replayed + sent;
      assert Visible(log[..last], ctx) + (s.replayed + sent) == Visible(log[..last], ctx) + s.replayed + sent;
    }
    assert before + sent == before + rest <==> sent == rest by {
      assert (before + sent)[|before|..] == sent && (before + rest)[|before|..] == rest;
    }
  }

  /** Over every run of a connection, quiet or not, a client is sent nothing that is not for it: an entry
      that a PC is sent is for all PCs or for this one, and what the kitchen is sent is an order update.
      What it is sent was published or allocated, and re-sent or replayed entries are no exception. */
  lemma {:induction false} NothingForeignIsSent(channel: Channel, log: seq<StreamEntry>, outgoing: seq<StreamEntry>,
                                                last: Option<int>, ctx: SseContext, steps: seq<Step>)
    requires Mirrors(channel, log) && InLog(log, outgoing) && Rising(outgoing)
    requires CanRun(Connect(channel, log, outgoing, last, ctx), steps)
    ensures var s := After(Connect(channel, log, outgoing, last, ctx), steps);
            forall e :: e in s.got ==>
              && e in s.log
              && match ctx
                 case Kitchen => e.event == "order.updated"
                 case AdminConsole => true
                 case Pc(pc) => e.pc == None || e.pc == pc
  {
    hide CanRun, After, Visible, Newer, Fits, Matches, GetReplay;
    var s0 := Connect(channel, log, outgoing, last, ctx);
    ConnectFits(channel, log, outgoing, last, ctx);
    FitsHolds(s0, steps);
    var s := After(s0, steps);
    forall e | e in s.got
      ensures e in s.log && Matches(e, ctx)
    {
      SentIsVisible(s, e);
      if e in s.replayed {
        ReplayHoldsExactly(channel, last, ctx, e);
        MatchesExactly(e, ctx);
        assert e in log && e in s.log[..|log|];
      }
    }
    forall e | e in s.got
      ensures match ctx
              case Kitchen => e.event == "order.updated"
              case AdminConsole => true
              case Pc(pc) => e.pc == None || e.pc == pc
    {
      MatchesExactly(e, ctx);
    }
  }

  lemma {:induction false} MatchesExactly(e: StreamEntry, ctx: SseContext)
    ensures Matches(e, ctx) <==>
              match ctx
              case Kitchen => e.event == "order.updated"
              case AdminConsole => true
              case Pc(pc) => e.pc == None || e.pc == pc
  {
  }

  lemma {:induction false} SentIsVisible(s: Stream, e: StreamEntry)
    requires Fits(s) && e in s.got
    ensures e in s.replayed || (e in s.log && Matches(e, s.ctx))
  {
    hide Visible, Matches, Rising;
    VisibleMembers(s.heard, s.ctx);
    LogMembers(s.log, s.resent);
    LogMembers(s.log, s.heard + s.outgoing);
    assert e in s.got + Visible(s.inbox, s.ctx);
    assert e in s.replayed + s.resent + Visible(s.heard, s.ctx);
    assert e in s.heard ==> e in s.heard + s.outgoing;
  }

  // ---- Runs that fall short ----------------------------------------------------

  lemma {:induction false} RunNothing(s: Stream)
    ensures CanRun(s, []) && After(s, []) == s
  {
  }

  lemma {:induction false} RunNext(s: Stream, st: Step, steps: seq<Step>)
    requires CanStep(s, st) && CanRun(Take(s, st), steps)
    ensures CanRun(s, [st] + steps) && After(s, [st] + steps) == After(Take(s, st), steps)
  {
    hide CanStep, Take;
    assert ([st] + steps)[1..] == steps;
  }

  /** An up-to-date stream of the admin console is live. A PC reconnects, and its connection re-sends a
      pending command; then anything is published. The console gets the second entry only, although
      the first one is visible to it too, and no replay after that brings it. */
  lemma {:induction false} ReconnectIsUnseen(channel: Channel, log: seq<StreamEntry>, command: CafeEvent, evt: CafeEvent,
                                             ring: Channel, ctx: SseContext)
    requires Mirrors(channel, log)
    ensures var s := Connect(channel, log, [], Some(|log|), AdminConsole);
            var missed, seen := EntryOf(command, |log| + 1), EntryOf(evt, |log| + 2);
            var steps := [Subscribe] + ([Allot(command)] + ([Announce(evt)] + ([Forward] + ([Handle] + []))));
            && CanRun(s, steps) && Quiet(After(s, steps)) && After(s, steps).log == log + [missed] + [seen]
            && After(s, steps).got == [seen] && missed !in GetReplay(ring, Some(seen.id), ctx)
  {
    hide CanRun, After, GetReplay, Allocate, Remember;
    var s := Connect(channel, log, [], Some(|log|), AdminConsole);
    UpToDate(channel, log, AdminConsole);
    AllocateCounts(channel, command);
    AllocateCounts(Allocate(channel, command), evt);
    MissedForGood(ring, EntryOf(command, |log| + 1), |log| + 2, ctx);
    var s1 := Take(s, Subscribe);
    var s2 := Take(s1, Allot(command));
    var s3 := Take(s2, Announce(evt));
    var s4 := Take(s3, Forward);
    var s5 := Take(s4, Handle);
    RunNothing(s5);
    RunNext(s4, Handle, []);
    RunNext(s3, Forward, [Handle] + []);
    RunNext(s2, Announce(evt), [Forward] + ([Handle] + []));
    RunNext(s1, Allot(command), [Announce(evt)] + ([Forward] + ([Handle] + [])));
    RunNext(s, Subscribe, [Allot(command)] + ([Announce(evt)] + ([Forward] + ([Handle] + []))));
  }

  lemma {:induction false} UpToDate(channel: Channel, log: seq<StreamEntry>, ctx: SseContext)
    requires Mirrors(channel, log)
    ensures GetReplay(channel, Some(|log|), ctx) == []
  {
    NewerNone(channel.entries, |log|);
  }

  /** What is published and forwarded between the replay and the subscription is never sent. */
  lemma {:induction false} GapIsUnseen(channel: Channel, log: seq<StreamEntry>, evt: CafeEvent, ctx: SseContext)
    requires Mirrors(channel, log) && Matches(EntryOf(evt, |log| + 1), ctx)
    ensures var s := Connect(channel, log, [], Some(|log|), ctx);
            var steps := [Announce(evt)] + ([Forward] + ([Subscribe] + []));
            && CanRun(s, steps) && Quiet(After(s, steps)) && After(s, steps).log == log + [EntryOf(evt, |log| + 1)]
            && After(s, steps).got == []
  {
    hide CanRun, After, GetReplay, Allocate;
    var s := Connect(channel, log, [], Some(|log|), ctx);
    UpToDate(channel, log, ctx);
    var s1 := Take(s, Announce(evt));
    var s2 := Take(s1, Forward);
    var s3 := Take(s2, Subscribe);
    RunNothing(s3);
    RunNext(s2, Subscribe, []);
    RunNext(s1, Forward, [Subscribe] + []);
    RunNext(s, Announce(evt), [Forward] + ([Subscribe] + []));
  }

  /** An entry that is in the replay but forwarded only after the subscription is sent twice. */
  lemma {:induction false} ReplayedIsHeardAgain(channel: Channel, log: seq<StreamEntry>, e: StreamEntry, last: Option<int>, ctx: SseContext)
    requires e in log && Matches(e, ctx)
    ensures var s := Connect(channel, log, [e], last, ctx);
            var steps := [Subscribe] + ([Forward] + ([Handle] + []));
            && CanRun(s, steps) && Quiet(After(s, steps)) && After(s, steps).log == log
            && After(s, steps).got == GetReplay(channel, last, ctx) + [e]
  {
    hide CanRun, After, GetReplay, Remember;
    var s := Connect(channel, log, [e], last, ctx);
    var s1 := Take(s, Subscribe);
    var s2 := Take(s1, Forward);
    var s3 := Take(s2, Handle);
    RunNothing(s3);
    RunNext(s2, Handle, []);
    RunNext(s1, Forward, [Handle] + []);
    RunNext(s, Subscribe, [Forward] + ([Handle] + []));
  }

  /** A pending command overtakes an entry that was published before it: the ids fall. */
  lemma {:induction false} CommandOvertakes(channel: Channel, log: seq<StreamEntry>, evt: CafeEvent, command: CafeEvent, pc: nat)
    requires Mirrors(channel, log) && evt.pc.None? && command.pc == Some(pc)
    ensures var s := Connect(channel, log, [], Some(|log|), Pc(Some(pc)));
            var steps := [Announce(evt)] + ([Resend(command)] + ([Subscribe] + ([Forward] + ([Handle] + []))));
            && CanRun(s, steps) && Quiet(After(s, steps))
            && After(s, steps).got == [EntryOf(command, |log| + 2)] + [EntryOf(evt, |log| + 1)]
  {
    hide CanRun, After, GetReplay, Allocate, Remember;
    var ctx := Pc(Some(pc));
    var s := Connect(channel, log, [], Some(|log|), ctx);
    UpToDate(channel, log, ctx);
    AllocateCounts(channel, evt);
    var s1 := Take(s, Announce(evt));
    var s2 := Take(s1, Resend(command));
    var s3 := Take(s2, Subscribe);
    var s4 := Take(s3, Forward);
    var s5 := Take(s4, Handle);
    RunNothing(s5);
    RunNext(s4, Handle, []);
    RunNext(s3, Forward, [Handle] + []);
    RunNext(s2, Subscribe, [Forward] + ([Handle] + []));
    RunNext(s1, Resend(command), [Subscribe] + ([Forward] + ([Handle] + [])));
    RunNext(s, Announce(evt), [Resend(command)] + ([Subscribe] + ([Forward] + ([Handle] + []))));
  }
}
