/** One cafe's event channel: ids, a ring of the last 200 entries, and replay after a
    reconnect. Payloads are their JSON text. */
module Realtime {
  import opened Domain

  const RING_SIZE := 200

  datatype CafeEvent = CafeEvent(event: string, data: string, pc: Option<nat>)

  datatype StreamEntry = StreamEntry(id: int, event: string, data: string, pc: Option<nat>)

  datatype Channel = Channel(entries: seq<StreamEntry>, seen: set<int>, counter: int)

  // ---- Specification -----------------------------------------------------------

  function Push(c: Channel, e: StreamEntry): Channel {
    var entries := c.entries + [e];
    if |entries| > RING_SIZE then c.(entries := entries[1..], seen := c.seen + {e.id} - {entries[0].id})
    else c.(entries := entries, seen := c.seen + {e.id})
  }

  function EntryOf(evt: CafeEvent, id: int): StreamEntry {
    StreamEntry(id, evt.event, evt.data, evt.pc)
  }

  function Allocate(c: Channel, evt: CafeEvent): Channel {
    var id := c.counter + 1;
    var counted := c.(counter := id);
    if id in c.seen then counted else Push(counted, EntryOf(evt, id))
  }

  /** `parsed` is None if the message is no entry. */
  function Remember(c: Channel, parsed: Option<StreamEntry>): Channel {
    if parsed.None? || parsed.value.id in c.seen then c
    else
      var pushed := Push(c, parsed.value);
      if parsed.value.id > c.counter then pushed.(counter := parsed.value.id) else pushed
  }

  datatype SseContext = Pc(pc: Option<nat>) | AdminConsole | Kitchen

  predicate Matches(e: StreamEntry, ctx: SseContext) {
    match ctx
    case Kitchen => e.event == "order.updated"
    case AdminConsole => true
    case Pc(pc) => e.pc.None? || e.pc == pc
  }

  /** The entries that the context may see. */
  function Visible(es: seq<StreamEntry>, ctx: SseContext): seq<StreamEntry> {
    if |es| == 0 then []
    else Visible(es[..|es| - 1], ctx) + if Matches(es[|es| - 1], ctx) then [es[|es| - 1]] else []
  }

  function Newer(es: seq<StreamEntry>, last: Option<int>): seq<StreamEntry> {
    if |es| == 0 then []
    else Newer(es[..|es| - 1], last) + if last.None? || es[|es| - 1].id > last.value then [es[|es| - 1]] else []
  }

  function GetReplay(c: Channel, last: Option<int>, ctx: SseContext): seq<StreamEntry> {
    Visible(Newer(c.entries, last), ctx)
  }

  // ---- The channel as it is executed -------------------------------------------

  class ChannelState {
    var entries: seq<StreamEntry>
    var seen: set<int>
    var counter: int

    constructor ()
      ensures View() == Channel([], {}, 0)
    {
      entries, seen, counter := [], {}, 0;
    }

    function View(): Channel
      reads this
    {
      Channel(entries, seen, counter)
    }

    method PushAndDrop(entry: StreamEntry)
      modifies this
      ensures View() == Push(old(View()), entry)
    {
      seen := seen + {entry.id};
      entries := entries + [entry];
      if |entries| > RING_SIZE {
        var dropped := entries[0];
        entries := entries[1..];
        seen := seen - {dropped.id};
      }
    }

    method AllocateEntry(evt: CafeEvent) returns (entry: StreamEntry)
      modifies this
      ensures View() == Allocate(old(View()), evt) && entry == EntryOf(evt, old(counter) + 1)
    {
      counter := counter + 1;
      entry := StreamEntry(counter, evt.event, evt.data, evt.pc);
      if entry.id !in seen {
        PushAndDrop(entry);
      }
    }

    method RememberRemoteEntry(parsed: Option<StreamEntry>)
      modifies this
      ensures View() == Remember(old(View()), parsed)
    {
      if parsed.None? { return; }
      if parsed.value.id in seen { return; }
      PushAndDrop(parsed.value);
      while parsed.value.id > counter
        invariant View() == Push(old(View()), parsed.value).(counter := counter)
        invariant old(counter) <= counter && (counter <= parsed.value.id || counter == old(counter))
      {
        counter := counter + 1;
      }
    }

    method Replay(last: Option<int>, ctx: SseContext) returns (found: seq<StreamEntry>)
      ensures found == GetReplay(View(), last, ctx)
    {
      hide Visible, Newer, Matches;
      found := [];
      ReplayNothing(last, ctx);
      assert entries[..0] == [];
      for i := 0 to |entries|
        invariant found == Visible(Newer(entries[..i], last), ctx)
      {
        var e := entries[i];
        ReplayStep(entries[..i], e, last, ctx);
        assert entries[..i + 1] == entries[..i] + [e];
        if (last.None? || e.id > last.value) && Matches(e, ctx) {
          found := found + [e];
        }
      }
      assert entries[..|entries|] == entries;
    }
  }

  lemma {:induction false} NewerAppend(es: seq<StreamEntry>, e: StreamEntry, last: Option<int>)
    ensures Newer(es + [e], last) == Newer(es, last) + if last.None? || e.id > last.value then [e] else []
  {
    assert (es + [e])[..|es|] == es;
  }

  lemma {:induction false} VisibleAppend(es: seq<StreamEntry>, e: StreamEntry, ctx: SseContext)
    ensures Visible(es + [e], ctx) == Visible(es, ctx) + if Matches(e, ctx) then [e] else []
  {
    assert (es + [e])[..|es|] == es;
  }

  lemma {:induction false} ReplayNothing(last: Option<int>, ctx: SseContext)
    ensures Visible(Newer([], last), ctx) == []
  {
  }

  lemma {:induction false} ReplayStep(es: seq<StreamEntry>, e: StreamEntry, last: Option<int>, ctx: SseContext)
    ensures Visible(Newer(es + [e], last), ctx)
         == Visible(Newer(es, last), ctx) + if (last.None? || e.id > last.value) && Matches(e, ctx) then [e] else []
  {
    hide Matches;
    NewerAppend(es, e, last);
    VisibleAppend(Newer(es, last), e, ctx);
    assert Newer(es, last) + [] == Newer(es, last);
    assert Visible(Newer(es, last), ctx) + [] == Visible(Newer(es, last), ctx);
  }

  // ---- With foreign entries ----------------------------------------------------

  /** Ids are distinct, `seen` is exactly the ring's ids, and no id is above the counter, so
      that the next local id is new. */
  ghost predicate Consistent(c: Channel) {
    && (forall i, j :: 0 <= i < j < |c.entries| ==> c.entries[i].id != c.entries[j].id)
    && (forall i :: 0 <= i < |c.entries| ==> c.entries[i].id in c.seen && c.entries[i].id <= c.counter)
    && (forall id :: id in c.seen ==> exists i :: 0 <= i < |c.entries| && c.entries[i].id == id)
  }

  ghost predicate Sane(c: Channel) {
    |c.entries| <= RING_SIZE && Consistent(c)
  }

  lemma {:induction false} AppendIsConsistent(c: Channel, e: StreamEntry)
    requires Consistent(c) && e.id !in c.seen && e.id <= c.counter
    ensures Consistent(c.(entries := c.entries + [e], seen := c.seen + {e.id}))
  {
    var t := c.(entries := c.entries + [e], seen := c.seen + {e.id});
    assert t.entries[|c.entries|].id == e.id;
    forall id | id in c.seen
      ensures exists i :: 0 <= i < |t.entries| && t.entries[i].id == id
    {
      var i :| 0 <= i < |c.entries| && c.entries[i].id == id;
      assert t.entries[i].id == id;
    }
  }

  lemma {:induction false} DropIsConsistent(c: Channel)
    requires Consistent(c) && |c.entries| > 0
    ensures Consistent(c.(entries := c.entries[1..], seen := c.seen - {c.entries[0].id}))
  {
    var t := c.(entries := c.entries[1..], seen := c.seen - {c.entries[0].id});
    forall id | id in t.seen
      ensures exists i :: 0 <= i < |t.entries| && t.entries[i].id == id
    {
      var i :| 0 <= i < |c.entries| && c.entries[i].id == id;
      assert t.entries[i - 1].id == id;
    }
  }

  lemma {:induction false} PushIsSane(c: Channel, e: StreamEntry)
    requires Sane(c) && e.id !in c.seen && e.id <= c.counter
    ensures Sane(Push(c, e))
    ensures Push(c, e).entries[|Push(c, e).entries| - 1] == e
  {
    hide Consistent;
    AppendIsConsistent(c, e);
    if |c.entries| == RING_SIZE {
      DropIsConsistent(c.(entries := c.entries + [e], seen := c.seen + {e.id}));
    }
  }

  lemma {:induction false} NewIdIsUnseen(c: Channel, id: int)
    requires Consistent(c) && id > c.counter
    ensures id !in c.seen && Consistent(c.(counter := id))
  {
  }

  datatype Act = Publish(evt: CafeEvent) | Receive(parsed: Option<StreamEntry>)

  function Perform(c: Channel, act: Act): Channel {
    match act
    case Publish(evt) => Allocate(c, evt)
    case Receive(parsed) => Remember(c, parsed)
  }

  function PerformAll(c: Channel, acts: seq<Act>): Channel {
    if |acts| == 0 then c else Perform(PerformAll(c, acts[..|acts| - 1]), acts[|acts| - 1])
  }

  lemma {:induction false} PerformIsSane(c: Channel, act: Act)
    requires Sane(c)
    ensures Sane(Perform(c, act))
    ensures act.Publish? ==> Perform(c, act).entries[|Perform(c, act).entries| - 1] == EntryOf(act.evt, c.counter + 1)
  {
    hide Consistent;
    match act
    case Publish(evt) =>
      NewIdIsUnseen(c, c.counter + 1);
      PushIsSane(c.(counter := c.counter + 1), EntryOf(evt, c.counter + 1));
    case Receive(parsed) =>
      if parsed.Some? && parsed.value.id !in c.seen {
        if parsed.value.id > c.counter {
          NewIdIsUnseen(c, parsed.value.id);
          PushIsSane(c.(counter := parsed.value.id), parsed.value);
        } else {
          PushIsSane(c, parsed.value);
        }
      }
  }

  /** Whatever local and foreign entries arrive, the channel stays sane. */
  lemma {:induction false} ChannelStaysSane(acts: seq<Act>)
    ensures Sane(PerformAll(Channel([], {}, 0), acts)) && |PerformAll(Channel([], {}, 0), acts).entries| <= 200
  {
    if |acts| > 0 {
      ChannelStaysSane(acts[..|acts| - 1]);
      PerformIsSane(PerformAll(Channel([], {}, 0), acts[..|acts| - 1]), acts[|acts| - 1]);
    }
  }

  // ---- One publisher -----------------------------------------------------------

  /** Entry i of the full log has id i + 1. */
  predicate Numbered(log: seq<StreamEntry>) {
    forall i :: 0 <= i < |log| ==> log[i].id == i + 1
  }

  function Oldest(log: seq<StreamEntry>): nat {
    if |log| <= RING_SIZE then 0 else |log| - RING_SIZE
  }

  /** The ring is exactly the last min(n, 200) entries of the log. */
  ghost predicate Mirrors(c: Channel, log: seq<StreamEntry>) {
    && Numbered(log) && c.counter == |log| && c.entries == log[Oldest(log)..]
    && forall id :: id in c.seen <==> Oldest(log) < id <= |log|
  }

  lemma {:induction false} PublishMirrors(c: Channel, log: seq<StreamEntry>, evt: CafeEvent)
    requires Mirrors(c, log)
    ensures Mirrors(Allocate(c, evt), log + [EntryOf(evt, |log| + 1)])
  {
    var e := EntryOf(evt, |log| + 1);
    var longer := log + [e];
    assert c.entries + [e] == longer[Oldest(log)..];
    if |c.entries| == RING_SIZE {
      assert longer[Oldest(log)..][1..] == longer[Oldest(longer)..];
    }
  }

  /** An echo of a published entry changes nothing exactly while the entry is in the ring. */
  lemma {:induction false} EchoIsHarmless(c: Channel, log: seq<StreamEntry>, k: nat)
    requires Mirrors(c, log) && k < |log|
    ensures Remember(c, Some(log[k])) == c <==> k >= Oldest(log)
    ensures Mirrors(Remember(c, Some(log[k])), log) <==> k >= Oldest(log)
  {
    if k < Oldest(log) {
      var t := Remember(c, Some(log[k]));
      assert t.entries[|t.entries| - 1] == log[k];
      assert log[Oldest(log)..][RING_SIZE - 1] == log[|log| - 1];
    }
  }

  /** What a single publisher's process sees: its own publications, and their echoes. */
  datatype Single = Emit(evt: CafeEvent) | Echo(k: nat)

  function FullLog(acts: seq<Single>): seq<StreamEntry> {
    if |acts| == 0 then []
    else
      var log := FullLog(acts[..|acts| - 1]);
      match acts[|acts| - 1]
      case Emit(evt) => log + [EntryOf(evt, |log| + 1)]
      case Echo(_) => log
  }

  function RingAfter(acts: seq<Single>): Channel {
    if |acts| == 0 then Channel([], {}, 0)
    else
      var c, log := RingAfter(acts[..|acts| - 1]), FullLog(acts[..|acts| - 1]);
      match acts[|acts| - 1]
      case Emit(evt) => Allocate(c, evt)
      case Echo(k) => if k < |log| then Remember(c, Some(log[k])) else c
  }

  /** Every echo returns while its entry is still in the ring. */
  predicate PromptEchoes(acts: seq<Single>) {
    |acts| > 0 ==>
      (PromptEchoes(acts[..|acts| - 1])
       && (acts[|acts| - 1].Echo? ==> acts[|acts| - 1].k >= Oldest(FullLog(acts[..|acts| - 1]))))
  }

  lemma {:induction false} RingMirrorsLog(acts: seq<Single>)
    requires PromptEchoes(acts)
    ensures Mirrors(RingAfter(acts), FullLog(acts))
  {
    if |acts| > 0 {
      var front := acts[..|acts| - 1];
      RingMirrorsLog(front);
      match acts[|acts| - 1]
      case Emit(evt) => PublishMirrors(RingAfter(front), FullLog(front), evt);
      case Echo(k) =>
        if k < |FullLog(front)| {
          EchoIsHarmless(RingAfter(front), FullLog(front), k);
        }
    }
  }

  lemma {:induction false} VisibleConcat(xs: seq<StreamEntry>, ys: seq<StreamEntry>, ctx: SseContext)
    ensures Visible(xs + ys, ctx) == Visible(xs, ctx) + Visible(ys, ctx)
    decreases |ys|
  {
    hide Matches;
    if |ys| == 0 {
      assert xs + ys == xs;
    } else {
      var front, e := ys[..|ys| - 1], ys[|ys| - 1];
      VisibleConcat(xs, front, ctx);
      VisibleAppend(xs + front, e, ctx);
      assert xs + ys == xs + front + [e];
    }
  }

  /** Of entries in id order, those newer than `last` are a suffix. */
  lemma {:induction false} NewerIsSuffix(es: seq<StreamEntry>, k: nat, last: int)
    requires k <= |es|
    requires forall i :: 0 <= i < k ==> es[i].id <= last
    requires forall i :: k <= i < |es| ==> es[i].id > last
    ensures Newer(es, Some(last)) == es[k..]
  {
    if k == |es| {
      NewerNone(es, last);
    } else {
      var n := |es| - 1;
      NewerIsSuffix(es[..n], k, last);
      assert es[k..] == es[..n][k..] + [es[n]];
    }
  }

  lemma {:induction false} NewerNone(es: seq<StreamEntry>, last: int)
    requires forall i :: 0 <= i < |es| ==> es[i].id <= last
    ensures Newer(es, Some(last)) == []
  {
    if |es| > 0 {
      NewerNone(es[..|es| - 1], last);
    }
  }

  /** A client that has everything up to `last` and asks for the rest gets the whole visible
      log without gap or repeat exactly if nothing visible was evicted in between; in
      particular whenever last >= n - 200. */
  lemma {:induction false} ReplayCompletesLog(c: Channel, log: seq<StreamEntry>, last: nat, ctx: SseContext)
    requires Mirrors(c, log) && last <= |log|
    ensures var missed := if last < Oldest(log) then log[last..Oldest(log)] else [];
            && (Visible(log[..last], ctx) + GetReplay(c, Some(last), ctx) == Visible(log, ctx) <==> Visible(missed, ctx) == [])
            && (last >= |log| - 200 ==> missed == [])
  {
    hide Visible, Newer;
    var oldest := Oldest(log);
    NewerIsSuffix(log[oldest..], if last < oldest then 0 else last - oldest, last);
    if last < oldest {
      assert log[oldest..][0..] == log[oldest..];
      VisibleSplit(log, last, oldest, ctx);
    } else {
      assert log[oldest..][last - oldest..] == log[last..];
      VisibleConcat(log[..last], log[last..], ctx);
      assert log == log[..last] + log[last..];
      NothingVisible(ctx);
    }
  }

  lemma {:induction false} NothingVisible(ctx: SseContext)
    ensures Visible([], ctx) == []
  {
  }

  lemma {:induction false} VisibleSplit(log: seq<StreamEntry>, a: nat, b: nat, ctx: SseContext)
    requires a <= b <= |log|
    ensures Visible(log[..a], ctx) + Visible(log[b..], ctx) == Visible(log, ctx) <==> Visible(log[a..b], ctx) == []
  {
    hide Visible;
    VisibleConcat(log[..a], log[a..b], ctx);
    VisibleConcat(log[..a] + log[a..b], log[b..], ctx);
    assert log == log[..a] + log[a..b] + log[b..];
    var x, y, z := Visible(log[..a], ctx), Visible(log[a..b], ctx), Visible(log[b..], ctx);
    assert |x + z| == |x + y + z| <==> |y| == 0;
    assert |y| == 0 ==> x + y == x;
  }

  // ---- What a replay holds -----------------------------------------------------

  /** A context is sent an entry exactly if: for a PC, the entry is for all PCs or for this one; for the
      kitchen, it is an order update; for the admin console, always. A replay holds exactly the
      ring's entries that are newer than the last id and that the context is sent. */
  lemma {:induction false} ReplayHoldsExactly(c: Channel, last: Option<int>, ctx: SseContext, e: StreamEntry)
    ensures e in GetReplay(c, last, ctx) <==>
              && e in c.entries && (last.Some? ==> last.value < e.id)
              && match ctx
                 case Kitchen => e.event == "order.updated"
                 case AdminConsole => true
                 case Pc(pc) => e.pc == None || e.pc == pc
  {
    VisibleMembers(Newer(c.entries, last), ctx);
    NewerMembers(c.entries, last);
  }

  lemma {:induction false} VisibleMembers(es: seq<StreamEntry>, ctx: SseContext)
    ensures forall e :: e in Visible(es, ctx) <==> e in es && Matches(e, ctx)
  {
    hide Matches;
    if |es| > 0 {
      VisibleMembers(es[..|es| - 1], ctx);
      assert es == es[..|es| - 1] + [es[|es| - 1]];
    }
  }

  lemma {:induction false} NewerMembers(es: seq<StreamEntry>, last: Option<int>)
    ensures forall e :: e in Newer(es, last) <==> e in es && (last.Some? ==> last.value < e.id)
  {
    if |es| > 0 {
      NewerMembers(es[..|es| - 1], last);
      assert es == es[..|es| - 1] + [es[|es| - 1]];
    }
  }

  /** What is published next is stored under the next id as it is, and is all that a client that was
      up to date is replayed, if it is sent it at all. */
  lemma {:induction false} PublishedIsReplayed(c: Channel, evt: CafeEvent, ctx: SseContext)
    requires Sane(c)
    ensures var e, t := StreamEntry(c.counter + 1, evt.event, evt.data, evt.pc), Allocate(c, evt);
            && t.counter == c.counter + 1 && |t.entries| > 0 && t.entries[|t.entries| - 1] == e
            && GetReplay(t, Some(c.counter), ctx) == if Matches(e, ctx) then [e] else []
  {
    hide Matches, GetReplay;
    NewIdIsUnseen(c, c.counter + 1);
    PushedIsReplayed(c.(counter := c.counter + 1), EntryOf(evt, c.counter + 1), c.counter, ctx);
  }

  /** A foreign entry with a new id is stored as it is and raises the counter if it is ahead of it; then
      it is all that a client that was up to date is replayed. One with a known id changes nothing. */
  lemma {:induction false} ForeignIsReplayed(c: Channel, e: StreamEntry, ctx: SseContext)
    requires Sane(c)
    ensures var t := Remember(c, Some(e));
            if exists k :: 0 <= k < |c.entries| && c.entries[k].id == e.id then t == c
            else
              && t.counter == (if e.id > c.counter then e.id else c.counter)
              && |t.entries| > 0 && t.entries[|t.entries| - 1] == e
              && (e.id > c.counter ==> GetReplay(t, Some(c.counter), ctx) == if Matches(e, ctx) then [e] else [])
  {
    hide Matches, GetReplay;
    SeenIsStored(c, e.id);
    if e.id !in c.seen {
      if e.id > c.counter {
        NewIdIsUnseen(c, e.id);
        PushedIsReplayed(c.(counter := e.id), e, c.counter, ctx);
      } else {
        hide Consistent;
        PushIsSane(c, e);
      }
    }
  }

  lemma {:induction false} SeenIsStored(c: Channel, id: int)
    requires Sane(c)
    ensures id in c.seen <==> exists k :: 0 <= k < |c.entries| && c.entries[k].id == id
  {
  }

  lemma {:induction false} PushedIsReplayed(c: Channel, e: StreamEntry, last: int, ctx: SseContext)
    requires Sane(c) && e.id !in c.seen && last < e.id <= c.counter
    requires forall i :: 0 <= i < |c.entries| ==> c.entries[i].id <= last
    ensures var t := Push(c, e);
            && t.counter == c.counter && |t.entries| > 0 && t.entries[|t.entries| - 1] == e
            && GetReplay(t, Some(last), ctx) == if Matches(e, ctx) then [e] else []
  {
    hide Matches, GetReplay;
    PushIsSane(c, e);
    hide Consistent;
    OnlyLastIsNewer(Push(c, e), last, ctx);
  }

  lemma {:induction false} OnlyLastIsNewer(c: Channel, last: int, ctx: SseContext)
    requires |c.entries| > 0 && c.entries[|c.entries| - 1].id > last
    requires forall i :: 0 <= i < |c.entries| - 1 ==> c.entries[i].id <= last
    ensures var e := c.entries[|c.entries| - 1]; GetReplay(c, Some(last), ctx) == if Matches(e, ctx) then [e] else []
  {
    hide Matches;
    var n := |c.entries| - 1;
    NewerIsSuffix(c.entries, n, last);
    VisibleAppend([], c.entries[n], ctx);
    assert c.entries[n..] == [] + [c.entries[n]];
  }

  /** What a client has missed stays missed: once its last id is beyond an entry, no replay brings
      that entry. */
  lemma {:induction false} MissedForGood(c: Channel, missed: StreamEntry, last: int, ctx: SseContext)
    requires missed.id <= last
    ensures missed !in GetReplay(c, Some(last), ctx)
  {
    ReplayHoldsExactly(c, Some(last), ctx, missed);
  }
}
