/** The event stream as text: the server's printer and the agent's incremental parser, for the
    format of sections 9.2.5 and 9.2.6 of the WHATWG HTML Living Standard. */
module Sse {
  import opened Domain
  import opened Realtime

  // ---- Numbers -----------------------------------------------------------------

  function Digit(n: nat): char
    requires n < 10
  {
    "0123456789"[n]
  }

  predicate IsDigit(c: char) {
    '0' <= c <= '9'
  }

  function DigitValue(c: char): nat
    requires IsDigit(c)
  {
    c as int - '0' as int
  }

  function Decimal(n: nat): (s: string)
    ensures |s| > 0 && forall i :: 0 <= i < |s| ==> IsDigit(s[i])
  {
    if n < 10 then [Digit(n)] else Decimal(n / 10) + [Digit(n % 10)]
  }

  function DigitsValue(s: string): nat
    requires forall i :: 0 <= i < |s| ==> IsDigit(s[i])
  {
    if |s| == 0 then 0 else 10 * DigitsValue(s[..|s| - 1]) + DigitValue(s[|s| - 1])
  }

  function LeadingDigits(s: string): (d: string)
    ensures forall i :: 0 <= i < |d| ==> IsDigit(d[i])
  {
    if |s| > 0 && IsDigit(s[0]) then [s[0]] + LeadingDigits(s[1..]) else []
  }

  /** `Number.parseInt(s, 10)`; None is NaN. */
  function ParseInt(s: string): Option<int> {
    var t := TrimStart(s);
    var negative := |t| > 0 && t[0] == '-';
    var digits := LeadingDigits(if |t| > 0 && (t[0] == '-' || t[0] == '+') then t[1..] else t);
    var value: int := DigitsValue(digits);
    if |digits| == 0 then None else Some(if negative then -value else value)
  }

  lemma {:induction false} LeadingDigitsOfDigits(s: string)
    requires forall i :: 0 <= i < |s| ==> IsDigit(s[i])
    ensures LeadingDigits(s) == s
  {
    if |s| > 0 {
      LeadingDigitsOfDigits(s[1..]);
    }
  }

  lemma {:induction false} DecimalValue(n: nat)
    ensures DigitsValue(Decimal(n)) == n
  {
    if n >= 10 {
      DecimalValue(n / 10);
      assert Decimal(n)[..|Decimal(n)| - 1] == Decimal(n / 10);
    } else {
      assert Decimal(n)[..0] == [];
    }
  }

  /** The server reads back from the Last-Event-ID header the id that it printed. */
  lemma {:induction false} HeaderRoundTrip(n: nat)
    ensures ParseInt(Decimal(n)) == Some(n)
  {
    var s := Decimal(n);
    assert IsDigit(s[0]) && !IsWhite(s[0]);
    LeadingDigitsOfDigits(s);
    DecimalValue(n);
  }

  lemma {:induction false} LeadingDigitsStop(s: string, rest: string)
    requires forall i :: 0 <= i < |s| ==> IsDigit(s[i])
    requires |rest| > 0 ==> !IsDigit(rest[0])
    ensures LeadingDigits(s + rest) == s
  {
    if |s| > 0 {
      LeadingDigitsStop(s[1..], rest);
      assert (s + rest)[1..] == s[1..] + rest;
    } else {
      assert s + rest == rest;
    }
  }

  /** Of a header only a leading number counts, with its sign; what does not begin with one is none. */
  lemma {:induction false} HeaderValue(n: nat, rest: string)
    requires |rest| > 0 ==> !IsDigit(rest[0])
    ensures ParseInt(Decimal(n) + rest) == ParseInt("+" + Decimal(n) + rest) == Some(n)
    ensures ParseInt("-" + Decimal(n) + rest) == Some(0 - n as int)
    ensures (|rest| > 0 ==> !IsWhite(rest[0]) && rest[0] != '+' && rest[0] != '-') ==> ParseInt(rest) == None
  {
    DecimalValue(n);
    UnsignedValue(Decimal(n), rest);
    SignedValue(Decimal(n), rest);
    LeadingDigitsStop("", rest);
    assert "" + rest == rest;
  }

  lemma {:induction false} UnsignedValue(s: string, rest: string)
    requires |s| > 0 && (forall i :: 0 <= i < |s| ==> IsDigit(s[i])) && (|rest| > 0 ==> !IsDigit(rest[0]))
    ensures ParseInt(s + rest) == Some(DigitsValue(s))
  {
    LeadingDigitsStop(s, rest);
    hide DigitsValue, LeadingDigits;
    assert (s + rest)[0] == s[0] && IsDigit(s[0]) && !IsWhite(s[0]);
  }

  lemma {:induction false} SignedValue(s: string, rest: string)
    requires |s| > 0 && (forall i :: 0 <= i < |s| ==> IsDigit(s[i])) && (|rest| > 0 ==> !IsDigit(rest[0]))
    ensures ParseInt("+" + s + rest) == Some(DigitsValue(s)) && ParseInt("-" + s + rest) == Some(0 - DigitsValue(s) as int)
  {
    LeadingDigitsStop(s, rest);
    hide DigitsValue, LeadingDigits;
    assert ("+" + s + rest)[1..] == s + rest && ("-" + s + rest)[1..] == s + rest;
    assert ("+" + s + rest)[0] == '+' && ("-" + s + rest)[0] == '-';
  }

  // ---- Strings -----------------------------------------------------------------

  predicate IsWhite(c: char) {
    || c == ' ' || '\t' <= c <= '\r' || c == '\U{85}' || c == '\U{A0}' || c == '\U{1680}'
    || '\U{2000}' <= c <= '\U{200A}' || c == '\U{2028}' || c == '\U{2029}' || c == '\U{202F}'
    || c == '\U{205F}' || c == '\U{3000}'
  }

  function TrimStart(s: string): string {
    if |s| > 0 && IsWhite(s[0]) then TrimStart(s[1..]) else s
  }

  function TrimEnd(s: string): string {
    if |s| > 0 && IsWhite(s[|s| - 1]) then TrimEnd(s[..|s| - 1]) else s
  }

  function Trim(s: string): string {
    TrimEnd(TrimStart(s))
  }

  predicate NoBreaks(s: string) {
    forall i :: 0 <= i < |s| ==> s[i] != '\n' && s[i] != '\r'
  }

  lemma {:induction false} TrimSpace(s: string)
    ensures |s| > 0 ==> !IsWhite(s[0]) ==> TrimStart(" " + s) == s
    ensures |s| == 0 ==> TrimStart(" " + s) == s
    ensures (|s| > 0 ==> !IsWhite(s[0]) && !IsWhite(s[|s| - 1])) ==> Trim(" " + s) == s
  {
    assert (" " + s)[1..] == s;
  }

  // ---- The printer -------------------------------------------------------------

  datatype Block = Message(e: StreamEntry) | Ping | Retry(ms: nat)

  /** What the server may put on the wire: names without line breaks or edge whitespace, and
      data on one line, as JSON.stringify writes it. */
  predicate Clean(b: Block) {
    b.Message? ==>
      && b.e.id >= 0
      && NoBreaks(b.e.event) && (|b.e.event| > 0 ==> !IsWhite(b.e.event[0]) && !IsWhite(b.e.event[|b.e.event| - 1]))
      && NoBreaks(b.e.data) && (|b.e.data| > 0 ==> !IsWhite(b.e.data[0]))
  }

  function Print(b: Block): string
    requires Clean(b)
  {
    match b
    case Message(e) => "id: " + Decimal(e.id) + "\nevent: " + e.event + "\ndata: " + e.data + "\n\n"
    case Ping => ":ping\n\n"
    case Retry(ms) => "retry: " + Decimal(ms) + "\n\n"
  }

  function PrintAll(bs: seq<Block>): string
    requires forall i :: 0 <= i < |bs| ==> Clean(bs[i])
  {
    if |bs| == 0 then "" else Print(bs[0]) + PrintAll(bs[1..])
  }

  // ---- Lines -------------------------------------------------------------------

  /** `StreamReader.ReadLine` until the end of the stream, `line` being read so far. */
  function ReadLines(text: string, line: string): seq<string>
    decreases |text|
  {
    if |text| == 0 then if |line| == 0 then [] else [line]
    else if text[0] == '\n' then [line] + ReadLines(text[1..], "")
    else if text[0] == '\r' then [line] + ReadLines(text[if |text| > 1 && text[1] == '\n' then 2 else 1..], "")
    else ReadLines(text[1..], line + [text[0]])
  }

  lemma {:induction false} ReadOneLine(line: string, rest: string, before: string)
    requires NoBreaks(line)
    ensures ReadLines(line + "\n" + rest, before) == [before + line] + ReadLines(rest, "")
    decreases |line|
  {
    var text := line + "\n" + rest;
    if |line| == 0 {
      assert text[1..] == rest && before + line == before;
    } else {
      assert text[1..] == line[1..] + "\n" + rest;
      ReadOneLine(line[1..], rest, before + [line[0]]);
      assert before + [line[0]] + line[1..] == before + line;
    }
  }

  /** A line ends at a line feed, a carriage return, or both; what follows the last break is a line,
      too, unless it is empty. */
  lemma {:induction false} LineEnds(line: string, brk: string, rest: string, before: string)
    requires NoBreaks(line)
    requires brk == "\n" || brk == "\r\n" || (brk == "\r" && (|rest| > 0 ==> rest[0] != '\n'))
    ensures ReadLines(line + brk + rest, before) == [before + line] + ReadLines(rest, "")
    ensures ReadLines(line, before) == if before + line == "" then [] else [before + line]
    decreases |line|
  {
    var text := line + brk + rest;
    if |line| == 0 {
      assert text == brk + rest && text[|brk|..] == rest && before + line == before;
    } else {
      assert text[1..] == line[1..] + brk + rest;
      LineEnds(line[1..], brk, rest, before + [line[0]]);
      assert before + [line[0]] + line[1..] == before + line;
    }
  }

  function LinesOf(b: Block): seq<string>
    requires Clean(b)
  {
    match b
    case Message(e) => ["id: " + Decimal(e.id), "event: " + e.event, "data: " + e.data, ""]
    case Ping => [":ping", ""]
    case Retry(ms) => ["retry: " + Decimal(ms), ""]
  }

  function AllLines(bs: seq<Block>): seq<string>
    requires forall i :: 0 <= i < |bs| ==> Clean(bs[i])
  {
    if |bs| == 0 then [] else LinesOf(bs[0]) + AllLines(bs[1..])
  }

  lemma {:induction false} DecimalHasNoBreaks(n: nat)
    ensures NoBreaks(Decimal(n))
  {
  }

  lemma {:induction false} ReadTwoLines(line: string, rest: string)
    requires NoBreaks(line)
    ensures ReadLines(line + "\n\n" + rest, "") == [line, ""] + ReadLines(rest, "")
  {
    assert line + "\n\n" + rest == line + "\n" + ("\n" + rest);
    ReadOneLine(line, "\n" + rest, "");
    assert "" + "\n" + rest == "\n" + rest && "" + line == line && "" + "" == "";
    ReadOneLine("", rest, "");
    assert [line] + ([""] + ReadLines(rest, "")) == [line, ""] + ReadLines(rest, "");
  }

  lemma {:induction false} ReadMessage(a: string, b: string, c: string, rest: string)
    requires NoBreaks(a) && NoBreaks(b) && NoBreaks(c)
    ensures ReadLines(a + "\n" + b + "\n" + c + "\n\n" + rest, "") == [a, b, c, ""] + ReadLines(rest, "")
  {
    var cs := c + "\n\n" + rest;
    var bs := b + "\n" + cs;
    assert a + "\n" + b + "\n" + c + "\n\n" + rest == a + "\n" + bs;
    ReadOneLine(a, bs, "");
    ReadOneLine(b, cs, "");
    assert "" + a == a && "" + b == b;
    ReadTwoLines(c, rest);
    assert [a] + ([b] + ([c, ""] + ReadLines(rest, ""))) == [a, b, c, ""] + ReadLines(rest, "");
  }

  lemma {:induction false} PrintMessage(e: StreamEntry)
    requires Clean(Message(e))
    ensures Print(Message(e)) == "id: " + Decimal(e.id) + "\n" + ("event: " + e.event) + "\n" + ("data: " + e.data) + "\n\n"
  {
    hide Decimal;
    assert "\nevent: " == "\n" + "event: " && "\ndata: " == "\n" + "data: ";
  }

  lemma {:induction false} PrefixHasNoBreaks(prefix: string, s: string)
    requires NoBreaks(prefix) && NoBreaks(s)
    ensures NoBreaks(prefix + s)
  {
  }

  lemma {:induction false} ReadBlock(b: Block, rest: string)
    requires Clean(b)
    ensures ReadLines(Print(b) + rest, "") == LinesOf(b) + ReadLines(rest, "")
  {
    hide Decimal, ReadLines, NoBreaks;
    match b
    case Message(e) =>
      DecimalHasNoBreaks(e.id);
      LabelsHaveNoBreaks();
      PrefixHasNoBreaks("id: ", Decimal(e.id));
      PrefixHasNoBreaks("event: ", e.event);
      PrefixHasNoBreaks("data: ", e.data);
      PrintMessage(e);
      ReadMessage("id: " + Decimal(e.id), "event: " + e.event, "data: " + e.data, rest);
    case Ping =>
      LabelsHaveNoBreaks();
      ReadTwoLines(":ping", rest);
      assert ":ping\n\n" == ":ping" + "\n\n";
    case Retry(ms) =>
      DecimalHasNoBreaks(ms);
      LabelsHaveNoBreaks();
      PrefixHasNoBreaks("retry: ", Decimal(ms));
      ReadTwoLines("retry: " + Decimal(ms), rest);
  }

  lemma {:induction false} LabelsHaveNoBreaks()
    ensures NoBreaks("id: ") && NoBreaks("event: ") && NoBreaks("data: ") && NoBreaks("retry: ") && NoBreaks(":ping")
  {
  }

  /** The client's line reader recovers exactly the lines that the server printed. */
  lemma {:induction false} ReadAll(bs: seq<Block>)
    requires forall i :: 0 <= i < |bs| ==> Clean(bs[i])
    ensures ReadLines(PrintAll(bs), "") == AllLines(bs)
  {
    if |bs| > 0 {
      ReadAll(bs[1..]);
      ReadBlock(bs[0], PrintAll(bs[1..]));
    }
  }

  // ---- The parser --------------------------------------------------------------

  datatype Dispatched = Dispatched(name: string, data: string)

  datatype Parser = Parser(name: string, data: string, lastId: Option<string>, out: seq<Dispatched>)

  predicate StartsWith(line: string, prefix: string) {
    |prefix| <= |line| && line[..|prefix|] == prefix
  }

  /** One line; `nl` is the line terminator that AppendLine adds. */
  function Feed(p: Parser, line: string, nl: string): Parser {
    if |line| == 0 then
      p.(name := "message", data := "", out := if |p.data| > 0 then p.out + [Dispatched(p.name, p.data)] else p.out)
    else if line[0] == ':' then p
    else if StartsWith(line, "id:") then p.(lastId := Some(Trim(line[3..])))
    else if StartsWith(line, "event:") then p.(name := Trim(line[6..]))
    else if StartsWith(line, "data:") then p.(data := p.data + TrimStart(line[5..]) + nl)
    else p
  }

  function FeedAll(p: Parser, lines: seq<string>, nl: string): Parser {
    if |lines| == 0 then p else Feed(FeedAll(p, lines[..|lines| - 1], nl), lines[|lines| - 1], nl)
  }

  class SseClient {
    var lastEventId: Option<string>

    constructor ()
      ensures lastEventId == None
    {
      lastEventId := None;
    }

    /** Reads one connection to its end; `dispatched` are the events handed on, in order. */
    method ReadStream(lines: seq<string>, nl: string) returns (dispatched: seq<Dispatched>)
      modifies this
      ensures var p := FeedAll(Parser("message", "", old(lastEventId), []), lines, nl);
              dispatched == p.out && lastEventId == p.lastId
    {
      var eventName, data := "message", "";
      dispatched := [];
      for i := 0 to |lines|
        invariant Parser(eventName, data, lastEventId, dispatched)
               == FeedAll(Parser("message", "", old(lastEventId), []), lines[..i], nl)
      {
        var line := lines[i];
        assert lines[..i + 1][..i] == lines[..i];
        if |line| == 0 {
          if |data| > 0 {
            dispatched := dispatched + [Dispatched(eventName, data)];
          }
          eventName, data := "message", "";
          continue;
        }
        if line[0] == ':' { continue; }
        if StartsWith(line, "id:") {
          lastEventId := Some(Trim(line[3..]));
        } else if StartsWith(line, "event:") {
          eventName := Trim(line[6..]);
        } else if StartsWith(line, "data:") {
          data := data + TrimStart(line[5..]) + nl;
        }
      }
      assert lines[..|lines|] == lines;
    }
  }

  // ---- Round trip --------------------------------------------------------------

  lemma {:induction false} FeedId(p: Parser, id: nat, nl: string)
    ensures Feed(p, "id: " + Decimal(id), nl) == p.(lastId := Some(Decimal(id)))
  {
    var d := Decimal(id);
    var line := "id: " + d;
    assert line[3..] == " " + d && line[..3] == "id:" && line[0] == 'i';
    assert IsDigit(d[0]) && IsDigit(d[|d| - 1]);
    TrimSpace(d);
  }

  lemma {:induction false} FeedName(p: Parser, name: string, nl: string)
    requires |name| > 0 ==> !IsWhite(name[0]) && !IsWhite(name[|name| - 1])
    ensures Feed(p, "event: " + name, nl) == p.(name := name)
  {
    var line := "event: " + name;
    assert line[6..] == " " + name && line[..6] == "event:" && line[0] == 'e';
    assert line[..3][0] == 'e' && "id:"[0] == 'i';
    TrimSpace(name);
  }

  lemma {:induction false} FeedData(p: Parser, data: string, nl: string)
    requires |data| > 0 ==> !IsWhite(data[0])
    ensures Feed(p, "data: " + data, nl) == p.(data := p.data + data + nl)
  {
    var line := "data: " + data;
    assert line[5..] == " " + data && line[..5] == "data:" && line[0] == 'd';
    assert line[..3][0] == 'd' && "id:"[0] == 'i';
    assert |line| >= 6 ==> line[..6][0] == 'd' && "event:"[0] == 'e';
    TrimSpace(data);
  }

  lemma {:induction false} FeedRetry(p: Parser, digits: string, nl: string)
    ensures Feed(p, "retry: " + digits, nl) == p
  {
    var line := "retry: " + digits;
    assert line[0] == 'r' && line[..3][0] == 'r' && line[..5][0] == 'r' && line[..6][0] == 'r';
    assert "id:"[0] == 'i' && "event:"[0] == 'e' && "data:"[0] == 'd';
  }

  lemma {:induction false} FeedConcat(p: Parser, xs: seq<string>, ys: seq<string>, nl: string)
    ensures FeedAll(p, xs + ys, nl) == FeedAll(FeedAll(p, xs, nl), ys, nl)
    decreases |ys|
  {
    hide Feed;
    if |ys| == 0 {
      assert xs + ys == xs;
    } else {
      var n := |ys| - 1;
      FeedConcat(p, xs, ys[..n], nl);
      assert (xs + ys)[..|xs| + n] == xs + ys[..n];
    }
  }

  lemma {:induction false} FeedOne(p: Parser, line: string, nl: string)
    ensures FeedAll(p, [line], nl) == Feed(p, line, nl)
  {
    hide Feed;
    assert [line][..0] == [];
  }

  lemma {:induction false} FeedNext(p: Parser, lines: seq<string>, k: nat, nl: string)
    requires k < |lines|
    ensures FeedAll(p, lines[..k + 1], nl) == Feed(FeedAll(p, lines[..k], nl), lines[k], nl)
  {
    hide Feed;
    assert lines[..k + 1][..k] == lines[..k];
  }

  /** Between two events. */
  predicate AtRest(p: Parser) {
    p.name == "message" && p.data == ""
  }

  function DispatchOf(e: StreamEntry, nl: string): Dispatched {
    Dispatched(e.event, e.data + nl)
  }

  /** After r of a message's four lines: the id counts from the first line on, the event is
      dispatched by the last. */
  lemma {:induction false} FeedMessagePrefix(p: Parser, e: StreamEntry, r: nat, nl: string)
    requires AtRest(p) && Clean(Message(e)) && |nl| > 0 && r <= 4
    ensures var q := FeedAll(p, LinesOf(Message(e))[..r], nl);
            && q.lastId == (if r == 0 then p.lastId else Some(Decimal(e.id)))
            && q.out == (if r == 4 then p.out + [DispatchOf(e, nl)] else p.out)
            && (r == 4 ==> AtRest(q))
  {
    hide Feed, FeedAll, StartsWith;
    var lines := LinesOf(Message(e));
    var p0 := FeedAll(p, lines[..0], nl);
    FeedNothing(p, lines, nl);
    FeedNext(p, lines, 0, nl);
    FeedId(p0, e.id, nl);
    var p1 := p0.(lastId := Some(Decimal(e.id)));
    FeedNext(p, lines, 1, nl);
    FeedName(p1, e.event, nl);
    var p2 := p1.(name := e.event);
    FeedNext(p, lines, 2, nl);
    FeedData(p2, e.data, nl);
    var p3 := p2.(data := p2.data + e.data + nl);
    assert p3.data == e.data + nl;
    FeedNext(p, lines, 3, nl);
    FeedBlank(p3, nl);
  }

  lemma {:induction false} FeedNothing(p: Parser, lines: seq<string>, nl: string)
    ensures FeedAll(p, lines[..0], nl) == p
  {
  }

  lemma {:induction false} FeedBlank(p: Parser, nl: string)
    requires |p.data| > 0
    ensures Feed(p, "", nl) == Parser("message", "", p.lastId, p.out + [Dispatched(p.name, p.data)])
  {
  }

  function DataLines(ds: seq<string>): seq<string> {
    if |ds| == 0 then [] else DataLines(ds[..|ds| - 1]) + ["data: " + ds[|ds| - 1]]
  }

  function Joined(ds: seq<string>, nl: string): string {
    if |ds| == 0 then "" else Joined(ds[..|ds| - 1], nl) + ds[|ds| - 1] + nl
  }

  lemma {:induction false} FeedDataLines(p: Parser, ds: seq<string>, nl: string)
    requires forall i :: 0 <= i < |ds| && |ds[i]| > 0 ==> !IsWhite(ds[i][0])
    ensures FeedAll(p, DataLines(ds), nl) == p.(data := p.data + Joined(ds, nl))
  {
    hide Feed;
    if |ds| == 0 {
      assert p.data + "" == p.data;
    } else {
      var front, last := ds[..|ds| - 1], ds[|ds| - 1];
      FeedDataLines(p, front, nl);
      FeedConcat(p, DataLines(front), ["data: " + last], nl);
      FeedOne(p.(data := p.data + Joined(front, nl)), "data: " + last, nl);
      FeedData(p.(data := p.data + Joined(front, nl)), last, nl);
      assert p.data + Joined(front, nl) + last + nl == p.data + (Joined(front, nl) + last + nl);
    }
  }

  /** An event of several data lines is dispatched under its name with all of them, each ended by a line
      break; one without data is not dispatched, and its name does not reach the next event. */
  lemma {:induction false} DataLinesJoin(p: Parser, name: string, ds: seq<string>, nl: string)
    requires AtRest(p) && |nl| > 0 && (|name| > 0 ==> !IsWhite(name[0]) && !IsWhite(name[|name| - 1]))
    requires forall i :: 0 <= i < |ds| && |ds[i]| > 0 ==> !IsWhite(ds[i][0])
    ensures FeedAll(p, ["event: " + name] + DataLines(ds) + [""], nl)
         == if |ds| == 0 then p else p.(out := p.out + [Dispatched(name, Joined(ds, nl))])
  {
    hide Feed;
    var event, q := "event: " + name, p.(name := name);
    FeedConcat(p, [event] + DataLines(ds), [""], nl);
    FeedConcat(p, [event], DataLines(ds), nl);
    FeedOne(p, event, nl);
    FeedName(p, name, nl);
    FeedDataLines(q, ds, nl);
    var r := q.(data := q.data + Joined(ds, nl));
    assert q.data + Joined(ds, nl) == Joined(ds, nl);
    FeedOne(r, "", nl);
    if |ds| == 0 {
      FeedEmptyBlock(r, nl);
    } else {
      FeedBlank(r, nl);
    }
  }

  lemma {:induction false} FeedEmptyBlock(p: Parser, nl: string)
    requires p.data == ""
    ensures Feed(p, "", nl) == p.(name := "message")
  {
  }

  /** What a whole block does to a parser at rest. */
  function Advanced(p: Parser, b: Block, nl: string): Parser
    requires Clean(b)
  {
    if b.Message? then p.(lastId := Some(Decimal(b.e.id)), out := p.out + [DispatchOf(b.e, nl)]) else p
  }

  lemma {:induction false} FeedBlock(p: Parser, b: Block, nl: string)
    requires AtRest(p) && Clean(b) && |nl| > 0
    ensures FeedAll(p, LinesOf(b), nl) == Advanced(p, b, nl)
  {
    hide StartsWith;
    match b
    case Message(e) =>
      FeedMessagePrefix(p, e, 4, nl);
      assert LinesOf(b)[..4] == LinesOf(b);
    case Ping => FeedIgnored(p, ":ping", nl);
    case Retry(ms) =>
      FeedRetry(p, Decimal(ms), nl);
      FeedIgnored(p, "retry: " + Decimal(ms), nl);
  }

  lemma {:induction false} FeedIgnored(p: Parser, line: string, nl: string)
    requires AtRest(p) && Feed(p, line, nl) == p
    ensures FeedAll(p, [line, ""], nl) == p
  {
    assert [line, ""][..1] == [line];
    FeedOne(p, line, nl);
  }

  function AdvancedAll(p: Parser, bs: seq<Block>, nl: string): Parser
    requires forall i :: 0 <= i < |bs| ==> Clean(bs[i])
    decreases |bs|
  {
    if |bs| == 0 then p else AdvancedAll(Advanced(p, bs[0], nl), bs[1..], nl)
  }

  lemma {:induction false} FeedBlocks(p: Parser, bs: seq<Block>, nl: string)
    requires AtRest(p) && |nl| > 0
    requires forall i :: 0 <= i < |bs| ==> Clean(bs[i])
    ensures FeedAll(p, AllLines(bs), nl) == AdvancedAll(p, bs, nl) && AtRest(AdvancedAll(p, bs, nl))
    decreases |bs|
  {
    if |bs| > 0 {
      hide Feed, LinesOf;
      FeedConcat(p, LinesOf(bs[0]), AllLines(bs[1..]), nl);
      FeedBlock(p, bs[0], nl);
      FeedBlocks(Advanced(p, bs[0], nl), bs[1..], nl);
    }
  }

  /** The messages among the blocks, as the client should dispatch them. */
  function Messages(bs: seq<Block>): seq<StreamEntry> {
    if |bs| == 0 then [] else (if bs[0].Message? then [bs[0].e] else []) + Messages(bs[1..])
  }

  function Dispatches(es: seq<StreamEntry>, nl: string): (ds: seq<Dispatched>)
    ensures |ds| == |es|
  {
    seq(|es|, i requires 0 <= i < |es| => DispatchOf(es[i], nl))
  }

  lemma {:induction false} AdvancedDispatches(p: Parser, bs: seq<Block>, nl: string)
    requires forall i :: 0 <= i < |bs| ==> Clean(bs[i])
    ensures forall i :: 0 <= i < |Messages(bs)| ==> Messages(bs)[i].id >= 0
    ensures var q, es := AdvancedAll(p, bs, nl), Messages(bs);
            && q.out == p.out + Dispatches(es, nl)
            && q.lastId == if |es| == 0 then p.lastId else Some(Decimal(es[|es| - 1].id))
    decreases |bs|
  {
    if |bs| > 0 {
      AdvancedDispatches(Advanced(p, bs[0], nl), bs[1..], nl);
    }
  }

  /** Round trip over the wire: from the server's text, with heartbeats and retry hints in
      between, the client dispatches exactly the messages in order, and its last id is the
      last message's. */
  lemma {:induction false} WireRoundTrip(bs: seq<Block>, lastId: Option<string>, nl: string)
    requires forall i :: 0 <= i < |bs| ==> Clean(bs[i])
    requires |nl| > 0
    ensures forall i :: 0 <= i < |Messages(bs)| ==> Messages(bs)[i].id >= 0
    ensures var p := FeedAll(Parser("message", "", lastId, []), ReadLines(PrintAll(bs), ""), nl);
            var es := Messages(bs);
            && p.out == Dispatches(es, nl)
            && p.lastId == if |es| == 0 then lastId else Some(Decimal(es[|es| - 1].id))
  {
    var p := Parser("message", "", lastId, []);
    ReadAll(bs);
    FeedBlocks(p, bs, nl);
    AdvancedDispatches(p, bs, nl);
    assert p.out + Dispatches(Messages(bs), nl) == Dispatches(Messages(bs), nl);
  }

  // ---- Resuming after a cut ----------------------------------------------------

  function AsBlocks(es: seq<StreamEntry>): (bs: seq<Block>)
    ensures |bs| == |es| && forall i :: 0 <= i < |es| ==> bs[i] == Message(es[i])
  {
    seq(|es|, i requires 0 <= i < |es| => Message(es[i]))
  }

  lemma {:induction false} MessagesOfBlocks(es: seq<StreamEntry>)
    ensures Messages(AsBlocks(es)) == es
  {
    if |es| > 0 {
      MessagesOfBlocks(es[1..]);
      assert AsBlocks(es)[1..] == AsBlocks(es[1..]);
    }
  }

  /** The client when the connection breaks after i whole messages and r lines of the next. */
  function CutClient(es: seq<StreamEntry>, i: nat, r: nat, nl: string): Parser
    requires i < |es| && r < 4
    requires forall k :: 0 <= k < |es| ==> Clean(Message(es[k]))
  {
    FeedAll(Parser("message", "", None, []), AllLines(AsBlocks(es[..i])) + LinesOf(Message(es[i]))[..r], nl)
  }

  lemma {:induction false} CutClientState(es: seq<StreamEntry>, i: nat, r: nat, nl: string)
    requires i < |es| && r < 4 && |nl| > 0
    requires forall k :: 0 <= k < |es| ==> Clean(Message(es[k]))
    ensures CutClient(es, i, r, nl).out == Dispatches(es[..i], nl)
    ensures CutClient(es, i, r, nl).lastId ==
            if r > 0 then Some(Decimal(es[i].id)) else if i > 0 then Some(Decimal(es[i - 1].id)) else None
  {
    hide AllLines, AdvancedAll, FeedAll, Dispatches;
    var p := Parser("message", "", None, []);
    var bs := AsBlocks(es[..i]);
    FeedBlocks(p, bs, nl);
    AdvancedDispatches(p, bs, nl);
    MessagesOfBlocks(es[..i]);
    FeedConcat(p, AllLines(bs), LinesOf(Message(es[i]))[..r], nl);
    FeedMessagePrefix(AdvancedAll(p, bs, nl), es[i], r, nl);
    assert p.out + Dispatches(es[..i], nl) == Dispatches(es[..i], nl);
  }

  lemma {:induction false} VisiblePrefix(log: seq<StreamEntry>, ctx: SseContext, i: nat)
    requires Numbered(log) && i < |Visible(log, ctx)|
    ensures var id := Visible(log, ctx)[i].id;
            1 <= id <= |log| && Visible(log[..id], ctx) == Visible(log, ctx)[..i + 1]
  {
    var n := |log| - 1;
    var front := log[..n];
    var d := Visible(log, ctx);
    if i < |Visible(front, ctx)| {
      VisiblePrefix(front, ctx, i);
      assert front[..d[i].id] == log[..d[i].id];
    } else {
      assert d[i] == log[n] && log[..|log|] == log && d[..i + 1] == d;
    }
  }

  /** The id in the Last-Event-ID header of the reconnect. */
  function HeaderId(p: Parser): Option<int> {
    if p.lastId.None? then None else ParseInt(p.lastId.value)
  }

  /** After a cut the client reconnects and the server replays from its ring. Provided the ring
      still reaches back far enough, the client misses nothing and repeats nothing exactly if
      the connection did not break inside a message: the client remembers an id as soon as it
      reads the id line, before the message is complete. */
  lemma {:induction false} ResumeIsExact(c: Channel, log: seq<StreamEntry>, ctx: SseContext, i: nat, r: nat, nl: string)
    requires Mirrors(c, log) && |nl| > 0 && r < 4 && i < |Visible(log, ctx)|
    requires forall k :: 0 <= k < |Visible(log, ctx)| ==> Clean(Message(Visible(log, ctx)[k]))
    requires var h := HeaderId(CutClient(Visible(log, ctx), i, r, nl));
             Oldest(log) == 0 || (h.Some? && h.value >= Oldest(log))
    ensures var all := Visible(log, ctx);
            var client := CutClient(all, i, r, nl);
            client.out + Dispatches(GetReplay(c, HeaderId(client), ctx), nl) == Dispatches(all, nl) <==> r == 0
  {
    hide Visible, GetReplay, CutClient, Matches, ParseInt;
    var all := Visible(log, ctx);
    CutClientState(all, i, r, nl);
    var client := CutClient(all, i, r, nl);
    var got := if r > 0 then i + 1 else i;
    if got > 0 {
      VisiblePrefix(log, ctx, got - 1);
      HeaderRoundTrip(all[got - 1].id);
    }
    ReplayAfter(c, log, ctx, got, HeaderId(client));
    var replay := GetReplay(c, HeaderId(client), ctx);
    if r == 0 {
      assert replay == all[i..];
      assert Dispatches(all[..i], nl) + Dispatches(all[i..], nl) == Dispatches(all, nl);
    } else {
      assert |client.out + Dispatches(replay, nl)| == |all| - 1;
    }
  }

  /** Asking for what follows the first `got` visible entries yields the others. */
  lemma {:induction false} ReplayAfter(c: Channel, log: seq<StreamEntry>, ctx: SseContext, got: nat, header: Option<int>)
    requires Mirrors(c, log) && got <= |Visible(log, ctx)|
    requires header == if got == 0 then None else Some(Visible(log, ctx)[got - 1].id)
    requires Oldest(log) == 0 || (header.Some? && header.value >= Oldest(log))
    ensures GetReplay(c, header, ctx) == Visible(log, ctx)[got..]
  {
    var all := Visible(log, ctx);
    if got == 0 {
      NewerThanNothing(c.entries);
      assert log[0..] == log;
    } else {
      hide Visible, GetReplay;
      VisiblePrefix(log, ctx, got - 1);
      ReplayCompletesLog(c, log, all[got - 1].id, ctx);
      NothingVisible(ctx);
      var replay := GetReplay(c, header, ctx);
      assert (all[..got] + replay)[got..] == replay;
    }
  }

  lemma {:induction false} NewerThanNothing(es: seq<StreamEntry>)
    ensures Newer(es, None) == es
  {
    if |es| > 0 {
      NewerThanNothing(es[..|es| - 1]);
      assert es == es[..|es| - 1] + [es[|es| - 1]];
    }
  }
}
