/** Server-sent events: how a reply becomes a text frame, what a client that follows sections
9.2.5 and 9.2.6 of the WHATWG HTML standard reads from it, and how the event id brings the
client back to its position. */
module ServerSentEvents {
  import opened Basics
  import opened Decimal

  // ---------- Encoding ----------

  predicate Break(s: string)
    requires s != []
  {
    s[0] == '\r' || s[0] == '\n'
  }

  // The length of the line terminator at the start: CR LF counts as one.
  function Terminator(s: string): (n: nat)
    requires s != [] && Break(s)
    ensures 1 <= n <= |s|
  {
    if |s| >= 2 && s[0] == '\r' && s[1] == '\n' then 2 else 1
  }

  function DataPrefix(): string { "data: " }

  function EventPrefix(): string { "event: " }

  function IdPrefix(): string { "id: " }

  function RetryPrefix(): string { "retry: " }

  // Told to clients that should not come back: a year, in milliseconds.
  const NO_RECONNECT := 31536000000

  // Every line terminator starts another data field.
  function Escaped(s: string): string {
    if s == [] then ""
    else if Break(s) then "\n" + DataPrefix() + Escaped(s[Terminator(s)..])
    else [s[0]] + Escaped(s[1..])
  }

  function EncodeData(payload: string): string {
    DataPrefix() + Escaped(payload)
  }

  const DELIMITER := "/"

  function EventId(offset: nat, epoch: string, stream: string): string {
    Format(offset) + DELIMITER + epoch + DELIMITER + stream
  }

  // The id is sent only with a complete position.
  function IdFor(offset: nat, epoch: string, stream: string): Option<string> {
    if offset > 0 && epoch != "" && stream != "" then Some(EventId(offset, epoch, stream)) else None
  }

  function Frame(kind: string, data: string, id: Option<string>, stay: bool): string {
    (if kind == "" then "" else EventPrefix() + kind + "\n")
    + EncodeData(data)
    + (if id.None? then "" else "\n" + IdPrefix() + id.value)
    + (if !stay then "" else "\n" + RetryPrefix() + Format(NO_RECONNECT))
  }

  // Protocol messages, those with a kind, are left out of raw streams; `stay` tells the client
  // of a final disconnect not to reconnect.
  method Encode(kind: string, raw: bool, data: string, offset: nat, epoch: string, stream: string, reconnect: bool)
    returns (payload: Option<string>)
    ensures payload == if kind != "" && raw then None
                       else Some(Frame(kind, data, IdFor(offset, epoch, stream), kind == "disconnect" && !reconnect))
  {
    hide Format, Escaped;
    var text := EncodeData(data);
    if kind != "" {
      if raw {
        return None;
      }
      text := EventPrefix() + kind + "\n" + text;
    } else {
      assert "" + text == text;
    }
    if offset > 0 && epoch != "" && stream != "" {
      text := text + ("\n" + IdPrefix() + EventId(offset, epoch, stream));
    } else {
      assert text + "" == text;
    }
    if kind == "disconnect" && !reconnect {
      text := text + ("\n" + RetryPrefix() + Format(NO_RECONNECT));
    } else {
      assert text + "" == text;
    }
    payload := Some(text);
  }

  // What the connection writes: the frame and a blank line.
  function Written(kind: string, data: string, id: Option<string>, stay: bool): string {
    Frame(kind, data, id, stay) + "\n" + "\n"
  }

  // ---------- The client ----------

  datatype Event = Event(kind: string, data: string, lastId: string)

  // The buffers of the parser, the reconnection time if set, and the events dispatched so far.
  datatype Client = Client(kind: string, data: string, lastId: string, retry: Option<nat>, events: seq<Event>)

  // Complete lines only; `cur` is the line read so far.
  function Lines(s: string, cur: string): seq<string>
    decreases |s|
  {
    if s == [] then []
    else if Break(s) then [cur] + Lines(s[Terminator(s)..], "")
    else Lines(s[1..], cur + [s[0]])
  }

  // Field name and value, one space after the colon being dropped.
  function Field(line: string): (string, string) {
    var i := Find(line, ":");
    if i == |line| then (line, "") else
    var v := line[i + 1..];
    (line[..i], if v != "" && v[0] == ' ' then v[1..] else v)
  }

  function Dispatch(c: Client): Client {
    if c.data == "" then c.(kind := "", data := "") else
    Client("", "", c.lastId, c.retry,
           c.events + [Event(if c.kind == "" then "message" else c.kind, c.data[..|c.data| - 1], c.lastId)])
  }

  function Feed(c: Client, line: string): Client {
    if line == "" then Dispatch(c) else
    var (name, value) := Field(line);
    if name == "event" then c.(kind := value)
    else if name == "data" then c.(data := c.data + value + "\n")
    else if name == "id" && '\0' !in value then c.(lastId := value)
    else if name == "retry" && value != "" && Digits(value) then c.(retry := Some(Value(value)))
    else c
  }

  function FeedAll(c: Client, lines: seq<string>): Client
    decreases |lines|
  {
    if lines == [] then c else FeedAll(Feed(c, lines[0]), lines[1..])
  }

  // Reads text from a client that is between two lines.
  function Parse(c: Client, text: string): Client {
    FeedAll(c, Lines(text, ""))
  }

  // ---------- Lines of a payload ----------

  predicate OneLine(s: string) {
    '\r' !in s && '\n' !in s
  }

  // The lines of a payload, the last one included even if empty.
  function Pieces(s: string): (r: seq<string>)
    ensures r != [] && forall i :: 0 <= i < |r| ==> OneLine(r[i])
  {
    if s == [] then [""]
    else if Break(s) then [""] + Pieces(s[Terminator(s)..])
    else
      var p := Pieces(s[1..]);
      [[s[0]] + p[0]] + p[1..]
  }

  function Join(ps: seq<string>): string
    requires ps != []
  {
    if |ps| == 1 then ps[0] else ps[0] + "\n" + Join(ps[1..])
  }

  // CR, LF and CR LF all become LF.
  function Normalised(s: string): string {
    if s == [] then ""
    else if Break(s) then "\n" + Normalised(s[Terminator(s)..])
    else [s[0]] + Normalised(s[1..])
  }

  // Character by character: CR LF together is one line break, and so is either alone.
  lemma NormalisedBreaks(rest: string)
    ensures Normalised("\r\n" + rest) == "\n" + Normalised(rest)
    ensures Normalised("\n" + rest) == "\n" + Normalised(rest)
    ensures rest == "" || rest[0] != '\n' ==> Normalised("\r" + rest) == "\n" + Normalised(rest)
    ensures forall c :: c != '\r' && c != '\n' ==> Normalised([c] + rest) == [c] + Normalised(rest)
  {
    assert ("\r\n" + rest)[2..] == rest;
    assert ("\n" + rest)[1..] == rest;
    assert ("\r" + rest)[1..] == rest;
    forall c: char | c != '\r' && c != '\n' ensures Normalised([c] + rest) == [c] + Normalised(rest) {
      assert ([c] + rest)[1..] == rest;
    }
  }

  lemma JoinCons(p: seq<string>)
    requires p != []
    ensures Join([""] + p) == "\n" + Join(p)
  {
    assert ([""] + p)[1..] == p;
    assert "" + "\n" + Join(p) == "\n" + Join(p);
  }

  lemma JoinChar(c: char, p: seq<string>)
    requires p != []
    ensures Join([[c] + p[0]] + p[1..]) == [c] + Join(p)
  {
    var q := [[c] + p[0]] + p[1..];
    assert q[1..] == p[1..];
    if |p| > 1 {
      assert [c] + p[0] + "\n" + Join(p[1..]) == [c] + (p[0] + "\n" + Join(p[1..]));
    }
  }

  lemma {:induction false} JoinIsNormalised(s: string)
    ensures Join(Pieces(s)) == Normalised(s)
  {
    if s != [] {
      hide Join, OneLine;
      if Break(s) {
        JoinIsNormalised(s[Terminator(s)..]);
        JoinCons(Pieces(s[Terminator(s)..]));
      } else {
        JoinIsNormalised(s[1..]);
        JoinChar(s[0], Pieces(s[1..]));
      }
    }
  }

  // The data lines without the first prefix.
  function Tail(ps: seq<string>): string
    requires ps != []
  {
    ps[0] + "\n" + if |ps| == 1 then "" else DataPrefix() + Tail(ps[1..])
  }

  lemma TailCons(p: seq<string>)
    requires p != []
    ensures Tail([""] + p) == "\n" + (DataPrefix() + Tail(p))
  {
    hide DataPrefix;
    assert ([""] + p)[1..] == p;
    assert "" + "\n" + (DataPrefix() + Tail(p)) == "\n" + (DataPrefix() + Tail(p));
  }

  lemma TailChar(c: char, p: seq<string>)
    requires p != []
    ensures Tail([[c] + p[0]] + p[1..]) == [c] + Tail(p)
  {
    hide DataPrefix;
    var q := [[c] + p[0]] + p[1..];
    assert q[1..] == p[1..];
    var more := if |p| == 1 then "" else DataPrefix() + Tail(p[1..]);
    assert [c] + p[0] + "\n" + more == [c] + (p[0] + "\n" + more);
  }

  lemma {:induction false} EscapedIsTail(s: string)
    ensures Escaped(s) + "\n" == Tail(Pieces(s))
  {
    hide DataPrefix, Tail;
    if s == [] {
      OnePiece();
    } else if Break(s) {
      var rest := s[Terminator(s)..];
      EscapedIsTail(rest);
      TailCons(Pieces(rest));
      assert "\n" + DataPrefix() + Escaped(rest) + "\n" == "\n" + (DataPrefix() + (Escaped(rest) + "\n"));
    } else {
      EscapedIsTail(s[1..]);
      TailChar(s[0], Pieces(s[1..]));
      assert [s[0]] + Escaped(s[1..]) + "\n" == [s[0]] + (Escaped(s[1..]) + "\n");
    }
  }

  lemma OnePiece()
    ensures Tail([""]) == "\n"
  {
  }

  // ---------- A frame is a list of lines ----------

  function Text(lines: seq<string>): string {
    if lines == [] then "" else lines[0] + "\n" + Text(lines[1..])
  }

  function DataLines(ps: seq<string>): seq<string> {
    if ps == [] then [] else [DataPrefix() + ps[0]] + DataLines(ps[1..])
  }

  function FrameLines(kind: string, data: string, id: Option<string>, stay: bool): seq<string> {
    (if kind == "" then [] else [EventPrefix() + kind])
    + DataLines(Pieces(data))
    + (if id.None? then [] else [IdPrefix() + id.value])
    + (if !stay then [] else [RetryPrefix() + Format(NO_RECONNECT)])
    + [""]
  }

  lemma {:induction false} TextConcat(a: seq<string>, b: seq<string>)
    ensures Text(a + b) == Text(a) + Text(b)
  {
    if a == [] {
      assert a + b == b;
    } else {
      TextConcat(a[1..], b);
      assert (a + b)[1..] == a[1..] + b;
      assert a[0] + "\n" + (Text(a[1..]) + Text(b)) == a[0] + "\n" + Text(a[1..]) + Text(b);
    }
  }

  lemma {:induction false} TailIsText(ps: seq<string>)
    requires ps != []
    ensures DataPrefix() + Tail(ps) == Text(DataLines(ps))
  {
    hide DataPrefix;
    var first := DataPrefix() + ps[0];
    if |ps| == 1 {
      assert ps[1..] == [] && DataLines(ps) == [first] && [first][1..] == [];
      assert DataPrefix() + (ps[0] + "\n" + "") == first + "\n" + "";
    } else {
      TailIsText(ps[1..]);
      assert ([first] + DataLines(ps[1..]))[1..] == DataLines(ps[1..]);
      assert DataPrefix() + (ps[0] + "\n" + Text(DataLines(ps[1..]))) == first + "\n" + Text(DataLines(ps[1..]));
    }
  }

  lemma OneLineText(l: string)
    ensures Text([l]) == l + "\n" && Text([]) == ""
  {
    assert [l][1..] == [];
  }

  // Text of a line that may be absent.
  lemma OptionalLine(there: bool, l: string)
    ensures Text(if there then [l] else []) == if there then l + "\n" else ""
  {
    OneLineText(l);
  }

  lemma WrittenIsText(kind: string, data: string, id: Option<string>, stay: bool)
    ensures Written(kind, data, id, stay) == Text(FrameLines(kind, data, id, stay))
  {
    hide DataPrefix, EventPrefix, IdPrefix, RetryPrefix, Text, DataLines, Pieces, Escaped, Format;
    var e := if kind == "" then [] else [EventPrefix() + kind];
    var d := DataLines(Pieces(data));
    var x := if id.Some? then IdPrefix() + id.value else "";
    var i := if id.None? then [] else [x];
    var y := RetryPrefix() + Format(NO_RECONNECT);
    var r := if !stay then [] else [y];
    TextConcat(e + d + i + r, [""]);
    TextConcat(e + d + i, r);
    TextConcat(e + d, i);
    TextConcat(e, d);
    OneLineText("");
    OptionalLine(kind != "", EventPrefix() + kind);
    OptionalLine(id.Some?, x);
    OptionalLine(stay, y);
    EscapedIsTail(data);
    TailIsText(Pieces(data));
    var head := if kind == "" then "" else EventPrefix() + kind + "\n";
    var body := DataPrefix() + Escaped(data);
    assert Text(d) == body + "\n" by {
      assert DataPrefix() + (Escaped(data) + "\n") == body + "\n";
    }
    var value := if id.Some? then id.value else "";
    Rotate(head, body, id.Some?, IdPrefix(), value, stay, RetryPrefix(), Format(NO_RECONNECT));
  }

  // Line feeds before the optional lines, or after every line: the text is the same.
  lemma Rotate(head: string, body: string, p: bool, a1: string, a2: string, q: bool, b1: string, b2: string)
    ensures head + body + (if p then "\n" + a1 + a2 else "") + (if q then "\n" + b1 + b2 else "") + "\n" + "\n"
         == head + (body + "\n") + (if p then a1 + a2 + "\n" else "") + (if q then b1 + b2 + "\n" else "") + ("" + "\n")
  {
  }

  lemma {:induction false} LinesLine(l: string, rest: string, cur: string)
    requires OneLine(l)
    ensures Lines(l + "\n" + rest, cur) == [cur + l] + Lines(rest, "")
  {
    var s := l + "\n" + rest;
    if l == [] {
      assert s[1..] == rest && cur + l == cur;
    } else {
      assert s[1..] == l[1..] + "\n" + rest;
      LinesLine(l[1..], rest, cur + [l[0]]);
      assert cur + [l[0]] + l[1..] == cur + l;
    }
  }

  lemma {:induction false} LinesOfText(lines: seq<string>)
    requires forall i :: 0 <= i < |lines| ==> OneLine(lines[i])
    ensures Lines(Text(lines), "") == lines
  {
    if lines != [] {
      LinesOfText(lines[1..]);
      LinesLine(lines[0], Text(lines[1..]), "");
      assert "" + lines[0] == lines[0];
    }
  }

  // ---------- Reading a frame back ----------

  lemma {:induction false} FeedAllConcat(c: Client, a: seq<string>, b: seq<string>)
    ensures FeedAll(c, a + b) == FeedAll(FeedAll(c, a), b)
    decreases |a|
  {
    hide Feed;
    if a == [] {
      assert a + b == b;
    } else {
      FeedAllConcat(Feed(c, a[0]), a[1..], b);
      assert (a + b)[1..] == a[1..] + b;
    }
  }

  lemma FeedOne(c: Client, l: string)
    ensures FeedAll(c, [l]) == Feed(c, l)
  {
    assert [l][1..] == [];
  }

  lemma FieldOf(name: string, value: string)
    requires ':' !in name
    ensures Field(name + ":" + " " + value) == (name, value)
  {
    FindAfter(name, ":", " " + value);
    assert name + ":" + " " + value == name + ":" + (" " + value);
    assert (" " + value)[1..] == value;
  }

  lemma FeedDataLine(c: Client, p: string)
    ensures Feed(c, DataPrefix() + p) == c.(data := c.data + p + "\n")
  {
    FieldOf("data", p);
    assert DataPrefix() + p == "data" + ":" + " " + p;
  }

  lemma FeedEventLine(c: Client, kind: string)
    ensures Feed(c, EventPrefix() + kind) == c.(kind := kind)
  {
    FieldOf("event", kind);
    assert EventPrefix() + kind == "event" + ":" + " " + kind;
  }

  lemma FeedIdLine(c: Client, id: string)
    requires '\0' !in id
    ensures Feed(c, IdPrefix() + id) == c.(lastId := id)
  {
    FieldOf("id", id);
    assert IdPrefix() + id == "id" + ":" + " " + id;
  }

  lemma {:induction false} FeedDataLines(c: Client, ps: seq<string>)
    requires ps != []
    ensures FeedAll(c, DataLines(ps)) == c.(data := c.data + Join(ps) + "\n")
    decreases |ps|
  {
    hide Feed, DataPrefix;
    var l := DataPrefix() + ps[0];
    var c' := c.(data := c.data + ps[0] + "\n");
    FeedDataLine(c, ps[0]);
    assert DataLines(ps) == [l] + DataLines(ps[1..]);
    FeedAllConcat(c, [l], DataLines(ps[1..]));
    FeedOne(c, l);
    if |ps| == 1 {
      assert DataLines(ps[1..]) == [];
    } else {
      FeedDataLines(c', ps[1..]);
      assert c.data + ps[0] + "\n" + Join(ps[1..]) + "\n" == c.data + (ps[0] + "\n" + Join(ps[1..])) + "\n";
    }
  }

  lemma FeedRetryLine(c: Client)
    ensures Feed(c, RetryPrefix() + Format(NO_RECONNECT)) == c.(retry := Some(NO_RECONNECT))
  {
    hide Format, Value;
    FieldOf("retry", Format(NO_RECONNECT));
    ValueOfFormat(NO_RECONNECT);
    assert RetryPrefix() + Format(NO_RECONNECT) == "retry" + ":" + " " + Format(NO_RECONNECT);
  }

  lemma FrameLinesAreLines(kind: string, data: string, id: Option<string>, stay: bool)
    requires OneLine(kind) && (id.Some? ==> OneLine(id.value))
    ensures forall i :: 0 <= i < |FrameLines(kind, data, id, stay)| ==> OneLine(FrameLines(kind, data, id, stay)[i])
  {
    hide Format;
    DataLinesAreLines(Pieces(data));
    assert OneLine(Format(NO_RECONNECT));
  }

  lemma {:induction false} DataLinesAreLines(ps: seq<string>)
    requires forall i :: 0 <= i < |ps| ==> OneLine(ps[i])
    ensures forall i :: 0 <= i < |DataLines(ps)| ==> OneLine(DataLines(ps)[i])
  {
    if ps != [] {
      DataLinesAreLines(ps[1..]);
    }
  }

  function Kind(kind: string): string {
    if kind == "" then "message" else kind
  }

  datatype Message = Message(kind: string, data: string, id: Option<string>, stay: bool)

  function LinesOf(m: Message): seq<string> {
    FrameLines(m.kind, m.data, m.id, m.stay)
  }

  // No event is being built up.
  predicate Idle(c: Client) {
    c.kind == "" && c.data == ""
  }

  predicate GoodId(id: string) {
    OneLine(id) && '\0' !in id
  }

  predicate Clean(m: Message) {
    OneLine(m.kind) && (m.id.Some? ==> GoodId(m.id.value))
  }

  // What a client should make of a message: one event with the payload, its line breaks
  // normalised, the kind, and the id or else the last one; and whether to stay away.
  function After(c: Client, m: Message): Client {
    var lastId := if m.id.Some? then m.id.value else c.lastId;
    Client("", "", lastId, if m.stay then Some(31536000000) else c.retry,
           c.events + [Event(Kind(m.kind), Normalised(m.data), lastId)])
  }

  function AfterAll(c: Client, ms: seq<Message>): Client {
    if ms == [] then c else After(AfterAll(c, ms[..|ms| - 1]), ms[|ms| - 1])
  }

  lemma LinesAreRead(c: Client, m: Message)
    requires Idle(c) && Clean(m)
    ensures FeedAll(c, LinesOf(m)) == After(c, m)
  {
    hide Feed, DataLines, Pieces, DataPrefix, EventPrefix, IdPrefix, RetryPrefix, Format, FeedAll, Join;
    JoinIsNormalised(m.data);
    var e := if m.kind == "" then [] else [EventPrefix() + m.kind];
    var d := DataLines(Pieces(m.data));
    var i := if m.id.None? then [] else [IdPrefix() + m.id.value];
    var r := if !m.stay then [] else [RetryPrefix() + Format(NO_RECONNECT)];
    FeedAllConcat(c, e + d + i + r, [""]);
    FeedAllConcat(c, e + d + i, r);
    FeedAllConcat(c, e + d, i);
    FeedAllConcat(c, e, d);
    FeedNone(c);
    FeedOne(c, EventPrefix() + m.kind);
    FeedEventLine(c, m.kind);
    var c1 := c.(kind := m.kind);
    assert FeedAll(c, e) == c1;
    FeedDataLines(c1, Pieces(m.data));
    var c2 := c1.(data := Normalised(m.data) + "\n");
    assert "" + Normalised(m.data) + "\n" == Normalised(m.data) + "\n";
    FeedNone(c2);
    if m.id.Some? {
      FeedOne(c2, IdPrefix() + m.id.value);
      FeedIdLine(c2, m.id.value);
    }
    var c3 := c2.(lastId := if m.id.Some? then m.id.value else c.lastId);
    FeedNone(c3);
    FeedOne(c3, RetryPrefix() + Format(NO_RECONNECT));
    FeedRetryLine(c3);
    var c4 := c3.(retry := if m.stay then Some(NO_RECONNECT) else c.retry);
    FeedOne(c4, "");
    FeedBlank(c4);
    assert (Normalised(m.data) + "\n")[..|Normalised(m.data)|] == Normalised(m.data);
  }

  // ---------- A stream of frames ----------

  function StreamText(ms: seq<Message>): string {
    if ms == [] then "" else
    var m := ms[|ms| - 1];
    StreamText(ms[..|ms| - 1]) + Written(m.kind, m.data, m.id, m.stay)
  }

  function AllLines(ms: seq<Message>): seq<string> {
    if ms == [] then [] else AllLines(ms[..|ms| - 1]) + LinesOf(ms[|ms| - 1])
  }

  ghost predicate AllClean(ms: seq<Message>) {
    forall i :: 0 <= i < |ms| ==> Clean(ms[i])
  }

  lemma {:induction false} StreamIsText(ms: seq<Message>)
    ensures StreamText(ms) == Text(AllLines(ms))
  {
    hide Written, Text, FrameLines;
    if ms == [] {
      OneLineText("");
    } else {
      var m := ms[|ms| - 1];
      StreamIsText(ms[..|ms| - 1]);
      WrittenIsText(m.kind, m.data, m.id, m.stay);
      TextConcat(AllLines(ms[..|ms| - 1]), LinesOf(m));
    }
  }

  lemma {:induction false} AllLinesAreLines(ms: seq<Message>)
    requires AllClean(ms)
    ensures forall i :: 0 <= i < |AllLines(ms)| ==> OneLine(AllLines(ms)[i])
  {
    hide FrameLines, OneLine;
    if ms != [] {
      var m := ms[|ms| - 1];
      AllLinesAreLines(ms[..|ms| - 1]);
      assert Clean(m);
      CleanLines(m);
    }
  }

  lemma CleanLines(m: Message)
    requires Clean(m)
    ensures forall i :: 0 <= i < |LinesOf(m)| ==> OneLine(LinesOf(m)[i])
  {
    hide FrameLines;
    FrameLinesAreLines(m.kind, m.data, m.id, m.stay);
  }

  lemma {:induction false} AllAreRead(c: Client, ms: seq<Message>)
    requires Idle(c) && AllClean(ms)
    ensures FeedAll(c, AllLines(ms)) == AfterAll(c, ms) && Idle(AfterAll(c, ms))
  {
    hide FeedAll, LinesOf, Clean, Normalised;
    if ms == [] {
      FeedNone(c);
    } else {
      var init, m := ms[..|ms| - 1], ms[|ms| - 1];
      AllAreRead(c, init);
      FeedAllConcat(c, AllLines(init), LinesOf(m));
      assert Clean(m);
      LinesAreRead(AfterAll(c, init), m);
    }
  }

  // ---------- What no client can read ----------

  // A client only ever learns kinds and ids without line breaks, and ids without NUL.
  ghost predicate Tidy(c: Client) {
    && OneLine(c.kind) && GoodId(c.lastId)
    && TidyEvents(c.events)
  }

  lemma {:induction false} LinesAreLines(s: string, cur: string)
    requires OneLine(cur)
    ensures forall i :: 0 <= i < |Lines(s, cur)| ==> OneLine(Lines(s, cur)[i])
    decreases |s|
  {
    if s != [] {
      if Break(s) {
        LinesAreLines(s[Terminator(s)..], "");
      } else {
        LinesAreLines(s[1..], cur + [s[0]]);
      }
    }
  }

  lemma FieldIsLine(line: string)
    requires OneLine(line)
    ensures OneLine(Field(line).1)
  {
  }

  lemma FeedTidy(c: Client, line: string)
    requires Tidy(c) && OneLine(line)
    ensures Tidy(Feed(c, line))
  {
    hide Field;
    FieldIsLine(line);
  }

  lemma {:induction false} FeedAllTidy(c: Client, lines: seq<string>)
    requires Tidy(c) && forall i :: 0 <= i < |lines| ==> OneLine(lines[i])
    ensures Tidy(FeedAll(c, lines))
    decreases |lines|
  {
    hide Tidy, OneLine, Feed;
    if lines != [] {
      FeedTidy(c, lines[0]);
      FeedAllTidy(Feed(c, lines[0]), lines[1..]);
    }
  }

  ghost predicate TidyEvents(events: seq<Event>) {
    forall i :: 0 <= i < |events| ==> OneLine(events[i].kind) && GoodId(events[i].lastId)
  }

  lemma AfterShows(c: Client, m: Message)
    requires TidyEvents(After(c, m).events)
    ensures TidyEvents(c.events) && Clean(m)
  {
    hide Normalised;
    var events := After(c, m).events;
    assert events[|c.events|].kind == Kind(m.kind);
    forall i | 0 <= i < |c.events| ensures c.events[i] == events[i] {
    }
  }

  // An event keeps the kind and the id of its message, so unclean ones show.
  lemma {:induction false} UncleanShows(c: Client, ms: seq<Message>)
    requires TidyEvents(AfterAll(c, ms).events)
    ensures AllClean(ms)
  {
    hide Clean, After, TidyEvents;
    if ms != [] {
      AfterShows(AfterAll(c, ms[..|ms| - 1]), ms[|ms| - 1]);
      UncleanShows(c, ms[..|ms| - 1]);
    }
  }

  // A client between two events reads any sequence of frames as one event each, in order and
  // with the last id persisting, if and only if no kind contains a line break and no id a line
  // break or NUL.
  lemma StreamIsReadIff(c: Client, ms: seq<Message>)
    requires Idle(c) && Tidy(c)
    ensures Parse(c, StreamText(ms)) == AfterAll(c, ms) <==> AllClean(ms)
  {
    hide Lines, FeedAll, StreamText, AllLines, AfterAll, TidyEvents, AllClean;
    if AllClean(ms) {
      StreamIsText(ms);
      AllLinesAreLines(ms);
      LinesOfText(AllLines(ms));
      AllAreRead(c, ms);
    }
    if Parse(c, StreamText(ms)) == AfterAll(c, ms) {
      LinesAreLines(StreamText(ms), "");
      FeedAllTidy(c, Lines(StreamText(ms), ""));
      UncleanShows(c, ms);
    }
  }

  // In particular a single frame.
  lemma FrameIsRead(c: Client, m: Message)
    requires Idle(c) && Tidy(c)
    ensures Parse(c, Written(m.kind, m.data, m.id, m.stay)) == After(c, m) <==> Clean(m)
  {
    hide Parse, Written, After, Clean;
    StreamIsReadIff(c, [m]);
    AfterOne(c, m);
    assert [m][..0] == [];
    assert StreamText([]) == "";
    assert "" + Written(m.kind, m.data, m.id, m.stay) == Written(m.kind, m.data, m.id, m.stay);
    assert [m][0] == m;
  }

  // Otherwise, when a line break in the kind is followed by what looks like an id, the client
  // takes it for the id of a message that has none.
  lemma KindIsReadAsId(c: Client, name: string, id: string, data: string)
    requires Idle(c) && name != "" && OneLine(name) && GoodId(id)
    ensures Parse(c, Written(name + "\n" + (IdPrefix() + id), data, None, false))
         == After(c, Message(name, data, Some(id), false))
  {
    hide Written, Text, Lines, FeedAll, Feed, DataLines, Pieces, DataPrefix, EventPrefix, IdPrefix, Join, Normalised;
    var e, i, d := EventPrefix() + name, IdPrefix() + id, DataLines(Pieces(data));
    var kind := name + "\n" + i;
    WrittenIsText(kind, data, None, false);
    assert EventPrefix() + kind == e + "\n" + i;
    BrokenLine(e, i, d + [""]);
    assert FrameLines(kind, data, None, false) == [e + "\n" + i] + (d + [""]);
    PrefixedLines(name, id);
    DataLinesAreLines(Pieces(data));
    var lines := [e, i] + (d + [""]);
    forall k | 0 <= k < |lines| ensures OneLine(lines[k]) {
    }
    LinesOfText(lines);
    FeedBroken(c, name, id, data);
  }

  // A line with a line break in it is two lines.
  lemma BrokenLine(a: string, b: string, rest: seq<string>)
    ensures Text([a + "\n" + b] + rest) == Text([a, b] + rest)
  {
    hide Text;
    TextConcat([a + "\n" + b], rest);
    TextConcat([a, b], rest);
    TextConcat([a], [b]);
    assert [a] + [b] == [a, b];
    OneLineText(a + "\n" + b);
    OneLineText(a);
    OneLineText(b);
    assert a + "\n" + b + "\n" == (a + "\n") + (b + "\n");
  }

  lemma PrefixedLines(name: string, id: string)
    requires OneLine(name) && OneLine(id)
    ensures OneLine(EventPrefix() + name) && OneLine(IdPrefix() + id)
  {
  }

  lemma FeedBroken(c: Client, name: string, id: string, data: string)
    requires Idle(c) && name != "" && GoodId(id)
    ensures FeedAll(c, [EventPrefix() + name, IdPrefix() + id] + (DataLines(Pieces(data)) + [""]))
         == After(c, Message(name, data, Some(id), false))
  {
    hide FeedAll, Feed, DataLines, Pieces, DataPrefix, EventPrefix, IdPrefix, Join;
    var e, i, d := EventPrefix() + name, IdPrefix() + id, DataLines(Pieces(data));
    FeedAllConcat(c, [e, i], d + [""]);
    assert [e, i] == [e] + [i];
    FeedAllConcat(c, [e], [i]);
    FeedOne(c, e);
    FeedEventLine(c, name);
    var c1 := c.(kind := name);
    FeedOne(c1, i);
    FeedIdLine(c1, id);
    var c2 := c1.(lastId := id);
    FeedAllConcat(c2, d, [""]);
    FeedDataLines(c2, Pieces(data));
    JoinIsNormalised(data);
    var c3 := c2.(data := Normalised(data) + "\n");
    assert "" + Normalised(data) + "\n" == Normalised(data) + "\n";
    FeedOne(c3, "");
    FeedBlank(c3);
    assert (Normalised(data) + "\n")[..|Normalised(data)|] == Normalised(data);
  }

  lemma FeedNone(c: Client)
    ensures FeedAll(c, []) == c
  {
  }

  lemma FeedBlank(c: Client)
    ensures Feed(c, "") == Dispatch(c)
  {
  }

  // ---------- Resuming from the last event id ----------

  datatype Position = NoPosition | Malformed | At(offset: nat, epoch: string, stream: string)

  function ParseLastId(lastId: string): Position {
    if lastId == "" then NoPosition else
    var parts := SplitN(lastId, DELIMITER, 3);
    if |parts| != 3 then NoPosition else
    var offset := ParseUint(parts[0]);
    if offset.None? then Malformed else At(offset.value, parts[1], parts[2])
  }

  lemma SplitHead(a: string, b: string, n: nat)
    requires '/' !in a && n >= 2
    ensures SplitN(a + DELIMITER + b, DELIMITER, n) == [a] + SplitN(b, DELIMITER, n - 1)
  {
    FindAfter(a, DELIMITER, b);
  }

  lemma SplitShort(epoch: string, stream: string)
    requires '/' in epoch
    ensures |SplitN(epoch + DELIMITER + stream, DELIMITER, 2)[0]| < |epoch|
  {
    var rest := epoch + DELIMITER + stream;
    var k :| 0 <= k < |epoch| && epoch[k] == '/';
    assert rest[k..k + 1] == DELIMITER;
    assert OccursAt(rest, DELIMITER, k);
  }

  // An id names its position if and only if the epoch has no slash; the stream may have some.
  lemma LastIdRoundTripIff(offset: nat, epoch: string, stream: string)
    requires offset < U64
    ensures ParseLastId(EventId(offset, epoch, stream)) == At(offset, epoch, stream) <==> '/' !in epoch
  {
    hide SplitN, ParseUint, Format;
    var d := Format(offset);
    var rest := epoch + DELIMITER + stream;
    var s := EventId(offset, epoch, stream);
    assert s == d + DELIMITER + rest;
    NoSlash(offset);
    SplitHead(d, rest, 3);
    ParseFormat(offset);
    if '/' !in epoch {
      SplitHead(epoch, stream, 2);
      SplitLast(stream);
    } else {
      SplitShort(epoch, stream);
    }
  }

  lemma EventIdForm(offset: nat, epoch: string, stream: string)
    ensures EventId(offset, epoch, stream) == Format(offset) + "/" + epoch + "/" + stream
  {
  }

  // Otherwise part of the epoch is taken for the stream.
  lemma SlashMovesIntoStream(offset: nat, a: string, b: string, stream: string)
    requires offset < U64 && '/' !in a
    ensures ParseLastId(EventId(offset, a + DELIMITER + b, stream)) == At(offset, a, b + DELIMITER + stream)
  {
    hide SplitN, ParseUint, Format;
    var d := Format(offset);
    var rest := b + DELIMITER + stream;
    assert EventId(offset, a + DELIMITER + b, stream) == d + DELIMITER + (a + DELIMITER + rest);
    NoSlash(offset);
    SplitHead(d, a + DELIMITER + rest, 3);
    SplitHead(a, rest, 2);
    SplitLast(rest);
    ParseFormat(offset);
  }

  lemma NoSlash(n: nat)
    ensures '/' !in Format(n) && Format(n) != ""
  {
  }

  lemma SplitLast(s: string)
    ensures SplitN(s, DELIMITER, 1) == [s]
  {
  }

  // A message without a complete position leaves the client's last id alone.
  lemma IncompletePosition(c: Client, m: Message, offset: nat, epoch: string, stream: string)
    requires m.id == IdFor(offset, epoch, stream) && (offset == 0 || epoch == "" || stream == "")
    ensures After(c, m).lastId == c.lastId
  {
    hide Normalised, Format;
  }

  // What is understood as a position: a 64-bit decimal, then up to a slash the epoch, then the
  // stream. Anything with fewer than two slashes is ignored, and a bad number is an error.
  lemma LastIdForms(d: string, epoch: string, stream: string)
    requires '/' !in d && '/' !in epoch
    ensures ParseLastId(d + DELIMITER + epoch + DELIMITER + stream) ==
            if ParseUint(d).None? then Malformed else At(ParseUint(d).value, epoch, stream)
    ensures ParseLastId(d + DELIMITER + epoch) == NoPosition
    ensures ParseLastId(d) == NoPosition
  {
    hide SplitN, ParseUint;
    assert d + DELIMITER + epoch + DELIMITER + stream == d + DELIMITER + (epoch + DELIMITER + stream);
    SplitHead(d, epoch + DELIMITER + stream, 3);
    SplitHead(epoch, stream, 2);
    SplitLast(stream);
    SplitHead(d, epoch, 3);
    SplitNone(epoch, 2);
    SplitNone(d, 3);
  }

  lemma SplitNone(s: string, n: nat)
    requires '/' !in s && n >= 1
    ensures SplitN(s, DELIMITER, n) == [s]
  {
    NoHeadNoSeparator(s, DELIMITER);
    FindNone(s, DELIMITER);
  }

  lemma {:induction false} AfterMore(c: Client, a: seq<Message>, b: seq<Message>)
    ensures AfterAll(c, a + b) == AfterAll(AfterAll(c, a), b)
  {
    hide After;
    if b == [] {
      assert a + b == a;
    } else {
      AfterMore(c, a, b[..|b| - 1]);
      assert (a + b)[..|a + b| - 1] == a + b[..|b| - 1];
    }
  }

  lemma {:induction false} IdPersists(c: Client, ms: seq<Message>)
    requires forall i :: 0 <= i < |ms| ==> ms[i].id.None?
    ensures AfterAll(c, ms).lastId == c.lastId
  {
    if ms != [] {
      IdPersists(c, ms[..|ms| - 1]);
    }
  }

  // From the broker to the client and back: whatever was sent before a message with a position,
  // and whatever without one after it, a reconnecting client names that position.
  lemma ReconnectResumes(c: Client, before: seq<Message>, m: Message, later: seq<Message>,
                         offset: nat, epoch: string, stream: string)
    requires Idle(c) && Tidy(c) && AllClean(before) && AllClean(later) && OneLine(m.kind)
    requires 0 < offset < U64 && epoch != "" && stream != "" && '/' !in epoch
    requires GoodId(epoch) && GoodId(stream) && m.id == IdFor(offset, epoch, stream)
    requires forall i :: 0 <= i < |later| ==> later[i].id.None?
    ensures ParseLastId(Parse(c, StreamText(before + [m] + later)).lastId) == At(offset, epoch, stream)
  {
    hide Tidy, AfterAll, Parse, StreamText, ParseLastId, Format, Normalised;
    var id := EventId(offset, epoch, stream);
    assert GoodId(id) && m.id == Some(id);
    var ms := before + [m] + later;
    forall i | 0 <= i < |ms| ensures Clean(ms[i]) {
    }
    StreamIsReadIff(c, ms);
    AfterMore(c, before + [m], later);
    AfterMore(c, before, [m]);
    IdPersists(AfterAll(c, before + [m]), later);
    AfterOne(AfterAll(c, before), m);
    LastIdRoundTripIff(offset, epoch, stream);
  }

  lemma AfterOne(c: Client, m: Message)
    ensures AfterAll(c, [m]) == After(c, m)
  {
    assert [m][..0] == [];
    assert AfterAll(c, []) == c;
  }
}
