/** The chat stream on the wire: the server's frame printer, the client's
    incremental parser, and why neither chunking nor content can confuse them. */
module Sse {
  import opened Collections
  import opened Wrappers
  import opened Json

  /** A field's value: null, a string, or any other JSON value as its text. */
  datatype Value = Null | Str(text: string) | Other(json: string)

  type Fields = seq<(string, Value)>

  /** What `JSON.parse` may give: null, an object, or a value without fields. */
  datatype JsonValue = JsonNull | Object(fields: Fields) | NoObject

  /** The browser's `JSON.parse`, None where it raises. */
  type Reader = string -> Option<JsonValue>

  datatype Event =
    | Token(content: Value)
    | Done(turnId: Option<Value>, contextQuality: Option<Value>, createdAt: Option<Value>, saveFailed: Option<Value>)
    | Error(message: Value)

  // ---------- splitting at blank lines ----------

  /** The first position of two line feeds in a row. */
  function FindBlank(s: string): (r: Option<nat>)
    ensures r.Some? ==> r.value + 2 <= |s| && s[r.value] == '\n' && s[r.value + 1] == '\n'
  {
    if |s| < 2 then None
    else if s[0] == '\n' && s[1] == '\n' then Some(0)
    else match FindBlank(s[1..])
      case None => None
      case Some(i) => Some(i + 1)
  }

  /** `split("\n\n")` with the last piece popped: the closed chunks and the remainder. */
  function Split(s: string): (seq<string>, string)
    decreases |s|
  {
    match FindBlank(s)
    case None => ([], s)
    case Some(i) =>
      var (chunks, rest) := Split(s[i + 2..]);
      ([s[..i]] + chunks, rest)
  }

  lemma {:induction false} FindBlankAppend(a: string, b: string)
    ensures FindBlank(a).Some? ==> FindBlank(a + b) == FindBlank(a)
  {
    if |a| >= 2 && !(a[0] == '\n' && a[1] == '\n') {
      FindBlankAppend(a[1..], b);
      assert (a + b)[1..] == a[1..] + b;
    }
  }

  lemma {:induction false} SplitFirst(s: string, head: string, tail: string)
    requires s == head + "\n\n" + tail && FindBlank(s) == Some(|head|)
    ensures Split(s) == ([head] + Split(tail).0, Split(tail).1)
  {
    assert s[..|head|] == head && s[|head| + 2..] == tail;
  }

  /** Splitting a longer buffer is splitting its front, then the remainder with the new text. */
  lemma {:induction false} SplitAppend(a: string, b: string)
    ensures Split(a + b).0 == Split(a).0 + Split(Split(a).1 + b).0
    ensures Split(a + b).1 == Split(Split(a).1 + b).1
    decreases |a|
  {
    FindBlankAppend(a, b);
    if FindBlank(a).Some? {
      var i := FindBlank(a).value;
      var head, tail := a[..i], a[i + 2..];
      assert a == head + "\n\n" + tail;
      assert a + b == head + "\n\n" + (tail + b);
      SplitFirst(a, head, tail);
      SplitFirst(a + b, head, tail + b);
      SplitAppend(tail, b);
    }
  }

  /** A remainder holds no blank line, so splitting it again closes nothing. */
  lemma {:induction false} RemainderIsOpen(s: string)
    ensures FindBlank(Split(s).1) == None && Split(Split(s).1) == ([], Split(s).1)
    decreases |s|
  {
    if FindBlank(s).Some? {
      RemainderIsOpen(s[FindBlank(s).value + 2..]);
    }
  }

  /** It is the first such position, and None says there is none. */
  lemma {:induction false} FindBlankMeans(s: string)
    ensures var n := if FindBlank(s).Some? then FindBlank(s).value else |s|;
            forall i :: 0 <= i < n && i + 1 < |s| ==> !(s[i] == '\n' && s[i + 1] == '\n')
  {
    if |s| >= 2 && !(s[0] == '\n' && s[1] == '\n') {
      FindBlankMeans(s[1..]);
      forall i | 0 < i < (if FindBlank(s).Some? then FindBlank(s).value else |s|) && i + 1 < |s|
        ensures !(s[i] == '\n' && s[i + 1] == '\n')
      {
        assert s[i] == s[1..][i - 1] && s[i + 1] == s[1..][i];
      }
    }
  }

  predicate HasBlank(s: string) {
    exists i :: 0 <= i < |s| - 1 && s[i] == '\n' && s[i + 1] == '\n'
  }

  /** The chunks with a blank line after each, and then the rest. */
  function Joined(chunks: seq<string>, rest: string): string {
    if chunks == [] then rest else chunks[0] + "\n\n" + Joined(chunks[1..], rest)
  }

  /** What stands before the first blank line has none, also with the first of its two newlines. */
  lemma {:induction false} FrontHasNoBlank(s: string, i: nat)
    requires FindBlank(s) == Some(i)
    ensures !HasBlank(s[..i] + "\n")
  {
    var front := s[..i] + "\n";
    FindBlankMeans(s);
    forall k | 0 <= k < |front| - 1 ensures !(front[k] == '\n' && front[k + 1] == '\n') {
      assert front[k] == s[k] && front[k + 1] == s[k + 1];
    }
  }

  lemma {:induction false} JoinedFirst(c: string, chunks: seq<string>, rest: string)
    ensures Joined([c] + chunks, rest) == c + "\n\n" + Joined(chunks, rest)
  {
    assert ([c] + chunks)[1..] == chunks;
  }

  lemma {:induction false} SplitJoins(s: string)
    ensures Joined(Split(s).0, Split(s).1) == s
    decreases |s|
  {
    match FindBlank(s)
    case None =>
    case Some(i) =>
      var tail := s[i + 2..];
      SplitJoins(tail);
      JoinedFirst(s[..i], Split(tail).0, Split(tail).1);
      assert s == s[..i] + "\n\n" + tail;
  }

  lemma {:induction false} SplitRestIsOpen(s: string)
    ensures !HasBlank(Split(s).1)
    decreases |s|
  {
    match FindBlank(s)
    case None => FindBlankMeans(s);
    case Some(i) => SplitRestIsOpen(s[i + 2..]);
  }

  lemma {:induction false} SplitChunksAreClosed(s: string, c: string)
    requires c in Split(s).0
    ensures !HasBlank(c + "\n")
    decreases |s|
  {
    var i := FindBlank(s).value;
    if c == s[..i] {
      FrontHasNoBlank(s, i);
    } else {
      SplitChunksAreClosed(s[i + 2..], c);
    }
  }

  /** Splitting cuts at every blank line, from the left, and loses nothing. */
  lemma {:induction false} SplitMeans(s: string)
    ensures Joined(Split(s).0, Split(s).1) == s && !HasBlank(Split(s).1)
    ensures forall c :: c in Split(s).0 ==> !HasBlank(c + "\n")
  {
    SplitJoins(s);
    SplitRestIsOpen(s);
    forall c | c in Split(s).0 ensures !HasBlank(c + "\n") {
      SplitChunksAreClosed(s, c);
    }
  }

  // ---------- one chunk ----------

  /** JavaScript's white space and line terminators. */
  predicate IsSpace(c: char) {
    var n := c as int;
    || 9 <= n <= 13 || n == 0x20 || n == 0xA0 || n == 0x1680 || 0x2000 <= n <= 0x200A
    || n == 0x2028 || n == 0x2029 || n == 0x202F || n == 0x205F || n == 0x3000 || n == 0xFEFF
  }

  function TrimStart(s: string): string {
    if s != "" && IsSpace(s[0]) then TrimStart(s[1..]) else s
  }

  function TrimEnd(s: string): string {
    if s != "" && IsSpace(s[|s| - 1]) then TrimEnd(s[..|s| - 1]) else s
  }

  function Trim(s: string): string {
    TrimEnd(TrimStart(s))
  }

  predicate AllSpace(s: string) {
    forall i :: 0 <= i < |s| ==> IsSpace(s[i])
  }

  /** Among the ASCII characters, white space is the five controls from tab on and the blank. */
  lemma {:induction false} AsciiSpaces(c: char)
    requires c as int < 128
    ensures IsSpace(c) <==> c as int in {9, 10, 11, 12, 13, 32}
  {
  }

  lemma {:induction false} TrimStartMeans(s: string) returns (before: string)
    ensures s == before + TrimStart(s) && AllSpace(before)
    ensures TrimStart(s) != "" ==> !IsSpace(TrimStart(s)[0])
  {
    before := "";
    if s != "" && IsSpace(s[0]) {
      var rest := TrimStartMeans(s[1..]);
      before := [s[0]] + rest;
      assert s == [s[0]] + s[1..];
    }
  }

  lemma {:induction false} TrimEndStops(s: string)
    ensures TrimEnd(s) != "" ==> !IsSpace(TrimEnd(s)[|TrimEnd(s)| - 1])
  {
    if s != "" && IsSpace(s[|s| - 1]) { TrimEndStops(s[..|s| - 1]); }
  }

  lemma {:induction false} TrimEndCuts(s: string, i: nat)
    ensures TrimEnd(s) <= s
    ensures |TrimEnd(s)| <= i < |s| ==> IsSpace(s[i])
  {
    if s != "" && IsSpace(s[|s| - 1]) { TrimEndCuts(s[..|s| - 1], i); }
  }

  lemma {:induction false} TrimEndMeans(s: string) returns (after: string)
    ensures s == TrimEnd(s) + after && AllSpace(after)
    ensures TrimEnd(s) != "" ==> TrimEnd(s)[0] == s[0] && !IsSpace(TrimEnd(s)[|TrimEnd(s)| - 1])
  {
    var n := |TrimEnd(s)|;
    TrimEndStops(s);
    TrimEndCuts(s, n);
    after := s[n..];
    forall i | 0 <= i < |after| ensures IsSpace(after[i]) {
      TrimEndCuts(s, n + i);
    }
  }

  /** Trimming takes away white space at both ends, all of it and nothing else. */
  lemma {:induction false} TrimMeans(s: string) returns (before: string, after: string)
    ensures s == before + Trim(s) + after && AllSpace(before) && AllSpace(after)
    ensures Trim(s) != "" ==> !IsSpace(Trim(s)[0]) && !IsSpace(Trim(s)[|Trim(s)| - 1])
  {
    before := TrimStartMeans(s);
    after := TrimEndMeans(TrimStart(s));
    assert before + (Trim(s) + after) == before + Trim(s) + after;
  }

  /** The last value under a name, as `JSON.parse` keeps it; None is `undefined`. */
  function Field(ms: Fields, name: string): Option<Value>
    decreases |ms|
  {
    if ms == [] then None
    else if ms[|ms| - 1].0 == name then Some(ms[|ms| - 1].1)
    else Field(ms[..|ms| - 1], name)
  }

  lemma {:induction false} FieldMeans(ms: Fields, name: string)
    ensures Field(ms, name).None? <==> forall i :: 0 <= i < |ms| ==> ms[i].0 != name
    ensures Field(ms, name).Some? ==>
              exists i :: 0 <= i < |ms| && ms[i] == (name, Field(ms, name).value)
                          && forall j :: i < j < |ms| ==> ms[j].0 != name
    decreases |ms|
  {
    if ms != [] {
      var n := |ms| - 1;
      FieldMeans(ms[..n], name);
      if ms[n].0 != name && Field(ms[..n], name).Some? {
        var i :| 0 <= i < n && ms[..n][i] == (name, Field(ms[..n], name).value)
                 && forall j :: i < j < n ==> ms[..n][j].0 != name;
        forall j | i < j < |ms| ensures ms[j].0 != name {
          assert j < n ==> ms[..n][j] == ms[j];
        }
        assert ms[i] == ms[..n][i];
      } else if ms[n].0 != name {
        assert forall i :: 0 <= i < n ==> ms[i] == ms[..n][i];
      }
    }
  }

  /** `v ?? d`. */
  function OrElse(v: Option<Value>, d: string): Value {
    if v.None? || v.value.Null? then Str(d) else v.value
  }

  function ToEvent(ms: Fields): Option<Event> {
    var kind := Field(ms, "type");
    if kind == Some(Str("token")) then Some(Token(OrElse(Field(ms, "content"), "")))
    else if kind == Some(Str("done")) then
      Some(Done(Field(ms, "turn_id"), Field(ms, "context_quality"), Field(ms, "created_at"), Field(ms, "save_failed")))
    else if kind == Some(Str("error")) then Some(Error(OrElse(Field(ms, "message"), "An error occurred.")))
    else None
  }

  /** The events of the three types, a missing or null text replaced by its default; any other
      type, or none, gives no event. */
  lemma {:induction false} ToEventMeans(ms: Fields)
    ensures var kind, text, message := Field(ms, "type"), Field(ms, "content"), Field(ms, "message");
            && (kind == Some(Str("token")) ==>
                  ToEvent(ms) == Some(Token(if text.None? || text.value == Null then Str("") else text.value)))
            && (kind == Some(Str("error")) ==>
                  ToEvent(ms) == Some(Error(if message.None? || message.value == Null then Str("An error occurred.")
                                            else message.value)))
            && (kind == Some(Str("done")) ==>
                  ToEvent(ms) == Some(Done(Field(ms, "turn_id"), Field(ms, "context_quality"),
                                           Field(ms, "created_at"), Field(ms, "save_failed"))))
            && (kind !in {Some(Str("token")), Some(Str("error")), Some(Str("done"))} ==> ToEvent(ms) == None)
  {
  }

  /** The JSON value of a chunk, if it is a data line that can be read. */
  function Payload(chunk: string, parse: Reader): Option<JsonValue> {
    var line := Trim(chunk);
    if !("data:" <= line) then None
    else
      var json := Trim(line[5..]);
      if json == "" then None else parse(json)
  }

  /** Reading a field of null raises. */
  predicate Raises(chunk: string, parse: Reader) {
    Payload(chunk, parse) == Some(JsonNull)
  }

  /** The event of one chunk that does not raise, if its object is of a known type. */
  function ChunkEvent(chunk: string, parse: Reader): Option<Event> {
    var payload := Payload(chunk, parse);
    if payload.Some? && payload.value.Object? then ToEvent(payload.value.fields) else None
  }

  function EventsOf(chunks: seq<string>, parse: Reader): seq<Event> {
    if chunks == [] then []
    else EventsOf(chunks[..|chunks| - 1], parse)
         + (var e := ChunkEvent(chunks[|chunks| - 1], parse); if e.Some? then [e.value] else [])
  }

  lemma {:induction false} EventsOfAppend(a: seq<string>, b: seq<string>, parse: Reader)
    ensures EventsOf(a + b, parse) == EventsOf(a, parse) + EventsOf(b, parse)
    decreases |b|
  {
    if b == [] {
      assert a + b == a;
    } else {
      assert (a + b)[..|a + b| - 1] == a + b[..|b| - 1];
      EventsOfAppend(a, b[..|b| - 1], parse);
    }
  }

  lemma {:induction false} OneChunk(chunk: string, parse: Reader)
    ensures EventsOf([chunk], parse)
         == if ChunkEvent(chunk, parse).Some? then [ChunkEvent(chunk, parse).value] else []
  {
    assert [chunk][..0] == [];
  }

  /** A chunk is read exactly if, trimmed, it begins with "data:" and has more than white space
      after it; what is read is that rest, trimmed. An object gives its event, null raises,
      anything else is passed over. */
  lemma {:induction false} ChunkMeans(chunk: string, parse: Reader)
    ensures var line := Trim(chunk);
            var readable := |line| >= 5 && line[..5] == "data:" && Trim(line[5..]) != "";
            && (!readable ==> !Raises(chunk, parse) && ChunkEvent(chunk, parse) == None)
            && (readable ==>
                  var json := parse(Trim(line[5..]));
                  && (Raises(chunk, parse) <==> json == Some(JsonNull))
                  && ChunkEvent(chunk, parse)
                     == if json.Some? && json.value.Object? then ToEvent(json.value.fields) else None)
  {
  }

  predicate Clean(chunks: seq<string>, parse: Reader) {
    forall n :: 0 <= n < |chunks| ==> !Raises(chunks[n], parse)
  }

  // ---------- the parser and the read loop ----------

  /** `parseSSEBuffer` either raises or gives the events of the closed chunks and the remainder. */
  function Parsed(buffer: string, parse: Reader): Option<(seq<Event>, string)> {
    var (chunks, rest) := Split(buffer);
    if Clean(chunks, parse) then Some((EventsOf(chunks, parse), rest)) else None
  }

  /** `parseSSEBuffer`: a loop over the closed chunks. */
  method ParseSSEBuffer(buffer: string, parse: Reader) returns (r: Option<(seq<Event>, string)>)
    ensures r == Parsed(buffer, parse)
  {
    var (chunks, rest) := Split(buffer);
    var events := [];
    TakeAll(chunks);
    for n := 0 to |chunks|
      invariant Clean(chunks[..n], parse) && events == EventsOf(chunks[..n], parse)
    {
      TakeOneMore(chunks, n);
      if Raises(chunks[n], parse) { return None; }
      var e := ChunkEvent(chunks[n], parse);
      if e.Some? { events := events + [e.value]; }
    }
    r := Some((events, rest));
  }

  function Concat(pieces: seq<string>): string {
    if pieces == [] then "" else Concat(pieces[..|pieces| - 1]) + pieces[|pieces| - 1]
  }

  /** Where the read loop stands: what it dispatched, what it kept, and whether it raised. */
  datatype Feed = Feed(events: seq<Event>, buffer: string, raised: bool)

  /** One more piece; a parse that raises dispatches nothing of its read and ends the loop. */
  function FeedOne(f: Feed, piece: string, parse: Reader): Feed {
    if f.raised then f
    else match Parsed(f.buffer + piece, parse)
      case None => Feed(f.events, f.buffer + piece, true)
      case Some((events, rest)) => Feed(f.events + events, rest, false)
  }

  /** Feeding the pieces one by one through the remainder. */
  function FeedAll(pieces: seq<string>, parse: Reader): Feed {
    if pieces == [] then Feed([], "", false)
    else FeedOne(FeedAll(pieces[..|pieces| - 1], parse), pieces[|pieces| - 1], parse)
  }

  /** The read loop of `send`: pieces arrive in any chunking, `flushed` is what the decoder
      still held at the end. */
  method ReadLoop(pieces: seq<string>, flushed: string, parse: Reader) returns (events: seq<Event>, raised: bool)
    ensures events == FeedAll(pieces + [flushed], parse).events && raised == FeedAll(pieces + [flushed], parse).raised
  {
    var buffer := "";
    events := [];
    TakeAll(pieces);
    assert (pieces + [flushed])[..|pieces|] == pieces;
    for n := 0 to |pieces|
      invariant FeedAll(pieces[..n], parse) == Feed(events, buffer, false)
    {
      TakeOneMore(pieces, n);
      buffer := buffer + pieces[n];
      var found := ParseSSEBuffer(buffer, parse);
      if found.None? {
        RaisedStays(pieces, n + 1, flushed, parse);
        return events, true;
      }
      events, buffer := events + found.value.0, found.value.1;
    }
    buffer := buffer + flushed;
    raised := false;
    if buffer != "" {
      var found := ParseSSEBuffer(buffer, parse);
      if found.None? { return events, true; }
      events := events + found.value.0;
    }
  }

  lemma {:induction false} RaisedStays(pieces: seq<string>, n: nat, flushed: string, parse: Reader)
    requires n <= |pieces| && FeedAll(pieces[..n], parse).raised
    ensures FeedAll(pieces + [flushed], parse) == FeedAll(pieces[..n], parse)
    decreases |pieces| - n
  {
    if n == |pieces| {
      TakeAll(pieces);
      assert (pieces + [flushed])[..|pieces|] == pieces;
    } else {
      TakeOneMore(pieces, n);
      RaisedStays(pieces, n + 1, flushed, parse);
    }
  }

  // ---------- chunking ----------

  lemma {:induction false} ParsedAppend(a: string, b: string, parse: Reader)
    requires Clean(Split(a).0, parse)
    ensures Clean(Split(a + b).0, parse) <==> Clean(Split(Split(a).1 + b).0, parse)
    ensures EventsOf(Split(a + b).0, parse) == EventsOf(Split(a).0, parse) + EventsOf(Split(Split(a).1 + b).0, parse)
    ensures Split(a + b).1 == Split(Split(a).1 + b).1
  {
    SplitAppend(a, b);
    var c1, c2 := Split(a).0, Split(Split(a).1 + b).0;
    EventsOfAppend(c1, c2, parse);
    CleanAppend(c1, c2, parse);
  }

  lemma {:induction false} CleanAppend(a: seq<string>, b: seq<string>, parse: Reader)
    ensures Clean(a + b, parse) <==> Clean(a, parse) && Clean(b, parse)
  {
    if Clean(a + b, parse) {
      forall n | 0 <= n < |a| ensures !Raises(a[n], parse) { assert (a + b)[n] == a[n]; }
      forall n | 0 <= n < |b| ensures !Raises(b[n], parse) { assert (a + b)[|a| + n] == b[n]; }
    }
  }

  /** A stream whose chunks all parse gives every reader the same: its events, its open end,
      and no exception. One with a chunk that raises makes every reader raise. */
  lemma {:induction false} FeedIsParse(pieces: seq<string>, parse: Reader)
    ensures var (chunks, rest) := Split(Concat(pieces));
            if Clean(chunks, parse) then FeedAll(pieces, parse) == Feed(EventsOf(chunks, parse), rest, false)
            else FeedAll(pieces, parse).raised
  {
    if pieces != [] {
      var front, last := pieces[..|pieces| - 1], pieces[|pieces| - 1];
      FeedIsParse(front, parse);
      SplitAppend(Concat(front), last);
      CleanAppend(Split(Concat(front)).0, Split(Split(Concat(front)).1 + last).0, parse);
      if Clean(Split(Concat(front)).0, parse) {
        ParsedAppend(Concat(front), last, parse);
      }
    }
  }

  /** The number of chunks before the first one that raises. */
  function CleanPrefix(chunks: seq<string>, parse: Reader): (m: nat)
    ensures m <= |chunks| && Clean(chunks[..m], parse)
    ensures m < |chunks| ==> Raises(chunks[m], parse)
  {
    if chunks == [] then 0
    else
      var m := CleanPrefix(chunks[..|chunks| - 1], parse);
      assert chunks[..|chunks| - 1][..m] == chunks[..m];
      if m < |chunks| - 1 || Raises(chunks[|chunks| - 1], parse) then m
      else
        assert chunks[..m + 1] == chunks[..m] + [chunks[m]];
        CleanAppend(chunks[..m], [chunks[m]], parse);
        m + 1
  }

  lemma {:induction false} FrontOfParts(head: string, tail: string, q: nat)
    requires q <= |tail|
    ensures (head + "\n\n" + tail)[..|head| + 2 + q] == head + "\n\n" + tail[..q]
  {
  }

  lemma {:induction false} FrontOfCons(head: string, tail: seq<string>, m: nat)
    requires 1 <= m <= |tail| + 1
    ensures ([head] + tail)[..m] == [head] + tail[..m - 1]
  {
  }

  /** Any number of chunks of a stream are closed by some front part of it. */
  lemma {:induction false} FrontCloses(text: string, m: nat) returns (p: nat)
    requires m <= |Split(text).0|
    ensures p <= |text| && Split(text[..p]) == (Split(text).0[..m], "")
    decreases |text|
  {
    if m == 0 {
      p := 0;
    } else {
      var head, tail := FirstParts(text);
      var q := FrontCloses(tail, m - 1);
      p := |head| + 2 + q;
      FrontOfParts(head, tail, q);
      BlankInFront(text, p);
      SplitFirst(text, head, tail);
      SplitFirst(text[..p], head, tail[..q]);
      FrontOfCons(head, Split(tail).0, m);
    }
  }

  lemma {:induction false} FirstParts(text: string) returns (head: string, tail: string)
    requires Split(text).0 != []
    ensures text == head + "\n\n" + tail && FindBlank(text) == Some(|head|) && |tail| < |text|
  {
    var i := FindBlank(text).value;
    head, tail := text[..i], text[i + 2..];
  }

  lemma {:induction false} BlankInFront(text: string, p: nat)
    requires FindBlank(text).Some? && FindBlank(text).value + 2 <= p <= |text|
    ensures FindBlank(text[..p]) == FindBlank(text)
  {
    if !(text[0] == '\n' && text[1] == '\n') {
      BlankInFront(text[1..], p - 1);
      assert text[..p][1..] == text[1..][..p - 1];
    }
  }

  lemma {:induction false} CleanFront(chunks: seq<string>, m: nat, k: nat, parse: Reader)
    requires m <= |chunks|
    ensures Clean(chunks[..m], parse) && k < m ==> !Raises(chunks[k], parse)
  {
    assert k < m ==> chunks[..m][k] == chunks[k];
  }

  lemma {:induction false} CleanPrefixIs(chunks: seq<string>, m: nat, parse: Reader)
    requires m < |chunks| && Clean(chunks[..m], parse) && Raises(chunks[m], parse)
    ensures CleanPrefix(chunks, parse) == m
  {
    var k := CleanPrefix(chunks, parse);
    CleanFront(chunks, m, k, parse);
    CleanFront(chunks, k, m, parse);
  }

  lemma {:induction false} AppendAt(a: seq<string>, b: seq<string>, k: nat)
    ensures k < |a| ==> (a + b)[k] == a[k]
  {
  }

  lemma {:induction false} CleanPrefixGrows(a: seq<string>, b: seq<string>, parse: Reader)
    ensures var k := CleanPrefix(a + b, parse);
            if Clean(a, parse) then |a| <= k else k == CleanPrefix(a, parse) < |a|
  {
    if Clean(a, parse) {
      AppendAt(a, b, CleanPrefix(a + b, parse));
    } else {
      var m := CleanPrefix(a, parse);
      TakeAll(a);
      assert (a + b)[..m] == a[..m] && (a + b)[m] == a[m];
      CleanPrefixIs(a + b, m, parse);
    }
  }

  lemma {:induction false} FrontOfAppend(a: seq<string>, b: seq<string>, k: nat)
    requires k <= |a + b|
    ensures k <= |a| ==> (a + b)[..k] == a[..k]
    ensures |a| <= k ==> (a + b)[..k] == a + b[..k - |a|]
  {
  }

  /** What is dispatched is a front part of the events before the first raising chunk. */
  predicate DispatchesFront(pieces: seq<string>, parse: Reader) {
    var chunks := Split(Concat(pieces)).0;
    FeedAll(pieces, parse).events <= EventsOf(chunks[..CleanPrefix(chunks, parse)], parse)
  }

  lemma {:induction false} DispatchedAreFront(pieces: seq<string>, parse: Reader)
    ensures DispatchesFront(pieces, parse)
  {
    if pieces != [] {
      var front, last := pieces[..|pieces| - 1], pieces[|pieces| - 1];
      DispatchedAreFront(front, parse);
      OneMorePiece(front, last, parse);
      assert front + [last] == pieces;
    }
  }

  lemma {:induction false} OneMorePiece(front: seq<string>, last: string, parse: Reader)
    requires DispatchesFront(front, parse)
    ensures DispatchesFront(front + [last], parse)
  {
    var (c1, rest) := Split(Concat(front));
    var c2 := Split(rest + last).0;
    assert (front + [last])[..|front|] == front;
    FeedIsParse(front, parse);
    SplitAppend(Concat(front), last);
    FeedOneEvents(FeedAll(front, parse), last, parse);
    if Clean(c1, parse) {
      CleanFrontStays(c1, c2, parse);
      if Clean(c2, parse) {
        CleanWholeStays(c1, c2, parse);
      }
    } else {
      FrontOfRaising(c1, c2, parse);
    }
  }

  lemma {:induction false} FeedOneEvents(f: Feed, piece: string, parse: Reader)
    ensures f.raised ==> FeedOne(f, piece, parse) == f
    ensures !f.raised && Clean(Split(f.buffer + piece).0, parse) ==>
              FeedOne(f, piece, parse).events == f.events + EventsOf(Split(f.buffer + piece).0, parse)
    ensures !f.raised && !Clean(Split(f.buffer + piece).0, parse) ==> FeedOne(f, piece, parse).events == f.events
  {
  }

  lemma {:induction false} EventsOfFront(a: seq<string>, b: seq<string>, k: nat, parse: Reader)
    requires |a| <= k <= |a + b|
    ensures EventsOf((a + b)[..k], parse) == EventsOf(a, parse) + EventsOf(b[..k - |a|], parse)
  {
    FrontOfAppend(a, b, k);
    EventsOfAppend(a, b[..k - |a|], parse);
  }

  /** A clean front keeps all of its events. */
  lemma {:induction false} CleanFrontStays(a: seq<string>, b: seq<string>, parse: Reader)
    requires Clean(a, parse)
    ensures EventsOf(a, parse) <= EventsOf((a + b)[..CleanPrefix(a + b, parse)], parse)
  {
    CleanPrefixGrows(a, b, parse);
    EventsOfFront(a, b, CleanPrefix(a + b, parse), parse);
  }

  lemma {:induction false} CleanWholeStays(a: seq<string>, b: seq<string>, parse: Reader)
    requires Clean(a, parse) && Clean(b, parse)
    ensures EventsOf((a + b)[..CleanPrefix(a + b, parse)], parse) == EventsOf(a, parse) + EventsOf(b, parse)
  {
    CleanPieceIsWhole(a, b, parse);
    EventsOfFront(a, b, |a + b|, parse);
  }

  lemma {:induction false} FrontOfRaising(a: seq<string>, b: seq<string>, parse: Reader)
    requires !Clean(a, parse)
    ensures (a + b)[..CleanPrefix(a + b, parse)] == a[..CleanPrefix(a, parse)]
  {
    CleanPrefixGrows(a, b, parse);
    FrontOfAppend(a, b, CleanPrefix(a + b, parse));
  }

  /** If the new piece raises nothing, all of its chunks stand before the first raising one. */
  lemma {:induction false} CleanPieceIsWhole(a: seq<string>, b: seq<string>, parse: Reader)
    requires Clean(a, parse)
    ensures Clean(b, parse) ==> CleanPrefix(a + b, parse) == |a + b| && b[..|b|] == b
  {
    CleanAppend(a, b, parse);
  }

  lemma {:induction false} OneRead(text: string, parse: Reader)
    requires !Clean(Split(text).0, parse)
    ensures Concat([text]) == text && FeedAll([text], parse).events == []
  {
    assert [text][..0] == [] && "" + text == text;
  }

  lemma {:induction false} TwoReads(text: string, p: nat, parse: Reader)
    requires p <= |text| && !Clean(Split(text).0, parse) && Clean(Split(text[..p]).0, parse)
    ensures Concat([text[..p], text[p..]]) == text
    ensures FeedAll([text[..p], text[p..]], parse).events == EventsOf(Split(text[..p]).0, parse)
  {
    var first, both := [text[..p]], [text[..p], text[p..]];
    assert first[..0] == [] && both[..1] == first && "" + text[..p] == text[..p];
    assert text[..p] + text[p..] == text;
    FeedIsParse(first, parse);
    FeedIsParse(both, parse);
  }

  /** Two chunkings of one stream dispatch the same events exactly if no chunk raises or
      nothing is dispatched before the first that does: a raising read loses the events
      that share it. */
  lemma {:induction false} ChunkingIsIrrelevantIff(text: string, parse: Reader)
    ensures SameForAllChunkings(text, parse)
            <==> Clean(Split(text).0, parse)
                 || EventsOf(Split(text).0[..CleanPrefix(Split(text).0, parse)], parse) == []
  {
    if Clean(Split(text).0, parse) {
      CleanIsSame(text, parse);
    } else {
      RaisingIsSameIff(text, parse);
    }
  }

  lemma {:induction false} CleanIsSame(text: string, parse: Reader)
    requires Clean(Split(text).0, parse)
    ensures SameForAllChunkings(text, parse)
  {
    forall a: seq<string>, b: seq<string> | Concat(a) == text && Concat(b) == text
      ensures FeedAll(a, parse).events == FeedAll(b, parse).events
    {
      FeedIsParse(a, parse);
      FeedIsParse(b, parse);
    }
  }

  lemma {:induction false} RaisingIsSameIff(text: string, parse: Reader)
    requires !Clean(Split(text).0, parse)
    ensures SameForAllChunkings(text, parse)
            <==> EventsOf(Split(text).0[..CleanPrefix(Split(text).0, parse)], parse) == []
  {
    var chunks := Split(text).0;
    var m := CleanPrefix(chunks, parse);
    if EventsOf(chunks[..m], parse) == [] {
      NothingBeforeIsSame(text, parse);
    } else {
      var p := FrontCloses(text, m);
      OneRead(text, parse);
      TwoReads(text, p, parse);
      NotSame(text, [text], [text[..p], text[p..]], parse);
    }
  }

  lemma {:induction false} NothingBeforeIsSame(text: string, parse: Reader)
    requires EventsOf(Split(text).0[..CleanPrefix(Split(text).0, parse)], parse) == []
    ensures SameForAllChunkings(text, parse)
  {
    forall a: seq<string>, b: seq<string> | Concat(a) == text && Concat(b) == text
      ensures FeedAll(a, parse).events == FeedAll(b, parse).events
    {
      DispatchedAreFront(a, parse);
      DispatchedAreFront(b, parse);
    }
  }

  lemma {:induction false} NotSame(text: string, a: seq<string>, b: seq<string>, parse: Reader)
    requires Concat(a) == text && Concat(b) == text && FeedAll(a, parse).events != FeedAll(b, parse).events
    ensures !SameForAllChunkings(text, parse)
  {
  }

  /** However the stream is cut, the same events are dispatched. */
  ghost predicate SameForAllChunkings(text: string, parse: Reader) {
    forall a: seq<string>, b: seq<string> {:trigger FeedAll(a, parse), FeedAll(b, parse)} ::
      Concat(a) == text && Concat(b) == text ==> FeedAll(a, parse).events == FeedAll(b, parse).events
  }

  // ---------- the printer ----------

  datatype Item =
    | Text(text: string)
    | DoneItem(turnId: string, contextQuality: string, createdAt: string)

  function ItemMembers(item: Item): Members {
    match item
    case Text(text) => [("type", "token"), ("content", text)]
    case DoneItem(turnId, quality, createdAt) =>
      [("type", "done"), ("turn_id", turnId), ("context_quality", quality), ("created_at", createdAt)]
  }

  function ErrorMembers(message: string): Members {
    [("type", "error"), ("message", message)]
  }

  function Frame(ms: Members): string {
    "data: " + Dumps(ms) + "\n\n"
  }

  /** `generate`: one frame per item, and an error frame if the model call failed after
      them. The source has one fixed error message; here it is any. */
  function Print(items: seq<Item>, failed: Option<string>): string {
    if items == [] then (if failed.Some? then Frame(ErrorMembers(failed.value)) else "")
    else Frame(ItemMembers(items[0])) + Print(items[1..], failed)
  }

  function ItemEvent(item: Item): Event {
    match item
    case Text(text) => Token(Str(text))
    case DoneItem(turnId, quality, createdAt) => Done(Some(Str(turnId)), Some(Str(quality)), Some(Str(createdAt)), None)
  }

  function Expected(items: seq<Item>, failed: Option<string>): seq<Event> {
    if items == [] then (if failed.Some? then [Error(Str(failed.value))] else [])
    else [ItemEvent(items[0])] + Expected(items[1..], failed)
  }

  /** The events a stream should give, one per item and an error at the end if the call failed. */
  lemma {:induction false} ExpectedMeans(items: seq<Item>, failed: Option<string>)
    ensures |Expected(items, failed)| == |items| + if failed.Some? then 1 else 0
    ensures failed.Some? ==> Expected(items, failed)[|items|] == Error(Str(failed.value))
    ensures forall k :: 0 <= k < |items| ==>
              Expected(items, failed)[k]
              == match items[k]
                 case Text(text) => Token(Str(text))
                 case DoneItem(turnId, quality, createdAt) =>
                   Done(Some(Str(turnId)), Some(Str(quality)), Some(Str(createdAt)), None)
  {
    if items != [] {
      ExpectedMeans(items[1..], failed);
      forall k | 0 < k < |items| ensures Expected(items, failed)[k] == Expected(items[1..], failed)[k - 1] {
      }
    }
  }

  // ---------- the round trip ----------

  function AsFields(ms: Members): Fields {
    seq(|ms|, i requires 0 <= i < |ms| => (ms[i].0, Str(ms[i].1)))
  }

  /** A reader that inverts `json.dumps` on dictionaries of strings. */
  ghost predicate ReadsDumps(parse: Reader) {
    forall ms :: parse(Dumps(ms)) == Some(Object(AsFields(ms)))
  }

  /** The JSON text of null. */
  const NULL := "null"

  /** There is one that reads the JSON text of null as null. */
  lemma {:induction false} SuchAReaderExists() returns (parse: Reader)
    ensures ReadsDumps(parse) && parse(NULL) == Some(JsonNull)
  {
    parse := text => if text == NULL then Some(JsonNull)
                     else match ReadObject(text)
                       case None => None
                       case Some(ms) => Some(Object(AsFields(ms)));
    forall ms ensures parse(Dumps(ms)) == Some(Object(AsFields(ms))) {
      DumpsRoundTrip(ms);
      assert Dumps(ms)[0] != NULL[0];
    }
  }


  lemma {:induction false} FindBlankAfterLine(line: string, rest: string)
    requires line != "" && Printable(line)
    ensures FindBlank(line + "\n\n" + rest) == Some(|line|)
  {
    var s := line + "\n\n" + rest;
    if |line| == 1 {
      assert s[1..] == "\n\n" + rest;
    } else {
      assert s[1..] == line[1..] + "\n\n" + rest;
      FindBlankAfterLine(line[1..], rest);
    }
  }

  /** A printed frame closes as exactly one chunk, and leaves the rest of the stream to itself. */
  lemma {:induction false} FrameSplits(ms: Members, rest: string)
    ensures Split(Frame(ms) + rest) == (["data: " + Dumps(ms)] + Split(rest).0, Split(rest).1)
  {
    var line := "data: " + Dumps(ms);
    DumpsIsOneLine(ms);
    assert Printable(line);
    FindBlankAfterLine(line, rest);
    var s := Frame(ms) + rest;
    assert s == line + "\n\n" + rest;
    assert s[..|line|] == line && s[|line| + 2..] == rest;
  }

  lemma {:induction false} TrimKeeps(s: string)
    requires s != "" && !IsSpace(s[0]) && !IsSpace(s[|s| - 1])
    ensures Trim(s) == s && Trim(" " + s) == s
  {
    assert (" " + s)[1..] == s;
    assert TrimStart(" " + s) == TrimStart(s);
  }

  lemma {:induction false} DataChunk(text: string, json: JsonValue, parse: Reader)
    requires text != "" && !IsSpace(text[0]) && !IsSpace(text[|text| - 1]) && parse(text) == Some(json)
    ensures Payload("data: " + text, parse) == Some(json)
  {
    var line := "data: " + text;
    TrimKeeps(line);
    TrimKeeps(text);
    assert line[5..] == " " + text;
  }

  lemma {:induction false} FramePayload(ms: Members, parse: Reader)
    requires ReadsDumps(parse)
    ensures Payload("data: " + Dumps(ms), parse) == Some(Object(AsFields(ms)))
  {
    DumpsIsOneLine(ms);
    DataChunk(Dumps(ms), Object(AsFields(ms)), parse);
  }

  /** The rest of a stream after a printed frame parses as it would alone, one event later. */
  lemma {:induction false} PrintedFrame(ms: Members, e: Event, rest: string, parse: Reader)
    requires ReadsDumps(parse) && ToEvent(AsFields(ms)) == Some(e)
    ensures Parsed(Frame(ms) + rest, parse) ==
            match Parsed(rest, parse)
            case None => None
            case Some((events, open)) => Some(([e] + events, open))
  {
    var chunk := "data: " + Dumps(ms);
    FrameSplits(ms, rest);
    FramePayload(ms, parse);
    EventsOfAppend([chunk], Split(rest).0, parse);
    CleanAppend([chunk], Split(rest).0, parse);
    assert EventsOf([chunk], parse) == [e] by {
      assert [chunk][..0] == [];
    }
  }

  lemma {:induction false} FieldOfLast(ms: Members, key: string, value: string, name: string)
    ensures Field(AsFields(ms + [(key, value)]), name)
         == if key == name then Some(Str(value)) else Field(AsFields(ms), name)
  {
    assert AsFields(ms + [(key, value)])[..|ms|] == AsFields(ms);
  }

  lemma {:induction false} NoField(ms: Members, name: string)
    requires ms == []
    ensures Field(AsFields(ms), name) == None
  {
  }

  lemma {:induction false} TextRoundTrip(text: string)
    ensures ToEvent(AsFields(ItemMembers(Text(text)))) == Some(Token(Str(text)))
  {
    var first: Members := [("type", "token")];
    assert ItemMembers(Text(text)) == first + [("content", text)];
    FieldOfLast(first, "content", text, "type");
    FieldOfLast(first, "content", text, "content");
    OneField("token");
  }

  lemma {:induction false} ErrorRoundTrip(message: string)
    ensures ToEvent(AsFields(ErrorMembers(message))) == Some(Error(Str(message)))
  {
    var first: Members := [("type", "error")];
    assert ErrorMembers(message) == first + [("message", message)];
    FieldOfLast(first, "message", message, "type");
    FieldOfLast(first, "message", message, "message");
    OneField("error");
  }

  lemma {:induction false} OneField(kind: string)
    ensures Field(AsFields([("type", kind)]), "type") == Some(Str(kind))
  {
    var none: Members := [];
    assert none + [("type", kind)] == [("type", kind)];
    FieldOfLast(none, "type", kind, "type");
  }

  lemma {:induction false} DoneField(item: Item, name: string)
    requires item.DoneItem?
    ensures Field(AsFields(ItemMembers(item)), name) ==
              if name == "created_at" then Some(Str(item.createdAt))
              else if name == "context_quality" then Some(Str(item.contextQuality))
              else if name == "turn_id" then Some(Str(item.turnId))
              else if name == "type" then Some(Str("done"))
              else None
  {
    var first: Members := [];
    var two := first + [("type", "done")];
    var three := two + [("turn_id", item.turnId)];
    var four := three + [("context_quality", item.contextQuality)];
    assert ItemMembers(item) == four + [("created_at", item.createdAt)];
    NoField(first, name);
    FieldOfLast(first, "type", "done", name);
    FieldOfLast(two, "turn_id", item.turnId, name);
    FieldOfLast(three, "context_quality", item.contextQuality, name);
    FieldOfLast(four, "created_at", item.createdAt, name);
  }

  lemma {:induction false} ItemRoundTrip(item: Item)
    ensures ToEvent(AsFields(ItemMembers(item))) == Some(ItemEvent(item))
  {
    if item.Text? {
      TextRoundTrip(item.text);
    } else {
      DoneField(item, "type");
      DoneField(item, "turn_id");
      DoneField(item, "context_quality");
      DoneField(item, "created_at");
      DoneField(item, "save_failed");
    }
  }

  lemma {:induction false} NothingParses(text: string, parse: Reader)
    requires text == ""
    ensures Parsed(text, parse) == Some(([], ""))
  {
  }

  lemma {:induction false} LastFrame(ms: Members, e: Event, parse: Reader)
    requires ReadsDumps(parse) && ToEvent(AsFields(ms)) == Some(e)
    ensures Parsed(Frame(ms), parse) == Some(([e], ""))
  {
    PrintedFrame(ms, e, "", parse);
    NothingParses("", parse);
    assert Frame(ms) + "" == Frame(ms) && [e] + [] == [e];
  }

  /** Whatever the model says, line breaks, quotes and all: the printed stream parses
      back to exactly its events, without raising and with nothing left over. */
  lemma {:induction false} PrintParses(items: seq<Item>, failed: Option<string>, parse: Reader)
    requires ReadsDumps(parse)
    ensures Parsed(Print(items, failed), parse) == Some((Expected(items, failed), ""))
  {
    if items == [] {
      if failed.Some? {
        ErrorRoundTrip(failed.value);
        LastFrame(ErrorMembers(failed.value), Error(Str(failed.value)), parse);
      } else {
        NothingParses(Print(items, failed), parse);
      }
    } else {
      var ms, e, rest := ItemMembers(items[0]), ItemEvent(items[0]), Print(items[1..], failed);
      ItemRoundTrip(items[0]);
      PrintedFrame(ms, e, rest, parse);
      PrintParses(items[1..], failed, parse);
      assert Print(items, failed) == Frame(ms) + rest;
      assert Expected(items, failed) == [e] + Expected(items[1..], failed);
    }
  }

  /** End to end: however the network cuts the printed stream, the client dispatches exactly
      the server's events and never raises. */
  lemma {:induction false} StreamArrivesIntact(items: seq<Item>, failed: Option<string>, pieces: seq<string>,
      parse: Reader)
    requires ReadsDumps(parse) && Concat(pieces) == Print(items, failed)
    ensures FeedAll(pieces, parse) == Feed(Expected(items, failed), "", false)
  {
    FeedIsParse(pieces, parse);
    PrintParses(items, failed, parse);
  }

  /** The JSON text that raises does lose events: in one read with a token before it nothing
      is dispatched, in two reads the token is. */
  lemma {:induction false} NullLosesItsRead(text: string, nil: string, parse: Reader)
    requires ReadsDumps(parse) && parse(nil) == Some(JsonNull)
    requires nil != "" && Printable(nil) && !IsSpace(nil[0]) && !IsSpace(nil[|nil| - 1])
    ensures !SameForAllChunkings(Frame(ItemMembers(Text(text))) + ("data: " + nil + "\n\n"), parse)
  {
    var frame, last := Frame(ItemMembers(Text(text))), "data: " + nil + "\n\n";
    TextRoundTrip(text);
    LastFrame(ItemMembers(Text(text)), Token(Str(text)), parse);
    NilChunkRaises(nil, parse);
    LoneRaises("data: " + nil, parse);
    TokenThenRaise(frame, [Token(Str(text))], last, ["data: " + nil], parse);
  }

  lemma {:induction false} NilChunkRaises(nil: string, parse: Reader)
    requires parse(nil) == Some(JsonNull)
    requires nil != "" && Printable(nil) && !IsSpace(nil[0]) && !IsSpace(nil[|nil| - 1])
    ensures Split("data: " + nil + "\n\n") == (["data: " + nil], "") && Raises("data: " + nil, parse)
  {
    var line := "data: " + nil;
    DataChunk(nil, JsonNull, parse);
    FindBlankAfterLine(line, "");
    SplitFirst(line + "\n\n" + "", line, "");
    assert line + "\n\n" + "" == line + "\n\n" && [line] + [] == [line];
    NothingSplits("");
  }

  lemma {:induction false} LoneRaises(chunk: string, parse: Reader)
    requires Raises(chunk, parse)
    ensures !Clean([chunk], parse)
  {
    assert Raises([chunk][0], parse);
  }

  lemma {:induction false} NothingSplits(text: string)
    requires text == ""
    ensures Split(text) == ([], "")
  {
  }

  lemma {:induction false} TokenThenRaise(front: string, events: seq<Event>, last: string, chunk: seq<string>,
      parse: Reader)
    requires Parsed(front, parse) == Some((events, "")) && events != []
    requires Split(last) == (chunk, "") && !Clean(chunk, parse)
    ensures !SameForAllChunkings(front + last, parse)
  {
    var before := Split(front).0;
    var k := CleanPrefix(before + chunk, parse);
    assert "" + last == last;
    SplitAppend(front, last);
    CleanAppend(before, chunk, parse);
    CleanPrefixGrows(before, chunk, parse);
    FrontOfAppend(before, chunk, k);
    EventsOfAppend(before, chunk[..k - |before|], parse);
    ChunkingIsIrrelevantIff(front + last, parse);
  }

  lemma {:induction false} NullText() returns (nil: string)
    ensures nil == NULL && nil != "" && Printable(nil) && !IsSpace(nil[0]) && !IsSpace(nil[|nil| - 1])
  {
    nil := NULL;
  }

  /** Such a stream under such a reader: a token and then `data: null`. */
  lemma {:induction false} NullStreamLosesItsRead(text: string) returns (parse: Reader, nil: string)
    ensures ReadsDumps(parse) && parse(nil) == Some(JsonNull) && nil == NULL
    ensures !SameForAllChunkings(Frame(ItemMembers(Text(text))) + ("data: " + nil + "\n\n"), parse)
  {
    parse := SuchAReaderExists();
    nil := NullText();
    NullLosesItsRead(text, nil, parse);
  }
}
