/** `readEventStream` of `ui/src/agentSession.ts`: an incremental reader of server-sent events, framed as
    in section 9.2 of the WHATWG HTML Living Standard. Chunks are decoded text; `decode` stands for
    JSON.parse followed by the event checks. */
module EventStream {
  import opened Wrappers

  // ----- frames -----

  /** The length of a match of /\r?\n\r?\n/ starting at `i`, or 0. */
  function SeparatorAt(text: string, i: nat): nat
    requires i <= |text|
  {
    var first := if i < |text| && text[i] == '\r' then i + 1 else i;
    if first < |text| && text[first] == '\n' then
      var second := if first + 1 < |text| && text[first + 1] == '\r' then first + 2 else first + 1;
      if second < |text| && text[second] == '\n' then second + 1 - i else 0
    else 0
  }

  predicate Separates(text: string, i: nat) {
    i <= |text| && SeparatorAt(text, i) > 0
  }

  /** The first separator at or after `from`. */
  function FirstSeparator(text: string, from: nat): (at: Option<nat>)
    requires from <= |text|
    ensures at == None ==> forall i :: from <= i <= |text| ==> !Separates(text, i)
    ensures at.Some? ==> from <= at.value && Separates(text, at.value) && forall i :: from <= i < at.value ==> !Separates(text, i)
    decreases |text| - from
  {
    if SeparatorAt(text, from) > 0 then Some(from)
    else if from == |text| then None
    else FirstSeparator(text, from + 1)
  }

  lemma {:induction false} SeparatorFits(text: string, i: nat)
    requires i <= |text|
    ensures i + SeparatorAt(text, i) <= |text|
  {
  }

  datatype Pieces = Pieces(frames: seq<string>, rest: string)

  /** `text.split(/\r?\n\r?\n/)` with the last piece popped off. */
  function Split(text: string): Pieces
    decreases |text|
  {
    match FirstSeparator(text, 0)
    case None => Pieces([], text)
    case Some(i) =>
      SeparatorFits(text, i);
      var tail := Split(text[i + SeparatorAt(text, i)..]);
      Pieces([text[..i]] + tail.frames, tail.rest)
  }

  /** More text never moves, shortens or precedes a separator that is already complete. */
  lemma {:induction false} SeparatorIsStable(text: string, more: string, i: nat)
    requires FirstSeparator(text, 0) == Some(i)
    ensures FirstSeparator(text + more, 0) == Some(i)
    ensures SeparatorAt(text + more, i) == SeparatorAt(text, i)
  {
    var whole := text + more;
    SeparatorFits(text, i);
    assert SeparatorAt(whole, i) == SeparatorAt(text, i);
    forall j | 0 <= j < i ensures !Separates(whole, j) {
      assert !Separates(text, j);
      SeparatorFits(text, j);
    }
    var found := FirstSeparator(whole, 0);
    assert Separates(whole, i);
  }

  lemma {:induction false} FirstSeparatorIs(text: string, i: nat)
    requires Separates(text, i) && forall j :: 0 <= j < i ==> !Separates(text, j)
    ensures FirstSeparator(text, 0) == Some(i)
  {
  }

  lemma {:induction false} SplitStep(text: string, i: nat)
    requires FirstSeparator(text, 0) == Some(i)
    ensures i + SeparatorAt(text, i) <= |text|
    ensures var tail := Split(text[i + SeparatorAt(text, i)..]);
            Split(text) == Pieces([text[..i]] + tail.frames, tail.rest)
  {
    SplitStepExtended(text, "", i);
    var tail := text[i + SeparatorAt(text, i)..];
    assert text + "" == text && tail + "" == tail;
  }

  /** Splitting what is left over, with the next chunk, continues the split of the whole text. */
  lemma {:induction false} SplitContinues(text: string, more: string)
    ensures Continues(Split(text + more), Split(text), Split(Split(text).rest + more))
    decreases |text|, 1
  {
    var first := FirstSeparator(text, 0);
    if first == None {
      assert Split(text) == Pieces([], text);
      Prepend([], Split(text + more).frames, []);
    } else {
      SplitContinuesPast(text, more, first.value);
    }
  }

  lemma {:induction false} Prepend(one: seq<string>, two: seq<string>, three: seq<string>)
    ensures one + (two + three) == (one + two) + three
    ensures [] + two == two
  {
  }

  lemma {:induction false} CutExtended(text: string, more: string, n: nat)
    requires n <= |text|
    ensures (text + more)[n..] == text[n..] + more && (text + more)[..n] == text[..n]
  {
  }

  /** Splitting at the first separator. */
  lemma {:induction false} SplitAt(text: string, i: nat, head: string, tail: string)
    requires FirstSeparator(text, 0) == Some(i) && i + SeparatorAt(text, i) <= |text|
    requires head == text[..i] && tail == text[i + SeparatorAt(text, i)..]
    ensures Split(text) == Pieces([head] + Split(tail).frames, Split(tail).rest)
  {
    var pieces := Split(text);
    assert pieces.frames == [head] + Split(tail).frames;
    assert pieces.rest == Split(tail).rest;
  }

  /** Cutting off the first frame of a text cuts it off the extended text, too. */
  lemma {:induction false} SplitStepExtended(text: string, more: string, i: nat)
    requires FirstSeparator(text, 0) == Some(i)
    ensures i + SeparatorAt(text, i) <= |text|
    ensures var tail := text[i + SeparatorAt(text, i)..];
            Split(text + more) == Pieces([text[..i]] + Split(tail + more).frames, Split(tail + more).rest)
  {
    SeparatorFits(text, i);
    var n := i + SeparatorAt(text, i);
    var whole, tail := text + more, text[n..] + more;
    assert FirstSeparator(whole, 0) == Some(i) && SeparatorAt(whole, i) == n - i by { SeparatorIsStable(text, more, i); }
    assert whole[n..] == tail && whole[..i] == text[..i] by {
      CutExtended(text, more, n);
      CutExtended(text, more, i);
    }
    SplitAt(whole, i, text[..i], tail);
  }

  predicate Continues(whole: Pieces, first: Pieces, second: Pieces) {
    whole.frames == first.frames + second.frames && whole.rest == second.rest
  }

  lemma {:induction false} ContinuesPast(head: string, whole: Pieces, first: Pieces, second: Pieces)
    requires Continues(whole, first, second)
    ensures Continues(Pieces([head] + whole.frames, whole.rest), Pieces([head] + first.frames, first.rest), second)
  {
    Prepend([head], first.frames, second.frames);
  }

  lemma {:induction false} SplitContinuesPast(text: string, more: string, i: nat)
    requires FirstSeparator(text, 0) == Some(i)
    ensures Continues(Split(text + more), Split(text), Split(Split(text).rest + more))
    decreases |text|, 0
  {
    SplitStep(text, i);
    SplitStepExtended(text, more, i);
    var tail := text[i + SeparatorAt(text, i)..];
    SplitContinues(tail, more);
    ContinuesPast(text[..i], Split(tail + more), Split(tail), Split(Split(tail).rest + more));
  }

  // ----- one frame -----

  function Lines(text: string): (lines: seq<string>)
    ensures |lines| >= 1
    decreases |text|
  {
    if exists i :: 0 <= i < |text| && text[i] == '\n' then
      var i := FirstNewline(text, 0);
      [text[..i]] + Lines(text[i + 1..])
    else [text]
  }

  function FirstNewline(text: string, from: nat): (i: nat)
    requires exists i :: from <= i < |text| && text[i] == '\n'
    ensures from <= i < |text| && text[i] == '\n' && forall j :: from <= j < i ==> text[j] != '\n'
    decreases |text| - from
  {
    if text[from] == '\n' then from else FirstNewline(text, from + 1)
  }

  function WithoutReturn(line: string): string {
    if line != [] && line[|line| - 1] == '\r' then line[..|line| - 1] else line
  }

  predicate IsSpace(c: char) {
    || c in {' ', '\t', '\n', '\r', '\U{B}', '\U{C}', '\U{A0}', '\U{1680}', '\U{2028}', '\U{2029}', '\U{202F}', '\U{205F}', '\U{3000}', '\U{FEFF}'}
    || '\U{2000}' <= c <= '\U{200A}'
  }

  function TrimStart(text: string): string {
    if text != [] && IsSpace(text[0]) then TrimStart(text[1..]) else text
  }

  function TrimEnd(text: string): string {
    if text != [] && IsSpace(text[|text| - 1]) then TrimEnd(text[..|text| - 1]) else text
  }

  function Trim(text: string): string {
    TrimEnd(TrimStart(text))
  }

  predicate StartsWith(line: string, prefix: string) {
    |prefix| <= |line| && line[..|prefix|] == prefix
  }

  /** The value of the first `event:` line. */
  function EventName(lines: seq<string>): Option<string> {
    if lines == [] then None
    else
      var line := WithoutReturn(lines[0]);
      if StartsWith(line, "event:") then Some(Trim(line[6..])) else EventName(lines[1..])
  }

  function DataLines(lines: seq<string>): seq<string> {
    if lines == [] then []
    else
      var line := WithoutReturn(lines[0]);
      (if StartsWith(line, "data:") then [TrimStart(line[5..])] else []) + DataLines(lines[1..])
  }

  function Join(lines: seq<string>): string {
    if lines == [] then "" else if |lines| == 1 then lines[0] else lines[0] + "\n" + Join(lines[1..])
  }

  /** The JSON text of an agent event, if the frame is one. */
  function Payload(frame: string): Option<string> {
    var lines := Lines(frame);
    if EventName(lines) != Some("agent_event") then None else Some(Join(DataLines(lines)))
  }

  // ----- delivery -----

  datatype Decoded<+E> = NotJson | BadEvent | Good(event: E)
  datatype StreamError = InvalidFrame | InvalidEvent | Truncated
  datatype Delivery<+E> = Delivery(events: seq<E>, error: Option<StreamError>)

  /** `processChunk` on one frame, after what was already delivered. */
  function Process<E>(decode: string -> Decoded<E>, delivery: Delivery<E>, frame: string): Delivery<E> {
    if delivery.error.Some? then delivery
    else
      match Payload(frame)
      case None => delivery
      case Some(raw) =>
        match decode(raw)
        case NotJson => delivery.(error := Some(InvalidFrame))
        case BadEvent => delivery.(error := Some(InvalidEvent))
        case Good(event) => delivery.(events := delivery.events + [event])
  }

  function ProcessAll<E>(decode: string -> Decoded<E>, delivery: Delivery<E>, frames: seq<string>): Delivery<E>
    decreases |frames|
  {
    if frames == [] then delivery
    else ProcessAll(decode, Process(decode, delivery, frames[0]), frames[1..])
  }

  /** The last, unterminated piece: not being JSON there means the stream broke off. */
  function ProcessLast<E>(decode: string -> Decoded<E>, delivery: Delivery<E>, rest: string): Delivery<E> {
    if delivery.error.Some? || Trim(rest) == "" then delivery
    else
      var last := Process(decode, delivery, rest);
      if last.error == Some(InvalidFrame) then last.(error := Some(Truncated)) else last
  }

  /** The meaning of a stream, from its whole text at once. */
  function Whole<E>(decode: string -> Decoded<E>, text: string): Delivery<E> {
    ProcessLast(decode, ProcessAll(decode, Delivery([], None), Split(text).frames), Split(text).rest)
  }

  lemma {:induction false} ProcessAllAppends<E>(decode: string -> Decoded<E>, delivery: Delivery<E>, one: seq<string>, two: seq<string>)
    ensures ProcessAll(decode, delivery, one + two) == ProcessAll(decode, ProcessAll(decode, delivery, one), two)
    decreases |one|
  {
    if one == [] {
      assert one + two == two;
    } else {
      assert (one + two)[1..] == one[1..] + two;
      ProcessAllAppends(decode, Process(decode, delivery, one[0]), one[1..], two);
    }
  }

  lemma {:induction false} ErrorStops<E>(decode: string -> Decoded<E>, delivery: Delivery<E>, frames: seq<string>)
    requires delivery.error.Some?
    ensures ProcessAll(decode, delivery, frames) == delivery
    decreases |frames|
  {
    if frames != [] { ErrorStops(decode, delivery, frames[1..]); }
  }

  function Concat(chunks: seq<string>): string
    decreases |chunks|
  {
    if chunks == [] then "" else Concat(chunks[..|chunks| - 1]) + chunks[|chunks| - 1]
  }

  lemma {:induction false} ConcatPrefix(chunks: seq<string>, k: nat)
    requires k <= |chunks|
    ensures Concat(chunks[..k]) <= Concat(chunks)
    decreases |chunks|
  {
    if k < |chunks| {
      assert chunks[..|chunks| - 1][..k] == chunks[..k];
      ConcatPrefix(chunks[..|chunks| - 1], k);
    } else {
      assert chunks[..k] == chunks;
    }
  }

  /** Once a prefix has failed, the whole stream has. */
  lemma {:induction false} FailedPrefix<E>(decode: string -> Decoded<E>, text: string, whole: string)
    requires text <= whole
    requires ProcessAll(decode, Delivery([], None), Split(text).frames).error.Some?
    ensures Whole(decode, whole) == ProcessAll(decode, Delivery([], None), Split(text).frames)
  {
    var more := whole[|text|..];
    assert whole == text + more;
    SplitContinues(text, more);
    var first := ProcessAll(decode, Delivery([], None), Split(text).frames);
    ProcessAllAppends(decode, Delivery([], None), Split(text).frames, Split(Split(text).rest + more).frames);
    ErrorStops(decode, first, Split(Split(text).rest + more).frames);
  }

  /** The frames of one chunk, one after the other, until one throws. */
  method Deliver<E>(decode: string -> Decoded<E>, sofar: Delivery<E>, frames: seq<string>) returns (delivery: Delivery<E>)
    ensures delivery == ProcessAll(decode, sofar, frames)
  {
    delivery := sofar;
    for i := 0 to |frames|
      invariant delivery == ProcessAll(decode, sofar, frames[..i])
    {
      assert frames[..i + 1] == frames[..i] + [frames[i]];
      ProcessAllAppends(decode, sofar, frames[..i], [frames[i]]);
      delivery := Process(decode, delivery, frames[i]);
    }
    assert frames[..|frames|] == frames;
  }

  /** The reader as it runs: a buffer, split after every chunk. However the stream was cut, it delivers
      what the whole text means. */
  method ReadEventStream<E>(decode: string -> Decoded<E>, chunks: seq<string>) returns (delivery: Delivery<E>)
    ensures delivery == Whole(decode, Concat(chunks))
  {
    var buffer := "";
    delivery := Delivery([], None);
    assert Split("") == Pieces([], "");
    for i := 0 to |chunks|
      invariant delivery.error == None
      invariant buffer == Split(Concat(chunks[..i])).rest
      invariant delivery == ProcessAll(decode, Delivery([], None), Split(Concat(chunks[..i])).frames)
    {
      ghost var before := Concat(chunks[..i]);
      assert chunks[..i + 1][..i] == chunks[..i];
      assert Concat(chunks[..i + 1]) == before + chunks[i];
      SplitContinues(before, chunks[i]);
      ProcessAllAppends(decode, Delivery([], None), Split(before).frames, Split(buffer + chunks[i]).frames);
      var pieces := Split(buffer + chunks[i]);
      buffer := pieces.rest;
      delivery := Deliver(decode, delivery, pieces.frames);
      if delivery.error.Some? {
        ConcatPrefix(chunks, i + 1);
        FailedPrefix(decode, Concat(chunks[..i + 1]), Concat(chunks));
        return;
      }
    }
    assert chunks[..|chunks|] == chunks;
    delivery := ProcessLast(decode, delivery, buffer);
  }

  // ----- what the server prints -----

  /** `_sse("agent_event", data)`. */
  function Sse(json: string): string {
    "event: agent_event\ndata: " + json + "\n\n"
  }

  function SseAll(payloads: seq<string>): string {
    if payloads == [] then "" else Sse(payloads[0]) + SseAll(payloads[1..])
  }

  /** JSON text as json.dumps prints an object: one line, starting with its brace. */
  predicate ObjectText(json: string) {
    json != [] && json[0] == '{' && forall i :: 0 <= i < |json| ==> json[i] != '\n' && json[i] != '\r'
  }

  lemma {:induction false} LinesOf(head: string, tail: string)
    requires forall i :: 0 <= i < |head| ==> head[i] != '\n'
    requires forall i :: 0 <= i < |tail| ==> tail[i] != '\n'
    ensures Lines(head + "\n" + tail) == [head, tail]
  {
    var text := head + "\n" + tail;
    assert text[|head|] == '\n';
    assert FirstNewline(text, 0) == |head|;
    assert text[..|head|] == head && text[|head| + 1..] == tail;
  }

  const EVENT: string := "event: agent_event"

  lemma {:induction false} KeepsLine(line: string)
    requires line != [] && line[|line| - 1] != '\r'
    ensures WithoutReturn(line) == line
  {
  }

  lemma {:induction false} TrimOne(text: string)
    requires text != [] && !IsSpace(text[0])
    ensures TrimStart(" " + text) == text
  {
    assert (" " + text)[1..] == text;
    assert TrimStart(text) == text;
  }

  lemma {:induction false} NamesEvent(tail: string)
    ensures EventName([EVENT, tail]) == Some("agent_event")
  {
    KeepsLine(EVENT);
    assert EVENT[..6] == "event:" && EVENT[6..] == " " + "agent_event";
    TrimOne("agent_event");
    assert TrimEnd("agent_event") == "agent_event";
  }

  lemma {:induction false} DataLine(json: string)
    requires ObjectText(json)
    ensures DataLines(["data: " + json]) == [json]
  {
    var tail := "data: " + json;
    KeepsLine(tail);
    assert tail[..5] == "data:" && tail[5..] == " " + json;
    TrimOne(json);
    assert [tail][1..] == [];
    assert DataLines([]) == [];
  }

  lemma {:induction false} DataOfSse(json: string)
    requires ObjectText(json)
    ensures DataLines([EVENT, "data: " + json]) == [json]
  {
    DataLine(json);
    var lines := [EVENT, "data: " + json];
    assert lines[1..] == ["data: " + json];
    KeepsLine(EVENT);
    assert !StartsWith(EVENT, "data:") by { assert EVENT[0] == 'e'; }
    assert [] + [json] == [json];
  }

  lemma {:induction false} PayloadOfSse(json: string)
    requires ObjectText(json)
    ensures Payload(EVENT + "\n" + ("data: " + json)) == Some(json)
  {
    LinesOf(EVENT, "data: " + json);
    NamesEvent("data: " + json);
    DataOfSse(json);
  }

  /** What the server prints is one frame and its separator. */
  function FrameOf(json: string): string { EVENT + "\n" + ("data: " + json) }

  lemma {:induction false} SseIsFrame(json: string)
    ensures Sse(json) == FrameOf(json) + "\n\n"
  {
  }

  /** The only newline of a frame is followed by its data line. */
  lemma {:induction false} FrameChars(json: string, i: nat)
    requires ObjectText(json) && i < |FrameOf(json)|
    ensures FrameOf(json)[i] != '\r' && (FrameOf(json)[i] == '\n' ==> i == |EVENT| && i + 1 < |FrameOf(json)| && FrameOf(json)[i + 1] == 'd')
  {
    var frame := FrameOf(json);
    if i > |EVENT| + 6 { assert frame[i] == json[i - |EVENT| - 7]; }
  }

  lemma {:induction false} NoSeparatorInside(json: string, text: string, i: nat)
    requires ObjectText(json) && i < |FrameOf(json)| <= |text| && text[..|FrameOf(json)|] == FrameOf(json)
    ensures !Separates(text, i)
  {
    var frame := FrameOf(json);
    FrameChars(json, i);
    assert text[i] == frame[i];
    if i + 1 < |frame| {
      FrameChars(json, i + 1);
      assert text[i + 1] == frame[i + 1];
    }
  }

  lemma {:induction false} SplitSse(json: string, more: string)
    requires ObjectText(json)
    ensures Split(Sse(json) + more).frames == [FrameOf(json)] + Split(more).frames
    ensures Split(Sse(json) + more).rest == Split(more).rest
  {
    var frame := FrameOf(json);
    var text := Sse(json) + more;
    SseIsFrame(json);
    assert text == frame + ("\n\n" + more);
    assert text[..|frame|] == frame && text[|frame| + 2..] == more;
    assert text[|frame|] == '\n' && text[|frame| + 1] == '\n';
    forall i | 0 <= i < |frame| ensures !Separates(text, i) { NoSeparatorInside(json, text, i); }
    assert SeparatorAt(text, |frame|) == 2;
    FirstSeparatorIs(text, |frame|);
    SplitStep(text, |frame|);
  }

  /** Every payload is one object on one line and decodes to its event. */
  ghost predicate Printed<E>(decode: string -> Decoded<E>, payloads: seq<string>, events: seq<E>) {
    |events| == |payloads| &&
    forall i :: 0 <= i < |payloads| ==> ObjectText(payloads[i]) && decode(payloads[i]) == Good(events[i])
  }

  lemma {:induction false} PrintedTail<E>(decode: string -> Decoded<E>, payloads: seq<string>, events: seq<E>)
    requires Printed(decode, payloads, events) && payloads != []
    ensures Printed(decode, payloads[1..], events[1..])
    ensures ObjectText(payloads[0]) && decode(payloads[0]) == Good(events[0])
  {
  }

  /** What remains to be read once the frames of `payloads` are processed after `sofar`. */
  ghost predicate ReadsAs<E>(decode: string -> Decoded<E>, payloads: seq<string>, sofar: seq<E>, total: seq<E>) {
    && Split(SseAll(payloads)).rest == ""
    && ProcessAll(decode, Delivery(sofar, None), Split(SseAll(payloads)).frames) == Delivery(total, None)
  }

  lemma {:induction false} ReadsNothing<E>(decode: string -> Decoded<E>, sofar: seq<E>)
    ensures ReadsAs(decode, [], sofar, sofar)
  {
    assert FirstSeparator("", 0) == None;
  }

  lemma {:induction false} ReadsOneMore<E>(decode: string -> Decoded<E>, payloads: seq<string>, event: E, sofar: seq<E>, total: seq<E>)
    requires payloads != [] && ObjectText(payloads[0]) && decode(payloads[0]) == Good(event)
    requires ReadsAs(decode, payloads[1..], sofar + [event], total)
    ensures ReadsAs(decode, payloads, sofar, total)
  {
    PrintedEventIsRead(decode, payloads, event, Delivery(sofar, None));
  }

  lemma {:induction false} PrintedEventsAreRead<E>(decode: string -> Decoded<E>, payloads: seq<string>, events: seq<E>, sofar: seq<E>)
    requires Printed(decode, payloads, events)
    ensures ReadsAs(decode, payloads, sofar, sofar + events)
    decreases |payloads|
  {
    if payloads == [] {
      assert sofar + events == sofar;
      ReadsNothing(decode, sofar);
    } else {
      PrintedTail(decode, payloads, events);
      PrintedEventsAreRead(decode, payloads[1..], events[1..], sofar + [events[0]]);
      assert (sofar + [events[0]]) + events[1..] == sofar + events;
      ReadsOneMore(decode, payloads, events[0], sofar, sofar + events);
    }
  }

  lemma {:induction false} PrintedEventIsRead<E>(decode: string -> Decoded<E>, payloads: seq<string>, event: E, sofar: Delivery<E>)
    requires payloads != [] && sofar.error == None
    requires ObjectText(payloads[0]) && decode(payloads[0]) == Good(event)
    ensures Split(SseAll(payloads)).rest == Split(SseAll(payloads[1..])).rest
    ensures ProcessAll(decode, sofar, Split(SseAll(payloads)).frames) ==
            ProcessAll(decode, Delivery(sofar.events + [event], None), Split(SseAll(payloads[1..])).frames)
  {
    SplitSse(payloads[0], SseAll(payloads[1..]));
    PayloadOfSse(payloads[0]);
    FrameThenTail(decode, sofar, FrameOf(payloads[0]), Split(SseAll(payloads[1..])).frames);
  }

  lemma {:induction false} FrameThenTail<E>(decode: string -> Decoded<E>, sofar: Delivery<E>, frame: string, tail: seq<string>)
    ensures ProcessAll(decode, sofar, [frame] + tail) == ProcessAll(decode, Process(decode, sofar, frame), tail)
  {
    assert ([frame] + tail)[1..] == tail;
  }

  /** However the connection cuts it, the client recovers exactly the events the server printed. */
  lemma {:induction false} RoundTrip<E>(decode: string -> Decoded<E>, payloads: seq<string>, events: seq<E>, chunks: seq<string>)
    requires Printed(decode, payloads, events)
    requires Concat(chunks) == SseAll(payloads)
    ensures Whole(decode, Concat(chunks)) == Delivery(events, None)
  {
    PrintedEventsAreRead(decode, payloads, events, []);
    assert [] + events == events;
  }
}
