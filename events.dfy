/**
 * The progress messages the transfer generator yields: a kind and a payload,
 * written on the wire as `kind:payload`.
 */
module Events {
  import opened Wrappers
  import opened PyStr

  datatype Event =
    | Info(payload: string)
    | Success(payload: string)
    | Warning(payload: string)
    | Error(payload: string)
    | Complete(payload: string)

  datatype EventKind = InfoKind | SuccessKind | WarningKind | ErrorKind | CompleteKind

  function Kind(e: Event): EventKind {
    match e
    case Info(_) => InfoKind
    case Success(_) => SuccessKind
    case Warning(_) => WarningKind
    case Error(_) => ErrorKind
    case Complete(_) => CompleteKind
  }

  /** The kind as written on the wire. */
  function KindName(k: EventKind): string {
    match k
    case InfoKind => "info"
    case SuccessKind => "success"
    case WarningKind => "warning"
    case ErrorKind => "error"
    case CompleteKind => "complete"
  }

  /** The message as the generator yields it: `kind:payload`. */
  function Line(e: Event): string {
    KindName(Kind(e)) + ":" + e.payload
  }

  function FromKind(kind: string, payload: string): Option<Event> {
    if kind == "info" then Some(Info(payload))
    else if kind == "success" then Some(Success(payload))
    else if kind == "warning" then Some(Warning(payload))
    else if kind == "error" then Some(Error(payload))
    else if kind == "complete" then Some(Complete(payload))
    else None
  }

  /** A reader for the message format, not part of the program: the kind is everything before the first `:`. */
  function ParseLine(line: string): Option<Event> {
    match Find(line, ":")
    case None => None
    case Some(i) => FromKind(line[..i], line[i + 1..])
  }

  /** Every message reads back as the event it was written from, whatever its payload. */
  lemma ParseLineOfLine(e: Event)
    ensures ParseLine(Line(e)) == Some(e)
  {
    var name := KindName(Kind(e));
    FindChar(name, ':', e.payload);
    assert Line(e) == name + [':'] + e.payload;
    assert Line(e)[..|name|] == name;
    assert Line(e)[|name| + 1..] == e.payload;
  }

  /** A line reads as an event only if it is exactly that event's message. */
  lemma LineOfParseLine(line: string, e: Event)
    requires ParseLine(line) == Some(e)
    ensures Line(e) == line
  {
    var i := Find(line, ":").value;
    CharOfOccurrence(line, ":", i, i);
    assert line == line[..i] + ":" + line[i + 1..];
  }

  /** The number of events of the given kind. */
  function CountKind(events: seq<Event>, kind: EventKind): nat {
    if events == [] then 0
    else CountKind(events[..|events| - 1], kind) + (if Kind(events[|events| - 1]) == kind then 1 else 0)
  }

  lemma {:induction false} CountKindAppend(a: seq<Event>, b: seq<Event>, kind: EventKind)
    ensures CountKind(a + b, kind) == CountKind(a, kind) + CountKind(b, kind)
    decreases |b|
  {
    if b != [] {
      assert (a + b)[..|a + b| - 1] == a + b[..|b| - 1];
      CountKindAppend(a, b[..|b| - 1], kind);
    } else {
      assert a + b == a;
    }
  }

  /** Counting a stream of three parts, part by part. */
  lemma CountKindThree(a: seq<Event>, b: seq<Event>, c: seq<Event>, kind: EventKind)
    ensures CountKind(a + b + c, kind) == CountKind(a, kind) + CountKind(b, kind) + CountKind(c, kind)
  {
    CountKindAppend(a, b, kind);
    CountKindAppend(a + b, c, kind);
  }

  lemma CountKindOne(e: Event, kind: EventKind)
    ensures CountKind([e], kind) == if Kind(e) == kind then 1 else 0
  {
    assert [e][..0] == [];
  }

  lemma CountKindTwo(e1: Event, e2: Event, kind: EventKind)
    ensures CountKind([e1, e2], kind) == (if Kind(e1) == kind then 1 else 0) + (if Kind(e2) == kind then 1 else 0)
  {
    assert [e1, e2][..1] == [e1];
    CountKindOne(e1, kind);
  }

  /** No event of the given kind: the count is zero exactly then. */
  lemma {:induction false} CountKindZero(events: seq<Event>, kind: EventKind)
    ensures CountKind(events, kind) == 0 <==> forall k :: 0 <= k < |events| ==> Kind(events[k]) != kind
    decreases |events|
  {
    if events != [] {
      var init := events[..|events| - 1];
      CountKindZero(init, kind);
      assert forall k :: 0 <= k < |init| ==> init[k] == events[k];
    }
  }
}
