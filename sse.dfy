/** The progress channel's messages (server.js, `send` in
    `GET /api/progress/:id`): an event is written as `data:<JSON>` followed by
    a blank line. The decoder is the reading a client performs with
    `JSON.parse` on each message. */
module Sse {
  import opened Wrappers
  import opened Numbers

  /** `{ pct }` with the percentage in tenths, or `{ done: true }`. */
  datatype Event = Progress(pct: nat) | Done

  const PctOpen := "{\"pct\":"
  const DoneJson := "{\"done\":true}"

  /** `JSON.stringify` of the event object. */
  function Json(e: Event): (j: string)
    ensures '\n' !in j
  {
    match e
    case Progress(t) =>
      var j := PctOpen + TenthsText(t) + "}";
      assert forall i :: 0 <= i < |j| ==> j[i] != '\n' by {
        forall i | 0 <= i < |j| ensures j[i] != '\n' {
          if |PctOpen| <= i < |PctOpen| + |TenthsText(t)| {
            assert j[i] == TenthsText(t)[i - |PctOpen|];
          }
        }
      }
      j
    case Done => DoneJson
  }

  /** One server-sent-events message. */
  function Frame(e: Event): string {
    "data:" + Json(e) + "\n\n"
  }

  function DecodeJson(j: string): (r: Option<Event>) {
    if j == DoneJson then Some(Done)
    else if |j| > |PctOpen| && j[..|PctOpen|] == PctOpen && j[|j| - 1] == '}' then
      match DecimalTenths(j[|PctOpen|..|j| - 1])
      case Some(t) => Some(Progress(t))
      case None => None
    else None
  }

  /** The message body: the text after "data:" up to the blank line. */
  function DecodeFrame(f: string): (r: Option<Event>) {
    if |f| >= 7 && f[..5] == "data:" && f[|f| - 2..] == "\n\n" then DecodeJson(f[5..|f| - 2])
    else None
  }

  /** A client reading a message recovers the event the server sent. */
  lemma FrameRoundTrip(e: Event)
    ensures DecodeFrame(Frame(e)) == Some(e)
  {
    var f := Frame(e);
    assert f[5..|f| - 2] == Json(e);
    assert f[..5] == "data:" && f[|f| - 2..] == "\n\n";
    if e.Progress? {
      var j := Json(e);
      var n := |PctOpen|;
      assert j[..n] == PctOpen;
      assert j[n..|j| - 1] == TenthsText(e.pct);
      assert j != DoneJson by { assert j[2] != DoneJson[2]; }
      TenthsTextRoundTrip(e.pct);
    }
  }

  /** A message's only blank line is the one that ends it, so a stream of
      messages splits back into the messages sent. */
  lemma FrameEndsOnlyAtBlankLine(e: Event)
    ensures forall i :: 0 <= i < |Frame(e)| - 2 ==> Frame(e)[i] != '\n'
    ensures Frame(e)[|Frame(e)| - 2..] == "\n\n"
  {
    var f := Frame(e);
    forall i | 0 <= i < |f| - 2 ensures f[i] != '\n' {
      if i >= 5 {
        assert f[i] == Json(e)[i - 5];
      }
    }
  }
}
