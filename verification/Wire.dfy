/** A turn's events on the wire: the answer that the browser folds from the chunks it reads. */
module Wire {
  import opened Wrappers
  import Text
  import EventStream
  import opened Chat
  import opened Screen
  import opened Reload

  /** How events are printed and read back. Payloads are JSON, which has no line end and is undone by parsing. */
  predicate Coded(encode: Event -> EventStream.Frame, decode: EventStream.Frame -> Option<Event>, events: seq<Event>) {
    forall i | 0 <= i < |events| ::
      && EventStream.OneLine(encode(events[i]).name) && EventStream.OneLine(encode(events[i]).data)
      && decode(encode(events[i])) == Some(events[i])
  }

  function Encoded(encode: Event -> EventStream.Frame, events: seq<Event>): (frames: seq<EventStream.Frame>)
    ensures |frames| == |events| && forall i | 0 <= i < |events| :: frames[i] == encode(events[i])
  {
    seq(|events|, i requires 0 <= i < |events| => encode(events[i]))
  }

  /** The events of the frames that the browser knows. */
  function Decoded(decode: EventStream.Frame -> Option<Event>, frames: seq<EventStream.Frame>): seq<Event> {
    if frames == [] then []
    else
      Decoded(decode, frames[..|frames| - 1]) +
      (match decode(frames[|frames| - 1])
       case Some(event) => [event]
       case None => [])
  }

  lemma {:induction false} DecodedBack(encode: Event -> EventStream.Frame, decode: EventStream.Frame -> Option<Event>,
                                       events: seq<Event>, n: nat)
    requires Coded(encode, decode, events) && n <= |events|
    ensures Decoded(decode, Encoded(encode, events)[..n]) == events[..n]
  {
    if n > 0 {
      DecodedBack(encode, decode, events, n - 1);
      assert Encoded(encode, events)[..n][..n - 1] == Encoded(encode, events)[..n - 1];
      assert events[..n] == events[..n - 1] + [events[n - 1]];
    }
  }

  /** However the stream is split, and wherever it is cut off, the browser reads the events whose
      whole text arrived, in order. */
  lemma BrowserReads(encode: Event -> EventStream.Frame, decode: EventStream.Frame -> Option<Event>,
                     events: seq<Event>, k: nat, chunks: seq<string>)
    requires Coded(encode, decode, events)
    requires k <= |EventStream.Printed(Encoded(encode, events))|
    requires Text.Concat(chunks) == EventStream.Printed(Encoded(encode, events))[..k]
    ensures Decoded(decode, EventStream.Parsed(chunks)) == events[..EventStream.Whole(Encoded(encode, events), k)]
  {
    EventStream.TruncatedRoundTrip(Encoded(encode, events), k, chunks);
    DecodedBack(encode, decode, events, EventStream.Whole(Encoded(encode, events), k));
  }

  /** From the bytes of the whole stream, split anyhow, the browser shows the answer that reopening
      the conversation shows: but for an error's message just when the turn ended by itself and its
      ending was stored, and exactly just when the answer is whole or its error has that message. */
  lemma BytesEqualReload(states: seq<State>, steps: seq<Step>, k: nat, encode: Event -> EventStream.Frame,
                         decode: EventStream.Frame -> Option<Event>, chunks: seq<string>)
    requires Run(states, steps) && k < |states| && states[k].turn.Some?
    requires Coded(encode, decode, states[k].turn.value.events)
    requires Text.Concat(chunks) == EventStream.Printed(Encoded(encode, states[k].turn.value.events))
    ensures var turn, live := states[k].turn.value, OnScreen(Decoded(decode, EventStream.Parsed(chunks)));
            && (ReopenedAnswer(states[k]) == Some(Restated(Closed(live))) <==>
                  turn.phase.Over? && turn.phase.ending != Stopped)
            && (ReopenedAnswer(states[k]) == Some(Closed(live)) <==>
                  turn.phase == Over(Whole) || (turn.phase == Over(BrokeOff) && Restated(live) == live))
  {
    var events := states[k].turn.value.events;
    var frames := Encoded(encode, events);
    EventStream.RoundTrip(frames, chunks);
    DecodedBack(encode, decode, events, |events|);
    assert frames[..|events|] == frames && events[..|events|] == events;
    ReloadRestatesError(states, steps, k);
    LiveEqualsReload(states, steps, k);
  }
}
