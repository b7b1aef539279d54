/**
  * What the statistics show of the requests recorded and the tokens accounted, number by number.
  */
module AgentLaws {
  import opened AgentStats

  /** What happens to the tracker, in the caller's terms. */
  datatype Event =
    | Requested(minute: nat, anthropic: bool)
    | Finished(minute: nat, anthropic: bool, input: nat, output: nat)
    | Looked(minute: nat)

  function CallOf(e: Event): Call {
    match e
    case Requested(m, anthropic) => Hit(m, Requests(anthropic))
    case Finished(m, anthropic, input, output) => Hit(m, Tokens(anthropic, input, output))
    case Looked(m) => Look(m)
  }

  function Calls(events: seq<Event>): (r: seq<Call>)
    ensures |r| == |events|
    ensures forall i :: 0 <= i < |events| ==> r[i] == CallOf(events[i])
  {
    seq(|events|, i requires 0 <= i < |events| => CallOf(events[i]))
  }

  // ---- Counting the events -----------------------------------------------------------------------

  /** Requests at minutes `from <= m < to`; all of them, or those of Anthropic clients. */
  function Asked(events: seq<Event>, from: nat, to: nat, all: bool): nat {
    if events == [] then 0
    else
      var e := events[|events| - 1];
      Asked(events[..|events| - 1], from, to, all)
      + if e.Requested? && from <= e.minute < to && (all || e.anthropic) then 1 else 0
  }

  /** Input tokens accounted at these minutes. */
  function TokensIn(events: seq<Event>, from: nat, to: nat, all: bool): nat {
    if events == [] then 0
    else
      var e := events[|events| - 1];
      TokensIn(events[..|events| - 1], from, to, all)
      + if e.Finished? && from <= e.minute < to && (all || e.anthropic) then e.input else 0
  }

  /** Output tokens accounted at these minutes. */
  function TokensOut(events: seq<Event>, from: nat, to: nat, all: bool): nat {
    if events == [] then 0
    else
      var e := events[|events| - 1];
      TokensOut(events[..|events| - 1], from, to, all)
      + if e.Finished? && from <= e.minute < to && (all || e.anthropic) then e.output else 0
  }

  /** The six numbers are those of the events at these minutes. */
  ghost predicate Tells(b: Bucket, events: seq<Event>, from: nat, to: nat) {
    && b.total == Asked(events, from, to, true)
    && b.anthropic == Asked(events, from, to, false)
    && b.inputTotal == TokensIn(events, from, to, true)
    && b.inputAnthropic == TokensIn(events, from, to, false)
    && b.outputTotal == TokensOut(events, from, to, true)
    && b.outputAnthropic == TokensOut(events, from, to, false)
  }

  lemma OneMoreTells(b: Bucket, events: seq<Event>, from: nat, to: nat)
    requires events != [] && Tells(b, events[..|events| - 1], from, to)
    ensures Tells(Plus(b, AmountWithin(CallOf(events[|events| - 1]), from, to)), events, from, to)
  {}

  lemma CallsSnoc(events: seq<Event>)
    requires events != []
    ensures Calls(events)[..|events| - 1] == Calls(events[..|events| - 1])
    ensures Calls(events)[|events| - 1] == CallOf(events[|events| - 1])
  {}

  lemma WithinSnoc(calls: seq<Call>, from: nat, to: nat)
    requires calls != []
    ensures LoggedWithin(calls, from, to) ==
            Plus(LoggedWithin(calls[..|calls| - 1], from, to), AmountWithin(calls[|calls| - 1], from, to))
  {}

  lemma {:induction false} WithinTells(events: seq<Event>, from: nat, to: nat)
    ensures Tells(LoggedWithin(Calls(events), from, to), events, from, to)
    decreases |events|
  {
    if events != [] {
      var front := events[..|events| - 1];
      WithinTells(front, from, to);
      OneMoreTells(LoggedWithin(Calls(front), from, to), events, from, to);
      CallsSnoc(events);
      WithinSnoc(Calls(events), from, to);
    }
  }

  lemma LoggedTells(events: seq<Event>, minute: nat)
    ensures Tells(Logged(Calls(events), minute), events, minute, minute + 1)
  {
    WithinTells(events, minute, minute + 1);
    WithinNone(Calls(events), minute);
    WithinOneMore(Calls(events), minute, minute);
  }

  // ---- What a snapshot shows ---------------------------------------------------------------------

  /** With a clock that is not behind, each bucket shows the requests and the tokens of its own minute, and
      the newest minute is the current one. */
  lemma BucketsTell(first: nat, events: seq<Event>, now: nat, from: nat, i: nat)
    requires Steady(first, Calls(events)) && Top(first, Calls(events)) <= now && i < 60
    requires from == if now < 59 then 0 else now - 59
    ensures Tells(Read(Seen(first, Calls(events), now), now)[i], events, from + i, from + i + 1)
  {
    SnapshotIsExact(first, Calls(events), now);
    LoggedTells(events, from + i);
  }

  /** The summary shows those of the hour that ends with the latest minute known. */
  lemma SummaryTells(first: nat, events: seq<Event>, now: nat, last: nat, from: nat)
    requires Steady(first, Calls(events)) && last == Latest(first, Calls(events), now)
    requires from == if last < 59 then 0 else last - 59
    ensures Tells(Total(Read(Seen(first, Calls(events), now), now)), events, from, from + 60)
  {
    SummaryIsExact(first, Calls(events), now);
    WithinTells(events, from, from + 60);
  }
}
