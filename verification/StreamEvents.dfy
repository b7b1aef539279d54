/**
  * The event stream of the Anthropic Messages API: what an event is, what makes an event
  * legal after a given history, and a small automaton that decides legality.
  */
module StreamEvents {

  datatype Kind = TextKind | ThinkingKind | ToolKind

  /** The content block announced by a content_block_start. */
  datatype Block = TextBlock | ThinkingBlock | ToolUse(id: string, name: string)

  datatype Event =
    | MessageStart(input: nat, output: nat)
    | BlockStart(index: nat, block: Block)
    | BlockDelta(index: nat, kind: Kind, piece: string)
    | BlockStop(index: nat)
    | MessageDelta(reason: string, input: nat, output: nat)
    | MessageStop

  function KindOf(b: Block): Kind {
    match b
    case TextBlock => TextKind
    case ThinkingBlock => ThinkingKind
    case ToolUse(_, _) => ToolKind
  }

  // ---- Legality, told from the history alone -------------------------------------------

  /** How many blocks were started in `h`. */
  function Starts(h: seq<Event>): nat {
    if h == [] then 0
    else Starts(h[..|h| - 1]) + if h[|h| - 1].BlockStart? then 1 else 0
  }

  ghost predicate Started(h: seq<Event>, i: nat, k: Kind) {
    exists j :: 0 <= j < |h| && h[j].BlockStart? && h[j].index == i && KindOf(h[j].block) == k
  }

  predicate Stopped(h: seq<Event>, i: nat) {
    BlockStop(i) in h
  }

  ghost predicate Closing(h: seq<Event>) {
    exists j :: 0 <= j < |h| && (h[j].MessageDelta? || h[j].MessageStop?)
  }

  /**
    * `e` may follow `h`: one leading message_start; block indices 0, 1, 2, … in order of
    * start; deltas and stops aim at a started, unstopped block (a delta at one of its own
    * kind); message_delta comes once every started block is stopped, and message_stop
    * right after it.
    */
  ghost predicate Legal(h: seq<Event>, e: Event) {
    match e
    case MessageStart(_, _) => h == []
    case BlockStart(i, _) => h != [] && !Closing(h) && i == Starts(h)
    case BlockDelta(i, k, _) => h != [] && !Closing(h) && Started(h, i, k) && !Stopped(h, i)
    case BlockStop(i) =>
      h != [] && !Closing(h) && !Stopped(h, i) && exists k :: Started(h, i, k)
    case MessageDelta(_, _, _) =>
      h != [] && !Closing(h) && forall i: nat, k :: Started(h, i, k) ==> Stopped(h, i)
    case MessageStop => h != [] && h[|h| - 1].MessageDelta?
  }

  /** Every event is legal after the ones before it. */
  ghost predicate WellFormed(es: seq<Event>) {
    forall n :: 0 <= n < |es| ==> Legal(es[..n], es[n])
  }

  /** A well-formed stream that has reached its message_stop. */
  ghost predicate Complete(es: seq<Event>) {
    WellFormed(es) && es != [] && es[|es| - 1].MessageStop?
  }

  // ---- The deciding automaton ----------------------------------------------------------

  datatype Proto =
    | Unopened
    | Body(next: nat, open: map<nat, Kind>)
    | Ending
    | Ended
    | Broken

  function Next(p: Proto, e: Event): Proto {
    match (p, e)
    case (Unopened, MessageStart(_, _)) => Body(0, map[])
    case (Body(n, open), BlockStart(i, b)) =>
      if i == n then Body(n + 1, open[i := KindOf(b)]) else Broken
    case (Body(n, open), BlockDelta(i, k, _)) =>
      if i in open && open[i] == k then p else Broken
    case (Body(n, open), BlockStop(i)) => if i in open then Body(n, open - {i}) else Broken
    case (Body(n, open), MessageDelta(_, _, _)) => if open == map[] then Ending else Broken
    case (Ending, MessageStop) => Ended
    case _ => Broken
  }

  function After(p: Proto, es: seq<Event>): Proto {
    if es == [] then p else Next(After(p, es[..|es| - 1]), es[|es| - 1])
  }

  lemma {:induction false} AfterConcat(p: Proto, a: seq<Event>, b: seq<Event>)
    ensures After(p, a + b) == After(After(p, a), b)
    decreases |b|
  {
    if b == [] {
      assert a + b == a;
    } else {
      assert (a + b)[..|a + b| - 1] == a + b[..|b| - 1];
      AfterConcat(p, a, b[..|b| - 1]);
    }
  }

  /** What an unbroken automaton state says about the history that led to it. */
  ghost predicate Summarises(p: Proto, h: seq<Event>) {
    match p
    case Unopened => h == []
    case Body(n, open) =>
      h != [] && !Closing(h) && n == Starts(h) &&
      (forall i: nat, k :: Started(h, i, k) ==> i < n) &&
      (forall i: nat, k :: Started(h, i, k) && !Stopped(h, i) ==> i in open && open[i] == k) &&
      (forall i: nat :: i in open ==> Started(h, i, open[i]) && !Stopped(h, i)) &&
      (forall i: nat :: Stopped(h, i) ==> i < n)
    case Ending => h != [] && Closing(h) && h[|h| - 1].MessageDelta?
    case Ended => h != [] && Closing(h) && h[|h| - 1].MessageStop?
    case Broken => false
  }

  lemma StartedGrows(h: seq<Event>, e: Event, i: nat, k: Kind)
    ensures Started(h + [e], i, k) <==>
            Started(h, i, k) || (e.BlockStart? && e.index == i && KindOf(e.block) == k)
    ensures Stopped(h + [e], i) <==> Stopped(h, i) || e == BlockStop(i)
  {
    var g := h + [e];
    if Started(h, i, k) {
      var j :| 0 <= j < |h| && h[j].BlockStart? && h[j].index == i && KindOf(h[j].block) == k;
      assert g[j] == h[j];
    }
    if Started(g, i, k) {
      var j :| 0 <= j < |g| && g[j].BlockStart? && g[j].index == i && KindOf(g[j].block) == k;
      assert j < |h| ==> h[j] == g[j];
    }
    assert g[|h|] == e;
  }

  lemma ClosingGrows(h: seq<Event>, e: Event)
    ensures Closing(h + [e]) <==> Closing(h) || e.MessageDelta? || e.MessageStop?
  {
    var g := h + [e];
    if Closing(h) {
      var j :| 0 <= j < |h| && (h[j].MessageDelta? || h[j].MessageStop?);
      assert g[j] == h[j];
    }
    assert g[|h|] == e;
  }

  lemma SummaryStep(p: Proto, h: seq<Event>, e: Event)
    requires Summarises(p, h)
    ensures Next(p, e) != Broken <==> Legal(h, e)
    ensures Next(p, e) != Broken ==> Summarises(Next(p, e), h + [e])
  {
    ClosingGrows(h, e);
    assert (h + [e])[..|h|] == h;
    forall i: nat, k
      ensures Started(h + [e], i, k) <==>
              Started(h, i, k) || (e.BlockStart? && e.index == i && KindOf(e.block) == k)
    {
      StartedGrows(h, e, i, k);
    }
    forall i: nat ensures Stopped(h + [e], i) <==> Stopped(h, i) || e == BlockStop(i) {
      StartedGrows(h, e, i, TextKind);
    }
    if p.Body? && e.MessageDelta? { MessageDeltaCase(p, h, e); }
  }

  lemma MessageDeltaCase(p: Proto, h: seq<Event>, e: Event)
    requires Summarises(p, h) && p.Body? && e.MessageDelta?
    ensures p.open == map[] <==> Legal(h, e)
  {
    if p.open != map[] {
      var i :| i in p.open;
      assert Started(h, i, p.open[i]) && !Stopped(h, i);
    }
  }

  /** The automaton accepts exactly the well-formed streams. */
  lemma {:induction false} AutomatonDecides(es: seq<Event>)
    ensures WellFormed(es) <==> After(Unopened, es) != Broken
    ensures WellFormed(es) ==> Summarises(After(Unopened, es), es)
    decreases |es|
  {
    if es != [] {
      var h, e := es[..|es| - 1], es[|es| - 1];
      AutomatonDecides(h);
      assert es == h + [e];
      WellFormedGrows(h, e);
      if WellFormed(h) { SummaryStep(After(Unopened, h), h, e); }
    }
  }

  lemma WellFormedGrows(h: seq<Event>, e: Event)
    ensures WellFormed(h + [e]) <==> WellFormed(h) && Legal(h, e)
  {
    var g := h + [e];
    assert g[..|h|] == h && g[|h|] == e;
    forall n | 0 <= n < |h| ensures g[..n] == h[..n] && g[n] == h[n] {}
    if WellFormed(g) {
      assert Legal(g[..|h|], g[|h|]);
      forall n | 0 <= n < |h| ensures Legal(h[..n], h[n]) { assert Legal(g[..n], g[n]); }
    }
    if WellFormed(h) && Legal(h, e) {
      forall n | 0 <= n < |g| ensures Legal(g[..n], g[n]) {
        if n < |h| { assert Legal(h[..n], h[n]); }
      }
    }
  }

  /** The automaton ends exactly on the complete streams. */
  lemma EndedIsComplete(es: seq<Event>)
    ensures Complete(es) <==> After(Unopened, es) == Ended
  {
    AutomatonDecides(es);
  }
}
