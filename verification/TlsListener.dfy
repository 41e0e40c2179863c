/** cmd/hoservad/tlslistener.go: the listener that sniffs each connection's
    first byte in a goroutine of its own. The goroutines, channels and the
    once-closed done are modelled as interleaved steps. */
module TlsListener {
  /** Where an accepted connection is: its goroutine is reading the first byte;
      it is offered on connCh; or it has ended. */
  datatype Phase = Sniffing | Offering | Delivered(to: nat) | Answered | Closed

  predicate Ended(p: Phase) {
    !p.Sniffing? && !p.Offering?
  }

  /** acceptLoop. delay is tempDelay in milliseconds. */
  datatype Loop = Accepting(delay: nat) | Backoff(delay: nat) | SendingError | ClosingDone | Returned

  /** A call of Accept. */
  datatype Call = Waiting | GotConn(conn: nat) | GotError | GotClosed

  /** errs is the number of errors in errCh, whose capacity is 1; sent counts
      every send to it; first has what the first byte of a connection was, negative
      for none; closers are Close calls that have still to close the inner
      listener. */
  datatype World = World(conns: map<nat, Phase>, calls: map<nat, Call>, first: map<nat, int>, loop: Loop,
                         errs: nat, sent: nat, done: bool, closers: nat, innerClosed: bool)

  const START := World(map[], map[], map[], Accepting(0), 0, 0, false, 0, false)

  const FIRST_DELAY := 5
  const MAX_DELAY := 1000

  function NextDelay(d: nat): nat {
    var raised := if d == 0 then FIRST_DELAY else 2 * d;
    if raised > MAX_DELAY then MAX_DELAY else raised
  }

  /** The content type of a TLS handshake record, section 5.1 of RFC 8446. */
  const HANDSHAKE := 0x16

  /** What handleConn does with the first byte, or without one. */
  function Sniffed(first: int): Phase {
    if first < 0 then Closed else if first == HANDSHAKE then Offering else Answered
  }

  datatype Step =
    | InnerAccepts(conn: nat) | InnerFailsTemporarily | BackoffEnds | BackoffSeesDone
    | InnerFails | ErrorSent | LoopClosesDone
    | Sniff(conn: nat, first: int) | HandOff(conn: nat, call: nat) | OfferSeesDone(conn: nat)
    | CallAccept(call: nat) | TakeError(call: nat) | AcceptSeesDone(call: nat)
    | CloseDone | CloseInner

  predicate Is(w: World, c: nat, p: Phase) {
    c in w.conns && w.conns[c] == p
  }

  predicate Waits(w: World, a: nat) {
    a in w.calls && w.calls[a] == Waiting
  }

  /** Whether a step can be taken. */
  predicate Enabled(w: World, s: Step) {
    match s
    case InnerAccepts(c) => w.loop.Accepting? && !w.innerClosed && c !in w.conns
    case InnerFailsTemporarily => w.loop.Accepting? && !w.innerClosed
    case BackoffEnds => w.loop.Backoff?
    case BackoffSeesDone => w.loop.Backoff? && w.done
    case InnerFails => w.loop.Accepting?
    case ErrorSent => w.loop == SendingError && w.errs < 1
    case LoopClosesDone => w.loop == ClosingDone
    case Sniff(c, _) => Is(w, c, Sniffing)
    case HandOff(c, a) => Is(w, c, Offering) && Waits(w, a)
    case OfferSeesDone(c) => Is(w, c, Offering) && w.done
    case CallAccept(a) => a !in w.calls
    case TakeError(a) => Waits(w, a) && w.errs > 0
    case AcceptSeesDone(a) => Waits(w, a) && w.done
    case CloseDone => true
    case CloseInner => w.closers > 0
  }

  function Take(w: World, s: Step): World
    requires Enabled(w, s)
  {
    match s
    case InnerAccepts(c) => w.(conns := w.conns[c := Sniffing], loop := Accepting(0))
    case InnerFailsTemporarily => w.(loop := Backoff(NextDelay(w.loop.delay)))
    case BackoffEnds => w.(loop := Accepting(w.loop.delay))
    case BackoffSeesDone => w.(loop := Returned)
    case InnerFails => w.(loop := SendingError)
    case ErrorSent => w.(errs := w.errs + 1, sent := w.sent + 1, loop := ClosingDone)
    case LoopClosesDone => w.(done := true, loop := Returned)
    case Sniff(c, first) => w.(conns := w.conns[c := Sniffed(first)], first := w.first[c := first])
    case HandOff(c, a) => w.(conns := w.conns[c := Delivered(a)], calls := w.calls[a := GotConn(c)])
    case OfferSeesDone(c) => w.(conns := w.conns[c := Closed])
    case CallAccept(a) => w.(calls := w.calls[a := Waiting])
    case TakeError(a) => w.(errs := w.errs - 1, calls := w.calls[a := GotError])
    case AcceptSeesDone(a) => w.(calls := w.calls[a := GotClosed])
    case CloseDone => w.(done := true, closers := w.closers + 1)
    case CloseInner => w.(innerClosed := true, closers := w.closers - 1)
  }

  // ----- the invariant -----

  /** A connection was delivered to a call exactly when that call returned it. */
  ghost predicate Paired(w: World) {
    && (forall c :: c in w.conns && w.conns[c].Delivered? ==>
          w.conns[c].to in w.calls && w.calls[w.conns[c].to] == GotConn(c))
    && (forall a :: a in w.calls && w.calls[a].GotConn? ==> Is(w, w.calls[a].conn, Delivered(a)))
  }

  /** One error at most, sent only on the way out; the loop leaves only with done
      closed; a closed done means the loop is over or its listener is closing. */
  ghost predicate Tidy(w: World) {
    && w.errs <= w.sent <= 1
    && (w.loop.Accepting? || w.loop.Backoff? || w.loop.SendingError? ==> w.sent == 0)
    && (w.loop.Backoff? ==> FIRST_DELAY <= w.loop.delay <= MAX_DELAY)
    && (w.loop.Accepting? ==> w.loop.delay == 0 || FIRST_DELAY <= w.loop.delay <= MAX_DELAY)
    && (w.loop.ClosingDone? ==> w.sent == 1)
    && (w.loop.Returned? ==> w.done)
    && (w.done ==> w.loop.Returned? || w.innerClosed || w.closers > 0)
  }

  /** What a connection began with decides what becomes of it: only one that began
      with a handshake record is offered or delivered, and is closed undelivered
      only once done is closed; only one that began with another byte is answered. */
  ghost predicate Judged(w: World) {
    forall c :: c in w.conns && !w.conns[c].Sniffing? ==>
      && c in w.first
      && match w.conns[c]
         case Offering => w.first[c] == 0x16
         case Delivered(_) => w.first[c] == 0x16
         case Answered => w.first[c] >= 0 && w.first[c] != 0x16
         case Closed => w.first[c] < 0 || (w.first[c] == 0x16 && w.done)
         case Sniffing => true
  }

  /** An Accept reports closed or an error only when that is so. */
  ghost predicate Truthful(w: World) {
    && (forall a :: a in w.calls && w.calls[a] == GotClosed ==> w.done)
    && (forall a :: a in w.calls && w.calls[a] == GotError ==> w.sent == 1)
  }

  ghost predicate Inv(w: World) {
    Paired(w) && Tidy(w) && Judged(w) && Truthful(w)
  }

  lemma TakeKeepsTruthful(w: World, s: Step)
    requires Tidy(w) && Truthful(w) && Enabled(w, s)
    ensures Truthful(Take(w, s))
  {
  }

  lemma TakeKeepsJudged(w: World, s: Step)
    requires Judged(w) && Enabled(w, s)
    ensures Judged(Take(w, s))
  {
  }

  function Failures(k: nat): (delay: nat) {
    if k == 0 then 0 else NextDelay(Failures(k - 1))
  }

  function Pow2(k: nat): (p: nat) {
    if k == 0 then 1 else 2 * Pow2(k - 1)
  }

  /** The wait after the k-th temporary error in a row: 5 ms, doubled each time up
      to a second. An accepted connection begins the row anew. */
  lemma {:induction false} BackoffDoubles(k: nat)
    requires k > 0
    ensures Failures(k) == if 5 * Pow2(k - 1) < 1000 then 5 * Pow2(k - 1) else 1000
  {
    if k > 1 {
      BackoffDoubles(k - 1);
    }
  }

  lemma RowGoesOn(w: World, k: nat, c: nat)
    requires w.loop == Accepting(Failures(k)) && !w.innerClosed && c !in w.conns
    ensures Take(w, InnerFailsTemporarily).loop == Backoff(Failures(k + 1))
    ensures Take(Take(w, InnerFailsTemporarily), BackoffEnds).loop == Accepting(Failures(k + 1))
    ensures Take(w, InnerAccepts(c)).loop == Accepting(Failures(0))
  {
  }

  lemma TakeKeepsTidy(w: World, s: Step)
    requires Tidy(w) && Enabled(w, s)
    ensures Tidy(Take(w, s))
  {
  }

  lemma TakeKeepsPaired(w: World, s: Step)
    requires Paired(w) && Enabled(w, s)
    ensures Paired(Take(w, s))
  {
  }

  // ----- runs -----

  ghost predicate Run(w: World, steps: seq<Step>)
    decreases |steps|
  {
    steps == [] || (Enabled(w, steps[0]) && Run(Take(w, steps[0]), steps[1..]))
  }

  ghost function After(w: World, steps: seq<Step>): World
    requires Run(w, steps)
    decreases |steps|
  {
    if steps == [] then w else After(Take(w, steps[0]), steps[1..])
  }

  lemma {:induction false} EveryRunKeepsInv(w: World, steps: seq<Step>)
    requires Inv(w) && Run(w, steps)
    ensures Inv(After(w, steps))
    decreases |steps|
  {
    if steps != [] {
      TakeKeepsTruthful(w, steps[0]);
      TakeKeepsJudged(w, steps[0]);
      TakeKeepsTidy(w, steps[0]);
      TakeKeepsPaired(w, steps[0]);
      hide Paired, Tidy, Judged, Truthful, Take;
      EveryRunKeepsInv(Take(w, steps[0]), steps[1..]);
    }
  }

  lemma StartHolds()
    ensures Inv(START)
  {
  }

  /** An end is final: nothing delivers, answers or closes a connection twice,
      and no connection is ever forgotten. */
  lemma {:induction false} EndsAreFinal(w: World, steps: seq<Step>, c: nat)
    requires Run(w, steps) && c in w.conns
    ensures c in After(w, steps).conns
    ensures Ended(w.conns[c]) ==> After(w, steps).conns[c] == w.conns[c]
    decreases |steps|
  {
    if steps != [] {
      EndsAreFinal(Take(w, steps[0]), steps[1..], c);
    }
  }

  /** A close is for good: done is closed by it, stays closed, and the call goes on
      to close the inner listener. */
  lemma {:induction false} ClosedForGood(w: World, steps: seq<Step>)
    requires Run(w, steps) && (w.done || CloseDone in steps)
    ensures After(w, steps).done
    decreases |steps|
  {
    if steps != [] {
      assert CloseDone in steps ==> steps[0] == CloseDone || CloseDone in steps[1..];
      assert w.done ==> Take(w, steps[0]).done;
      ClosedForGood(Take(w, steps[0]), steps[1..]);
    }
  }

  lemma CloseGoesOn(w: World)
    ensures Enabled(w, CloseDone) && Enabled(Take(w, CloseDone), CloseInner)
    ensures Take(Take(w, CloseDone), CloseInner).innerClosed
  {
  }

  /** Sending the loop's error never blocks. */
  lemma ErrorNeverBlocks(w: World)
    requires Tidy(w) && w.loop == SendingError
    ensures Enabled(w, ErrorSent)
  {
  }

  /** A temporary error never ends the loop: only a closed done or a permanent
      error does. */
  lemma LoopEndsOnlyForGood(w: World, s: Step)
    requires Tidy(w) && Enabled(w, s) && !w.loop.Returned? && Take(w, s).loop.Returned?
    ensures s == BackoffSeesDone || (s == LoopClosesDone && w.sent == 1)
    ensures Take(w, s).done
  {
  }

  /** The steps that belong to a goroutine of this listener or to a call waiting
      in it, as opposed to a new connection, call or close arriving. A first
      byte arrives or its deadline passes. */
  predicate Internal(s: Step) {
    !s.InnerAccepts? && !s.CallAccept? && !s.CloseDone? && !s.InnerFailsTemporarily?
  }

  /** Nothing here can move any more. The inner listener is only bound to fail
      once it is closed; while it is open, Accept may wait in it for ever. */
  ghost predicate Quiet(w: World) {
    forall s: Step :: Internal(s) && (s == InnerFails ==> w.innerClosed) ==> !Enabled(w, s)
  }

  /** Once done is closed nothing stays blocked: if no goroutine can move any
      more, every connection has ended, every Accept has returned and the loop
      is over. */
  lemma NobodyStaysBlocked(w: World)
    requires Tidy(w) && w.done && Quiet(w)
    ensures forall c :: c in w.conns ==> Ended(w.conns[c])
    ensures forall a :: a in w.calls ==> w.calls[a] != Waiting
    ensures w.loop == Returned
  {
    forall c | c in w.conns
      ensures Ended(w.conns[c])
    {
      assert !Enabled(w, Sniff(c, -1)) && !Enabled(w, OfferSeesDone(c));
    }
    forall a | a in w.calls
      ensures w.calls[a] != Waiting
    {
      assert !Enabled(w, AcceptSeesDone(a));
    }
    assert !Enabled(w, CloseInner) && !Enabled(w, BackoffSeesDone) && !Enabled(w, InnerFails);
    assert !Enabled(w, ErrorSent) && !Enabled(w, LoopClosesDone);
  }

  // ----- internal steps run out -----

  function At(w: World, p: Phase): set<nat> {
    set c | c in w.conns && w.conns[c] == p
  }

  function WaitingCalls(w: World): set<nat> {
    set a | a in w.calls && w.calls[a] == Waiting
  }

  function Rank(l: Loop): nat {
    match l
    case Backoff(_) => 4
    case Accepting(_) => 3
    case SendingError => 2
    case ClosingDone => 1
    case Returned => 0
  }

  function Measure(w: World): nat {
    2 * |At(w, Sniffing)| + |At(w, Offering)| + |WaitingCalls(w)| + w.closers + Rank(w.loop)
  }

  lemma SniffRunsOut(w: World, c: nat, first: int)
    requires Is(w, c, Sniffing)
    ensures Measure(Take(w, Sniff(c, first))) < Measure(w)
  {
    var v := Take(w, Sniff(c, first));
    assert c in At(w, Sniffing);
    assert At(v, Sniffing) == At(w, Sniffing) - {c};
    assert At(v, Offering) == if Sniffed(first) == Offering then At(w, Offering) + {c} else At(w, Offering);
    assert WaitingCalls(v) == WaitingCalls(w);
  }

  /** A connection that leaves Offering, with or without a call it satisfies. */
  lemma OfferRunsOut(w: World, v: World, c: nat)
    requires Is(w, c, Offering) && c in v.conns && Ended(v.conns[c]) && v.conns == w.conns[c := v.conns[c]]
    ensures At(v, Sniffing) == At(w, Sniffing) && |At(v, Offering)| < |At(w, Offering)|
  {
    assert c in At(w, Offering);
    assert At(v, Offering) == At(w, Offering) - {c};
  }

  lemma CallRunsOut(w: World, v: World, a: nat)
    requires Waits(w, a) && a in v.calls && v.calls[a] != Waiting && v.calls == w.calls[a := v.calls[a]]
    ensures |WaitingCalls(v)| < |WaitingCalls(w)|
  {
    assert a in WaitingCalls(w);
    assert WaitingCalls(v) == WaitingCalls(w) - {a};
  }

  lemma SameConns(w: World, v: World)
    requires v.conns == w.conns
    ensures At(v, Sniffing) == At(w, Sniffing) && At(v, Offering) == At(w, Offering)
  {
  }

  lemma SameCalls(w: World, v: World)
    requires v.calls == w.calls
    ensures WaitingCalls(v) == WaitingCalls(w)
  {
  }

  /** Internal steps cannot go on for ever, so after a close the listener always
      reaches the state of NobodyStaysBlocked. */
  lemma InternalStepsRunOut(w: World, s: Step)
    requires Enabled(w, s) && Internal(s)
    ensures Measure(Take(w, s)) < Measure(w)
  {
    var v := Take(w, s);
    hide At, WaitingCalls;
    match s
    case Sniff(c, first) =>
      SniffRunsOut(w, c, first);
    case HandOff(c, a) =>
      OfferRunsOut(w, v, c);
      CallRunsOut(w, v, a);
    case OfferSeesDone(c) =>
      OfferRunsOut(w, v, c);
      SameCalls(w, v);
    case TakeError(a) =>
      SameConns(w, v);
      CallRunsOut(w, v, a);
    case AcceptSeesDone(a) =>
      SameConns(w, v);
      CallRunsOut(w, v, a);
    case _ =>
      SameConns(w, v);
      SameCalls(w, v);
  }

  // ----- the peeked byte -----

  /** prefixConn over the bytes its connection still holds: the peeked byte comes
      first again. */
  class PrefixConn {
    var prefix: seq<int>
    var rest: seq<int>

    /** peekFirstByte on a connection that has a byte to read. */
    constructor Peek(stream: seq<int>)
      requires stream != []
      ensures Unread() == stream && prefix == [stream[0]]
    {
      prefix, rest := [stream[0]], stream[1..];
    }

    ghost function Unread(): seq<int>
      reads this
    {
      prefix + rest
    }

    /** Read into a buffer of length room; inner is how much the connection itself
        would deliver. */
    method Read(room: nat, inner: nat) returns (data: seq<int>)
      requires inner <= |rest| && inner <= room
      modifies this
      ensures data + Unread() == old(Unread()) && |data| <= room
      ensures room > 0 && old(prefix) != [] ==> data != []
    {
      if |prefix| > 0 {
        var n := if room < |prefix| then room else |prefix|;
        data, prefix := prefix[..n], prefix[n..];
      } else {
        data, rest := rest[..inner], rest[inner..];
      }
    }
  }
}
