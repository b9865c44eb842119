/** Sampling the start of a response body while relaying all of it (internal/engine/http.go:53-158).
    One goroutine is the only reader of the upstream body and the only writer of a synchronous
    pipe; the caller waits for the sample or for a timer, then relays from the pipe.  Every
    interleaving is a sequence of the actions below. */
module Probe {
  import opened Basics

  type Byte = b: int | 0 <= b < 256

  const NEWLINE: Byte := 10
  const CHUNK := 4096
  const HEAD_SAMPLE_LIMIT := 8192

  datatype End = Eof | Broken(error: string)

  /** Where the goroutine stands.  A write hands its bytes over in one or more takes, at least
      one even when there are none; `handed` says one has happened. */
  datatype Prober =
    | Probing(buf: seq<Byte>)
    | Signalling(buf: seq<Byte>, end: Option<End>)
    | WritingHead(rest: seq<Byte>, handed: bool, end: Option<End>)
    | Copying
    | WritingMore(rest: seq<Byte>, handed: bool, end: Option<End>)
    | Closing(reason: End)
    | Draining
    | Stopped

  /** Where the caller stands. */
  datatype Caller = Waiting | Returned(sample: Option<seq<Byte>>)

  /** `sent` is what the upstream has delivered so far and `upstream` how it ended; `relayed` is
      what has been taken from the pipe, and `pipe` how its reader sees it end. */
  datatype State = State(
    prober: Prober, caller: Caller, channel: Option<seq<Byte>>,
    sent: seq<Byte>, upstream: Option<End>, relayed: seq<Byte>, closed: bool, pipe: Option<End>)

  const START := State(Probing([]), Waiting, None, [], None, [], false, None)

  datatype Action =
    | ReadUpstream(chunk: seq<Byte>, end: Option<End>)
    | Signal
    | Receive                 // the caller gets the sample
    | TimeOut                 // the caller stops waiting
    | Take(count: nat)        // the relay takes bytes of the write in progress
    | CloseReader             // the relay gives up
    | Written                 // the write in progress returns
    | Close                   // the goroutine closes the pipe

  predicate HasBoundary(s: seq<Byte>) { exists i :: 0 <= i < |s| - 1 && s[i] == NEWLINE && s[i + 1] == NEWLINE }

  /** A read after which the sample is complete. */
  predicate SampleDone(buf: seq<Byte>, chunk: seq<Byte>, end: Option<End>) {
    end.Some? || chunk == [] || HasBoundary(buf) || |buf| >= HEAD_SAMPLE_LIMIT
  }

  predicate Reads(p: Prober) { p.Probing? || p.Copying? || p.Draining? }

  predicate Writes(p: Prober) { p.WritingHead? || p.WritingMore? }

  predicate Enabled(s: State, a: Action) {
    match a
    case ReadUpstream(chunk, _) => Reads(s.prober) && s.upstream.None? && |chunk| <= CHUNK
    case Signal => s.prober.Signalling? && s.channel.None?
    case Receive => s.caller.Waiting? && s.channel.Some?
    case TimeOut => s.caller.Waiting?
    case Take(n) =>
      && s.caller.Returned? && !s.closed && Writes(s.prober) && n <= |s.prober.rest|
      && (0 < n || (s.prober.rest == [] && !s.prober.handed))
    case CloseReader => s.caller.Returned? && !s.closed
    case Written => Writes(s.prober) && (s.closed || (s.prober.rest == [] && s.prober.handed))
    case Close => s.prober.Closing?
  }

  function AfterRead(p: Prober, chunk: seq<Byte>, end: Option<End>): Prober
    requires Reads(p)
  {
    match p
    case Probing(buf) =>
      if SampleDone(buf + chunk, chunk, end) then Signalling(buf + chunk, end) else Probing(buf + chunk)
    case Copying =>
      if chunk != [] then WritingMore(chunk, false, end) else if end.Some? then Closing(end.value) else Copying
    case Draining => if end.Some? then Stopped else Draining
  }

  /** A write has succeeded, or failed because the reader has gone: a failed head write drains
      the upstream, a failed copy closes the pipe. */
  function AfterWrite(p: Prober): Prober
    requires Writes(p)
  {
    if p.rest == [] && p.handed then (if p.end.Some? then Closing(p.end.value) else Copying)
    else if p.WritingMore? then Closing(Broken("closed pipe"))
    else if p.end.Some? then Stopped else Draining
  }

  function Next(s: State, a: Action): State
    requires Enabled(s, a)
  {
    match a
    case ReadUpstream(chunk, end) =>
      s.(sent := s.sent + chunk, upstream := end, prober := AfterRead(s.prober, chunk, end))
    case Signal => s.(channel := Some(s.prober.buf), prober := WritingHead(s.prober.buf, false, s.prober.end))
    case Receive => s.(caller := Returned(s.channel), channel := None)
    case TimeOut => s.(caller := Returned(None))
    case Take(n) =>
      s.(relayed := s.relayed + s.prober.rest[..n], prober := s.prober.(rest := s.prober.rest[n..], handed := true))
    case CloseReader => s.(closed := true)
    case Written => s.(prober := AfterWrite(s.prober))
    case Close => s.(pipe := Some(s.prober.reason), prober := Stopped)
  }

  predicate IsRun(s: State, actions: seq<Action>)
    decreases |actions|
  {
    actions != [] ==> Enabled(s, actions[0]) && IsRun(Next(s, actions[0]), actions[1..])
  }

  function After(s: State, actions: seq<Action>): State
    requires IsRun(s, actions)
    decreases |actions|
  {
    if actions == [] then s else After(Next(s, actions[0]), actions[1..])
  }

  // ----- what every interleaving keeps -----

  /** What the goroutine has read and not yet handed over. */
  function InFlight(p: Prober): seq<Byte> {
    match p
    case Probing(buf) => buf
    case Signalling(buf, _) => buf
    case WritingHead(rest, _, _) => rest
    case WritingMore(rest, _, _) => rest
    case _ => []
  }

  predicate Sampling(p: Prober) { p.Probing? || p.Signalling? }

  /** How the upstream has ended, as far as the goroutine knows. */
  predicate KnowsEnd(s: State) {
    match s.prober
    case Probing(_) => s.upstream.None?
    case Copying => s.upstream.None?
    case Draining => s.upstream.None?
    case Signalling(_, end) => s.upstream == end
    case WritingHead(_, _, end) => s.upstream == end
    case WritingMore(_, _, end) => s.upstream == end
    case Closing(reason) => s.closed || s.upstream == Some(reason)
    case Stopped => s.closed || (s.pipe.Some? && s.upstream == s.pipe)
  }

  predicate SampleOf(sample: seq<Byte>, sent: seq<Byte>) { sample <= sent && |sample| < HEAD_SAMPLE_LIMIT + CHUNK }

  predicate Inv(s: State) {
    && s.relayed <= s.sent
    && (!s.closed ==> s.sent == s.relayed + InFlight(s.prober) && !s.prober.Draining?)
    && KnowsEnd(s)
    && (s.channel.Some? ==> SampleOf(s.channel.value, s.sent))
    && (s.caller.Returned? && s.caller.sample.Some? ==> SampleOf(s.caller.sample.value, s.sent))
    && (Sampling(s.prober) ==> s.relayed == [] && s.channel.None? && s.sent == s.prober.buf && (s.caller.Returned? ==> s.caller.sample.None?))
    && (s.prober.Probing? ==> |s.prober.buf| < HEAD_SAMPLE_LIMIT)
    && (s.prober.Signalling? ==> |s.prober.buf| < HEAD_SAMPLE_LIMIT + CHUNK)
    && (s.closed ==> s.caller.Returned?)
    && (s.caller.Waiting? && !Sampling(s.prober) ==> s.channel.Some?)
    && (s.pipe.Some? ==> s.prober.Stopped?)
  }

  lemma StepKeeps(s: State, a: Action)
    requires Inv(s) && Enabled(s, a)
    ensures Inv(Next(s, a))
  {
    match a
    case ReadUpstream(chunk, end) => ReadKeeps(s, chunk, end);
    case Take(n) => TakeKeeps(s, n);
    case Written => WrittenKeeps(s);
    case _ => assert s.relayed + [] == s.relayed;
  }

  lemma ReadKeeps(s: State, chunk: seq<Byte>, end: Option<End>)
    requires Inv(s) && Enabled(s, ReadUpstream(chunk, end))
    ensures Inv(Next(s, ReadUpstream(chunk, end)))
  {
    hide HasBoundary;
    assert s.sent <= s.sent + chunk && s.relayed <= s.sent + chunk;
    assert s.relayed + [] == s.relayed && [] + chunk == chunk;
    if s.prober.Probing? { assert s.relayed + (s.prober.buf + chunk) == s.sent + chunk; }
    else if chunk == [] { assert s.sent + chunk == s.sent; }
  }

  lemma TakeKeeps(s: State, n: nat)
    requires Inv(s) && Enabled(s, Take(n))
    ensures Inv(Next(s, Take(n)))
  {
    var rest := s.prober.rest;
    assert rest == rest[..n] + rest[n..];
    assert s.relayed + rest == (s.relayed + rest[..n]) + rest[n..];
  }

  lemma WrittenKeeps(s: State)
    requires Inv(s) && Enabled(s, Written)
    ensures Inv(Next(s, Written))
  {
    assert s.relayed + [] == s.relayed;
  }

  lemma {:induction false} RunKeeps(s: State, actions: seq<Action>)
    requires Inv(s) && IsRun(s, actions)
    ensures Inv(After(s, actions))
    decreases |actions|
  {
    hide Inv, Enabled, Next;
    if actions != [] {
      StepKeeps(s, actions[0]);
      RunKeeps(Next(s, actions[0]), actions[1..]);
    }
  }

  /** Nothing is lost, doubled or reordered: what has been relayed is a prefix of what the
      upstream sent; a reader that stays sees the pipe end only when it has been given
      everything, and then exactly as the upstream ended; and the sample, if there is one, is
      the start of the body. */
  lemma {:induction false} RelaysEverything(actions: seq<Action>)
    requires IsRun(START, actions)
    ensures var s := After(START, actions);
      && s.relayed <= s.sent
      && (s.pipe.Some? && !s.closed ==> s.relayed == s.sent && s.upstream == s.pipe)
      && (s.caller.Returned? && s.caller.sample.Some? ==>
            s.caller.sample.value <= s.sent && |s.caller.sample.value| < HEAD_SAMPLE_LIMIT + CHUNK)
  {
    RunKeeps(START, actions);
    var s := After(START, actions);
    assert s.relayed + [] == s.relayed;
  }

  /** Sending the sample never blocks, whether the caller is still there or not. */
  lemma {:induction false} SignalNeverBlocks(actions: seq<Action>)
    requires IsRun(START, actions) && After(START, actions).prober.Signalling?
    ensures Enabled(After(START, actions), Signal)
  {
    RunKeeps(START, actions);
  }

  /** The goroutine waits for nobody but the upstream, except in a write; and then either the
      caller has the sample waiting for it or the relay has bytes to take. */
  lemma {:induction false} OnlyWritesWait(actions: seq<Action>)
    requires IsRun(START, actions)
    ensures var s := After(START, actions);
      || s.prober.Stopped?
      || Enabled(s, Signal) || Enabled(s, Written) || Enabled(s, Close)
      || (Reads(s.prober) && s.upstream.None?)
      || Enabled(s, Receive)
      || (Writes(s.prober) && Enabled(s, Take(|s.prober.rest|)))
  {
    RunKeeps(START, actions);
  }

  // ----- what the sample holds -----

  /** An empty line: two line breaks in a row. */
  predicate EmptyLineIn(s: seq<Byte>) { exists i :: 0 < i < |s| && s[i - 1] == 10 && s[i] == 10 }

  /** Before its last read the sample held no empty line and was below the limit; then it does, or has reached it, or
      that read gave nothing or ended the body. */
  predicate EnoughBy(sample: seq<Byte>, before: seq<Byte>, chunk: seq<Byte>, ended: bool) {
    && sample == before + chunk && |chunk| <= 4096 && |before| < 8192 && !EmptyLineIn(before)
    && (EmptyLineIn(sample) || |sample| >= 8192 || chunk == [] || ended)
  }

  ghost predicate Enough(sample: seq<Byte>, ended: bool) { exists before, chunk :: EnoughBy(sample, before, chunk, ended) }

  ghost predicate Sampled(s: State) {
    && (s.prober.Probing? ==> |s.prober.buf| < 8192 && !EmptyLineIn(s.prober.buf))
    && (s.prober.Signalling? ==> Enough(s.prober.buf, s.upstream.Some?))
    && (s.channel.Some? ==> Enough(s.channel.value, s.upstream.Some?))
    && (s.caller.Returned? && s.caller.sample.Some? ==> Enough(s.caller.sample.value, s.upstream.Some?))
  }

  lemma {:induction false} BoundaryIsEmptyLine(s: seq<Byte>)
    ensures HasBoundary(s) <==> EmptyLineIn(s)
  {
    if HasBoundary(s) {
      var i :| 0 <= i < |s| - 1 && s[i] == NEWLINE && s[i + 1] == NEWLINE;
      assert s[(i + 1) - 1] == 10 && s[i + 1] == 10;
    }
    if EmptyLineIn(s) {
      var i :| 0 < i < |s| && s[i - 1] == 10 && s[i] == 10;
      assert s[i - 1] == NEWLINE && s[(i - 1) + 1] == NEWLINE;
    }
  }

  lemma {:induction false} EnoughStays(sample: seq<Byte>, ended: bool)
    requires Enough(sample, ended)
    ensures Enough(sample, true)
  {
    var before, chunk :| EnoughBy(sample, before, chunk, ended);
    hide EmptyLineIn;
    assert EnoughBy(sample, before, chunk, true);
  }

  lemma {:induction false} StepSamples(s: State, a: Action)
    requires Sampled(s) && Enabled(s, a)
    ensures Sampled(Next(s, a))
  {
    hide EmptyLineIn, HasBoundary, Enough;
    if a.ReadUpstream? {
      if s.channel.Some? { EnoughStays(s.channel.value, s.upstream.Some?); }
      if s.caller.Returned? && s.caller.sample.Some? { EnoughStays(s.caller.sample.value, s.upstream.Some?); }
      if s.prober.Probing? { ReadSamples(s, a.chunk, a.end); }
    }
  }

  lemma {:induction false} ReadSamples(s: State, chunk: seq<Byte>, end: Option<End>)
    requires Sampled(s) && Enabled(s, ReadUpstream(chunk, end)) && s.prober.Probing?
    ensures var p := Next(s, ReadUpstream(chunk, end)).prober;
      && (p.Probing? ==> |p.buf| < 8192 && !EmptyLineIn(p.buf))
      && (p.Signalling? ==> Enough(p.buf, end.Some?))
  {
    var buf := s.prober.buf + chunk;
    BoundaryIsEmptyLine(buf);
    hide EmptyLineIn, HasBoundary;
    if SampleDone(buf, chunk, end) { assert EnoughBy(buf, s.prober.buf, chunk, end.Some?); }
  }

  lemma {:induction false} RunSamples(s: State, actions: seq<Action>)
    requires Sampled(s) && IsRun(s, actions)
    ensures Sampled(After(s, actions))
    decreases |actions|
  {
    hide Sampled, Enabled, Next;
    if actions != [] {
      StepSamples(s, actions[0]);
      RunSamples(Next(s, actions[0]), actions[1..]);
    }
  }

  /** The caller is given a sample as soon as it holds an empty line or enough of the body, and not before, unless the
      body has no more to give. */
  lemma {:induction false} SampleIsEnough(actions: seq<Action>)
    requires IsRun(START, actions) && After(START, actions).caller.Returned? && After(START, actions).caller.sample.Some?
    ensures Enough(After(START, actions).caller.sample.value, After(START, actions).upstream.Some?)
  {
    RunSamples(START, actions);
  }
}
