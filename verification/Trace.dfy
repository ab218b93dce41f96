/** The trace tool's loop compressor (platform/desktop/src/bin/trace_rom.rs): an online repetition
    collapser over a bounded buffer. */
module TraceCompressor {
  import opened Base

  const WINDOW_MIN := 2
  const WINDOW_MAX := 8
  const WINDOW_PREFERRED := 3
  const U64_MAX := 0xFFFF_FFFF_FFFF_FFFF

  /** What the compressor compares; the LY values of a step are not part of it. */
  datatype Signature = Signature(opcode: Option<byte>, pcBefore: word, pcAfter: word, operand1: Option<byte>,
                                 operand2: Option<byte>, branchTaken: bool, interruptEntry: bool)

  datatype PendingStep = PendingStep(index: nat, signature: Signature, lyBefore: byte, lyAfter: byte,
                                     startCycle: nat, endCycle: nat)

  datatype LyRange = LyRange(min: int, max: int, end: int)

  datatype LoopState = LoopState(window: seq<PendingStep>, repetitions: nat, ly: LyRange)

  /** A written line: a raw step, a loop summary, or the line of another event. */
  datatype Line = Raw(step: PendingStep) | Summary(loop: LoopState) | Other

  function Signatures(s: seq<PendingStep>): (r: seq<Signature>)
    ensures |r| == |s|
  {
    if s == [] then [] else Signatures(s[..|s| - 1]) + [s[|s| - 1].signature]
  }

  function Repeated(w: seq<Signature>, k: nat): seq<Signature> {
    if k == 0 then [] else Repeated(w, k - 1) + w
  }

  function Merge(a: LyRange, b: LyRange): LyRange { LyRange(Min(a.min, b.min), Max(a.max, b.max), b.end) }

  function Observed(s: PendingStep): LyRange {
    LyRange(Min(s.lyBefore, s.lyAfter), Max(s.lyBefore, s.lyAfter), s.lyAfter)
  }

  /** The least, greatest and last LY of a run of steps. */
  function RangeOf(s: seq<PendingStep>): LyRange {
    if s == [] then LyRange(255, 0, 0) else Merge(RangeOf(s[..|s| - 1]), Observed(s[|s| - 1]))
  }

  lemma {:induction false} SignaturesConcat(a: seq<PendingStep>, b: seq<PendingStep>)
    ensures Signatures(a + b) == Signatures(a) + Signatures(b)
  {
    if b == [] {
      assert a + b == a;
    } else {
      SignaturesConcat(a, b[..|b| - 1]);
      assert (a + b)[..|a + b| - 1] == a + b[..|b| - 1];
    }
  }

  lemma SignaturesConcatFour(a: seq<PendingStep>, b: seq<PendingStep>, c: seq<PendingStep>, d: seq<PendingStep>)
    ensures Signatures(a + b + c + d) == Signatures(a) + Signatures(b) + Signatures(c) + Signatures(d)
  {
    hide *;
    SignaturesConcat(a + b + c, d);
    SignaturesConcat(a + b, c);
    SignaturesConcat(a, b);
  }

  lemma {:induction false} SignaturesAt(s: seq<PendingStep>, i: nat)
    requires i < |s|
    ensures Signatures(s)[i] == s[i].signature
  {
    if i < |s| - 1 {
      SignaturesAt(s[..|s| - 1], i);
    }
  }

  lemma {:induction false} RangeConcat(a: seq<PendingStep>, b: seq<PendingStep>)
    requires b != []
    ensures RangeOf(a + b) == Merge(RangeOf(a), RangeOf(b))
  {
    RangeBounds(a);
    assert (a + b)[..|a + b| - 1] == a + b[..|b| - 1];
    if |b| > 1 {
      RangeConcat(a, b[..|b| - 1]);
    } else {
      assert a + b[..0] == a;
      assert RangeOf(b[..0]) == LyRange(255, 0, 0);
    }
  }

  lemma {:induction false} RangeBounds(s: seq<PendingStep>)
    ensures 0 <= RangeOf(s).min <= 255 && 0 <= RangeOf(s).max <= 255
  {
    if s != [] {
      RangeBounds(s[..|s| - 1]);
    }
  }

  /** The recorded range is met by every step and attained: it says no more and no less. */
  lemma {:induction false} RangeIsExact(s: seq<PendingStep>)
    requires s != []
    ensures forall t | t in s :: RangeOf(s).min <= t.lyBefore <= RangeOf(s).max
    ensures forall t | t in s :: RangeOf(s).min <= t.lyAfter <= RangeOf(s).max
    ensures exists t :: t in s && (t.lyBefore == RangeOf(s).min || t.lyAfter == RangeOf(s).min)
    ensures exists t :: t in s && (t.lyBefore == RangeOf(s).max || t.lyAfter == RangeOf(s).max)
    ensures RangeOf(s).end == s[|s| - 1].lyAfter
  {
    var last, rest := s[|s| - 1], s[..|s| - 1];
    assert last in s && (forall t | t in rest :: t in s) && (forall t | t in s :: t in rest || t == last);
    if rest == [] {
      assert RangeOf(rest) == LyRange(255, 0, 0);
    } else {
      RangeIsExact(rest);
    }
  }

  /** The input steps that a written line stands for. */
  ghost predicate StandsFor(line: Line, steps: seq<PendingStep>) {
    match line
    case Raw(step) => steps == [step]
    case Summary(l) => Folds(l, steps)
    case Other => steps == []
  }

  /** A loop stands for its window's signatures, repeated, and records the exact LY range; its window is
      the first occurrence. */
  ghost predicate Folds(l: LoopState, steps: seq<PendingStep>) {
    steps != [] && Signatures(steps) == Repeated(Signatures(l.window), l.repetitions) && l.ly == RangeOf(steps) &&
    l.window <= steps
  }

  ghost function Flatten(pieces: seq<seq<PendingStep>>): seq<PendingStep> {
    if pieces == [] then [] else Flatten(pieces[..|pieces| - 1]) + pieces[|pieces| - 1]
  }

  function LineExpansion(line: Line): seq<Signature> {
    match line
    case Raw(step) => [step.signature]
    case Summary(l) => Repeated(Signatures(l.window), l.repetitions)
    case Other => []
  }

  function LoopExpansion(loop: Option<LoopState>): seq<Signature> {
    if loop.None? then [] else Repeated(Signatures(loop.value.window), loop.value.repetitions)
  }

  /** The signatures that the written lines stand for, with a summary's window and count in full. */
  function Expansion(lines: seq<Line>): seq<Signature> {
    if lines == [] then [] else Expansion(lines[..|lines| - 1]) + LineExpansion(lines[|lines| - 1])
  }

  /** What was written expands, up to LY, to the signatures of the input steps it stands for. */
  lemma {:induction false} ExpansionIsInput(lines: seq<Line>, pieces: seq<seq<PendingStep>>)
    requires |lines| == |pieces| && forall i | 0 <= i < |lines| :: StandsFor(lines[i], pieces[i])
    ensures Expansion(lines) == Signatures(Flatten(pieces))
  {
    if lines != [] {
      var n := |lines| - 1;
      ExpansionIsInput(lines[..n], pieces[..n]);
      SignaturesConcat(Flatten(pieces[..n]), pieces[n]);
      assert StandsFor(lines[n], pieces[n]);
      if lines[n].Raw? {
        assert Signatures(pieces[n]) == [lines[n].step.signature] by {
          SignaturesAt(pieces[n], 0);
        }
      }
    }
  }

  predicate SameSignatures(a: seq<PendingStep>, b: seq<PendingStep>)
    requires |a| == |b|
  {
    forall i | 0 <= i < |a| :: a[i].signature == b[i].signature && !a[i].signature.interruptEntry
  }

  lemma SameSignaturesMeans(a: seq<PendingStep>, b: seq<PendingStep>)
    requires |a| == |b| && SameSignatures(a, b)
    ensures Signatures(a) == Signatures(b)
  {
    forall i | 0 <= i < |a| ensures Signatures(a)[i] == Signatures(b)[i] {
      SignaturesAt(a, i);
      SignaturesAt(b, i);
    }
  }

  /** The window sizes in the order they are tried: the preferred one, then from the largest down. */
  function Candidates(len: nat): (r: seq<nat>)
    ensures forall s | s in r :: 2 * s <= len && s <= WINDOW_MAX
  {
    [Min(WINDOW_PREFERRED, len / 2)] + Descending(Min(WINDOW_MAX, len / 2), Min(WINDOW_PREFERRED, len / 2))
  }

  function Descending(from: nat, except: nat): (r: seq<nat>)
    ensures forall s | s in r :: WINDOW_MIN <= s <= from
  {
    if from < WINDOW_MIN then []
    else (if from == except then [] else [from]) + Descending(from - 1, except)
  }

  method LyRangeForSteps(steps: seq<PendingStep>) returns (r: LyRange)
    requires steps != []
    ensures r == RangeOf(steps)
  {
    var lyMin, lyMax := 255, 0;
    for i := 0 to |steps|
      invariant lyMin == RangeOf(steps[..i]).min && lyMax == RangeOf(steps[..i]).max
    {
      assert steps[..i + 1][..i] == steps[..i];
      lyMin := Min(lyMin, steps[i].lyBefore);
      lyMin := Min(lyMin, steps[i].lyAfter);
      lyMax := Max(lyMax, steps[i].lyBefore);
      lyMax := Max(lyMax, steps[i].lyAfter);
    }
    assert steps[..|steps|] == steps;
    r := LyRange(lyMin, lyMax, steps[|steps| - 1].lyAfter);
  }

  class TraceCollector {
    var written: seq<Line>
    var pending: seq<PendingStep>
    var loopState: Option<LoopState>
    var cpuSteps: nat
    // the accepted input, and the steps each written line and the current loop stand for
    ghost var input: seq<PendingStep>
    ghost var pieces: seq<seq<PendingStep>>
    ghost var folded: seq<PendingStep>
    ghost var prefix: nat

    ghost predicate WrittenOk()
      reads this
    {
      |written| == |pieces| && forall i | 0 <= i < |written| :: StandsFor(written[i], pieces[i])
    }

    /** Prefix, collapsed loop and suffix: `prefix` counts the buffered steps from before the loop. */
    ghost predicate LoopOk()
      reads this
    {
      match loopState
      case None => prefix == |pending| && folded == []
      case Some(l) =>
        WINDOW_MIN <= |l.window| <= WINDOW_MAX && 2 <= l.repetitions && Folds(l, folded) &&
        l.window[0].index < |input| && prefix <= |pending| &&
        (forall i | 0 <= i < prefix :: pending[i].index < l.window[0].index) &&
        (forall i | prefix <= i < |pending| :: l.window[0].index < pending[i].index)
    }

    ghost predicate Lossless()
      reads this
    {
      prefix <= |pending| && input == Flatten(pieces) + pending[..prefix] + folded + pending[prefix..]
    }

    /** The buffer never exceeds two windows. */
    ghost predicate Bounded()
      reads this
    {
      match loopState
      case None => |pending| <= 2 * WINDOW_MAX
      case Some(l) => prefix + 2 * |l.window| <= 2 * WINDOW_MAX + 1 && |pending| - prefix < |l.window|
    }

    /** What every flush keeps, also in the middle of a step. */
    ghost predicate Inv()
      reads this
    {
      WrittenOk() && LoopOk() && Lossless() && Ordered(pending, |input|) && |input| <= U64_MAX
    }

    ghost predicate Valid()
      reads this
    {
      Inv() && Bounded() && |input| == cpuSteps
    }

    constructor ()
      ensures Valid() && input == [] && written == [] && pending == []
    {
      written, pending, loopState, cpuSteps := [], [], None, 0;
      input, pieces, folded, prefix := [], [], [], 0;
    }

    method WriteLine(line: Line, ghost steps: seq<PendingStep>)
      requires WrittenOk() && StandsFor(line, steps)
      modifies this`written, this`pieces
      ensures WrittenOk() && Flatten(pieces) == Flatten(old(pieces)) + steps
      ensures written == old(written) + [line]
    {
      written := written + [line];
      pieces := pieces + [steps];
      assert pieces[..|pieces| - 1] == old(pieces);
    }

    /** Everything buffered goes out raw, oldest first. */
    method FlushPendingRaw()
      requires WrittenOk()
      modifies this`written, this`pieces, this`pending
      ensures WrittenOk() && pending == [] && Flatten(pieces) == Flatten(old(pieces)) + old(pending)
    {
      assert Flatten(pieces) == Flatten(old(pieces)) + old(pending)[..0];
      ghost var i := 0;
      while pending != []
        invariant WrittenOk()
        invariant 0 <= i <= |old(pending)| && pending == old(pending)[i..]
        invariant Flatten(pieces) == Flatten(old(pieces)) + old(pending)[..i]
        decreases |pending|
      {
        hide Flatten, StandsFor;
        RawStands(pending[0]);
        WriteLine(Raw(pending[0]), [pending[0]]);
        pending := pending[1..];
        i := i + 1;
      }
    }

    /** The buffered steps older than `limit`, which are the first `count`, go out raw. */
    method FlushOlder(limit: nat, ghost count: nat)
      requires WrittenOk() && count <= |pending|
      requires forall i | 0 <= i < count :: pending[i].index < limit
      requires count < |pending| ==> pending[count].index >= limit
      modifies this`written, this`pieces, this`pending
      ensures WrittenOk() && pending == old(pending)[count..] && |written| == |old(written)| + count
      ensures Flatten(pieces) == Flatten(old(pieces)) + old(pending)[..count]
    {
      ghost var i := 0;
      assert Flatten(pieces) == Flatten(old(pieces)) + old(pending)[..0];
      hide Flatten, StandsFor;
      while pending != [] && pending[0].index < limit
        invariant WrittenOk()
        invariant 0 <= i <= count && pending == old(pending)[i..] && |written| == |old(written)| + i
        invariant Flatten(pieces) == Flatten(old(pieces)) + old(pending)[..i]
        decreases |pending|
      {
        RawStands(pending[0]);
        WriteLine(Raw(pending[0]), [pending[0]]);
        pending := pending[1..];
        i := i + 1;
      }
    }

    /** The prefix goes out raw, then one line for the collapsed loop; the suffix stays buffered. */
    method FlushLoopSummary()
      requires Inv() && loopState.Some?
      modifies this`written, this`pieces, this`pending, this`loopState, this`folded, this`prefix
      ensures Inv() && loopState.None?
      ensures pending == old(pending)[old(prefix)..]
      ensures |written| == |old(written)| + old(prefix) + 1 && written[|written| - 1] == Summary(old(loopState).value)
    {
      hide Flatten, StandsFor, Folds, Ordered;
      var state := loopState.value;
      FlushOlder(state.window[0].index, prefix);
      assert state.repetitions > 1;  // so the source's branch for raw windows is never taken
      SummaryStands(state, folded);
      WriteLine(Summary(state), folded);
      OrderedSlice(old(pending), |input|, prefix, |old(pending)|);
      loopState := None;
      folded := [];
      prefix := |pending|;
      assert pending == old(pending)[old(prefix)..|old(pending)|];
      assert pending[..prefix] == pending && pending[prefix..] == [];
      assert input == Flatten(pieces) + pending;
    }

    /** The loop's next occurrence is complete in the buffer: fold it into the loop. */
    method ExtendLoop(tail: seq<PendingStep>)
      requires Inv() && loopState.Some?
      requires |tail| == |loopState.value.window| && prefix + |tail| == |pending| && tail == pending[prefix..]
      requires SameSignatures(loopState.value.window, tail)
      modifies this`pending, this`loopState, this`folded
      ensures Inv() && loopState.Some?
      ensures pending == old(pending)[..prefix] && loopState.value.window == old(loopState).value.window
      ensures loopState.value.repetitions == old(loopState).value.repetitions + 1
    {
      hide Flatten, StandsFor, Ordered, RangeOf, Signatures, Repeated, Merge, SameSignatures;
      var state := loopState.value;
      var tailRange := LyRangeForSteps(tail);
      FoldsMore(state, folded, tail);
      loopState := Some(LoopState(state.window, Min(state.repetitions + 1, U64_MAX), Merge(state.ly, tailRange)));
      folded := folded + tail;
      OrderedSlice(pending, |input|, 0, prefix);
      pending := pending[..|pending| - |tail|];
      assert pending[prefix..] == [];
    }

    /** Two equal windows end the buffer: collapse them into a loop of two repetitions. */
    method StartLoop(size: nat)
      requires Inv() && loopState.None?
      requires WINDOW_MIN <= size <= WINDOW_MAX && 2 * size <= |pending|
      requires SameSignatures(pending[|pending| - 2 * size..|pending| - size], pending[|pending| - size..])
      modifies this`pending, this`loopState, this`folded, this`prefix
      ensures Inv() && loopState.Some?
      ensures pending == old(pending)[..|old(pending)| - 2 * size] && prefix == |pending|
      ensures |loopState.value.window| == size && loopState.value.repetitions == 2
    {
      hide Flatten, StandsFor, RangeOf, Signatures, Repeated, Merge, SameSignatures, Folds;
      var len := |pending|;
      var a, b := pending[len - 2 * size..len - size], pending[len - size..];
      var rangeA := LyRangeForSteps(a);
      var rangeB := LyRangeForSteps(b);
      SameSignaturesMeans(a, b);
      FoldsTwo(a, b);
      loopState := Some(LoopState(a, 2, Merge(rangeA, rangeB)));
      folded := a + b;
      assert pending == pending[..len - 2 * size] + (a + b);
      pending := pending[..len - 2 * size];
      prefix := |pending|;
      assert pending[prefix..] == [];
    }

    /** A full buffer without a repetition gives up its oldest step. */
    method PopOldest()
      requires Inv() && loopState.None? && pending != []
      modifies this`written, this`pieces, this`pending, this`prefix
      ensures Inv() && loopState.None?
      ensures pending == old(pending)[1..] && written == old(written) + [Raw(old(pending)[0])]
    {
      RawStands(pending[0]);
      OrderedSlice(pending, |input|, 1, |pending|);
      hide StandsFor, Flatten, Ordered;
      WriteLine(Raw(pending[0]), [pending[0]]);
      pending := pending[1..];
      prefix := |pending|;
    }

    /** The window search over a buffer with no active loop: without a repeated window of a size that
        is tried, nothing is collapsed. */
    method SearchLoop()
      requires Inv() && loopState.None? && |pending| <= 2 * WINDOW_MAX + 1
      modifies this`written, this`pieces, this`pending, this`loopState, this`folded, this`prefix
      ensures Inv() && Bounded()
      ensures loopState.Some? <==> |old(pending)| >= 2 * WINDOW_MIN && Repeats(old(pending))
      ensures old(written) <= written
    {
      hide Inv, Candidates, SameSignatures;
      if |pending| < WINDOW_MIN * 2 {
        return;
      }
      var len := |pending|;
      var candidates := Candidates(len);
      CandidatesAreAllSizes(len);
      var k := 0;
      while k < |candidates|
        invariant 0 <= k <= |candidates|
        invariant forall i | 0 <= i < k && WINDOW_MIN <= candidates[i] && 2 * candidates[i] <= |pending| ::
          !RepeatsAt(pending, candidates[i])
      {
        var size := candidates[k];
        assert size in candidates;
        if size >= WINDOW_MIN && SameSignatures(pending[len - 2 * size..len - size], pending[len - size..]) {
          assert RepeatsAt(pending, size);
          StartLoop(size);
          return;
        }
        k := k + 1;
      }
      forall size: nat | WINDOW_MIN <= size <= WINDOW_MAX && 2 * size <= |pending| ensures !RepeatsAt(pending, size) {
        assert size in candidates;
      }
      if len > WINDOW_MAX * 2 {
        PopOldest();
      }
    }

    /** Nothing is written, and the loop's window stays. */
    twostate predicate KeepsLoop()
      reads this
    {
      written == old(written) && prefix == old(prefix) && loopState.Some? && old(loopState).Some? &&
      loopState.value.window == old(loopState).value.window
    }

    /** The step just pushed completes the loop's next occurrence, breaks it, or waits for more. */
    method UpdateLoopCompression()
      requires Inv()
      requires match loopState
        case None => |pending| <= 2 * WINDOW_MAX + 1
        case Some(l) => prefix + 2 * |l.window| <= 2 * WINDOW_MAX + 1 && |pending| - prefix <= |l.window|
      modifies this`written, this`pieces, this`pending, this`loopState, this`folded, this`prefix
      ensures Inv() && Bounded()
      ensures old(loopState).Some? && |old(pending)| - old(prefix) < |old(loopState).value.window| ==>
        KeepsLoop() && loopState == old(loopState) && pending == old(pending)
      ensures old(loopState).Some? && Completes(old(loopState).value.window, old(pending), old(prefix)) ==>
        KeepsLoop() && loopState.value.repetitions == old(loopState).value.repetitions + 1 &&
        pending == old(pending)[..old(prefix)]
      ensures old(loopState).Some? && Breaks(old(loopState).value.window, old(pending), old(prefix)) ==>
        |written| > |old(written)| + old(prefix) &&
        written[|old(written)| + old(prefix)] == Summary(old(loopState).value)
    {
      if loopState.Some? {
        var state := loopState.value;
        var size := |state.window|;
        if |pending| < size {
          return;
        }
        var tail := pending[|pending| - size..];
        if tail[0].index < state.window[0].index {
          return;
        }
        assert |pending| - prefix == size;
        hide Inv, SameSignatures;
        if SameSignatures(state.window, tail) {
          ExtendLoop(tail);
          return;
        }
        FlushLoopSummary();
      }
      hide Inv;
      SearchLoop();
    }


    /** The step goes to the end of the buffer, and to the prefix while there is no loop. */
    method Buffer(step: PendingStep)
      requires Valid() && cpuSteps < U64_MAX && step.index == cpuSteps
      modifies this`pending, this`input, this`prefix
      ensures Inv() && pending == old(pending) + [step] && input == old(input) + [step]
      ensures match loopState
        case None => |pending| <= 2 * WINDOW_MAX + 1
        case Some(l) =>
          prefix == old(prefix) && prefix + 2 * |l.window| <= 2 * WINDOW_MAX + 1 && |pending| - prefix <= |l.window|
    {
      hide Flatten, Folds, StandsFor;
      pending := pending + [step];
      input := input + [step];
      if loopState.None? {
        prefix := |pending|;
      }
    }

    /** A new CPU step: after it the written lines, the buffered prefix, the collapsed loop and the
        buffered suffix are still the whole input in order, and the buffer is bounded. While the loop's
        next occurrence is incomplete nothing is written; the step that completes it is folded. */
    method OnCpuStep(signature: Signature, lyBefore: byte, lyAfter: byte, startCycle: nat, endCycle: nat)
      requires Valid() && cpuSteps < U64_MAX
      modifies this
      ensures Valid() && cpuSteps == old(cpuSteps) + 1
      ensures input == old(input) + [PendingStep(old(cpuSteps), signature, lyBefore, lyAfter, startCycle, endCycle)]
      ensures old(loopState).Some? && |old(pending)| + 1 - old(prefix) < |old(loopState).value.window| ==>
        KeepsLoop() && loopState == old(loopState) && pending == old(pending) + [input[|input| - 1]]
      ensures old(loopState).Some? &&
              Completes(old(loopState).value.window, old(pending) + [input[|input| - 1]], old(prefix)) ==>
        KeepsLoop() && loopState.value.repetitions == old(loopState).value.repetitions + 1 &&
        pending == old(pending)[..old(prefix)]
    {
      hide Flatten, Folds, StandsFor, Completes, Breaks;
      Buffer(PendingStep(cpuSteps, signature, lyBefore, lyAfter, startCycle, endCycle));
      hide Inv;
      UpdateLoopCompression();
      cpuSteps := cpuSteps + 1;
    }

    /** Compression: after an occurrence of the loop, as many further steps with the window's signatures
        count one repetition more and write nothing. */
    method OnOccurrence(observed: seq<PendingStep>)
      requires Valid() && loopState.Some? && |pending| == prefix && cpuSteps + |observed| <= U64_MAX
      requires |observed| == |loopState.value.window| && SameSignatures(loopState.value.window, observed)
      modifies this
      ensures Valid() && loopState.Some? && loopState.value.window == old(loopState).value.window
      ensures loopState.value.repetitions == old(loopState).value.repetitions + 1
      ensures written == old(written) && pending == old(pending) && prefix == old(prefix)
    {
      var w := loopState.value.window;
      assert |w| >= 2;
      hide Valid, Inv, Bounded, SameSignatures, Completes, Follows;
      FollowsNone(pending, observed);
      var n := |observed| - 1;
      for i := 0 to n
        invariant Valid() && loopState == old(loopState) && cpuSteps == old(cpuSteps) + i
        invariant written == old(written) && prefix == old(prefix) && Follows(old(pending), pending, observed[..i])
      {
        FollowsFrom(old(pending), pending, observed[..i]);
        FollowsMore(old(pending), pending, observed, i, cpuSteps);
        ObserveStep(observed[i]);
      }
      FollowsFrom(old(pending), pending, observed[..n]);
      FollowsCompletes(old(pending), pending, observed, w, cpuSteps);
      ObserveStep(observed[n]);
    }

    /** An observed step, of which the collector makes its own record. */
    method ObserveStep(s: PendingStep)
      requires Valid() && cpuSteps < U64_MAX
      modifies this
      ensures Valid() && cpuSteps == old(cpuSteps) + 1
      ensures old(loopState).Some? && |old(pending)| + 1 - old(prefix) < |old(loopState).value.window| ==>
        KeepsLoop() && loopState == old(loopState) && pending == old(pending) + [Record(old(cpuSteps), s)]
      ensures old(loopState).Some? &&
              Completes(old(loopState).value.window, old(pending) + [Record(old(cpuSteps), s)], old(prefix)) ==>
        KeepsLoop() && loopState.value.repetitions == old(loopState).value.repetitions + 1 &&
        pending == old(pending)[..old(prefix)]
    {
      hide Inv, Bounded, Completes;
      OnCpuStep(s.signature, s.lyBefore, s.lyAfter, s.startCycle, s.endCycle);
    }

    /** Online losslessness: at any time the written lines, the buffered prefix, the collapsed loop and
        the buffered suffix unfold, in this order, to everything accepted so far; and the loop's LY
        range is exact for the steps folded into it. */
    lemma OnlineExpansion()
      requires Valid()
      ensures Signatures(input) == Expansion(written) + Signatures(pending[..prefix]) + LoopExpansion(loopState) +
                                   Signatures(pending[prefix..])
      ensures loopState.Some? ==> loopState.value.ly == RangeOf(folded)
      ensures |pending| <= 2 * WINDOW_MAX
    {
      ExpansionIsInput(written, pieces);
      assert LoopExpansion(loopState) == Signatures(folded);
      hide *;
      SignaturesConcatFour(Flatten(pieces), pending[..prefix], folded, pending[prefix..]);
    }

    /** Another event's line comes after everything before it. */
    method OnOtherEvent()
      requires Valid()
      modifies this
      ensures Valid() && pending == [] && loopState.None? && input == old(input) == Flatten(pieces)
      ensures |written| > 0 && written[|written| - 1] == Other && cpuSteps == old(cpuSteps)
    {
      hide StandsFor, Flatten, Folds, Expansion, Signatures, Ordered;
      Finalize();
      OtherStands();
      WriteLine(Other, []);
    }

    /** At the end everything is written: the lines expand to the whole input, up to LY. */
    method Finalize()
      requires Valid()
      modifies this
      ensures Valid() && pending == [] && loopState.None? && input == old(input) == Flatten(pieces)
      ensures Expansion(written) == Signatures(input) && cpuSteps == old(cpuSteps)
    {
      hide StandsFor, Folds, Flatten, Expansion, Signatures;
      if loopState.Some? {
        FlushLoopSummary();
      }
      assert input == Flatten(pieces) + pending by {
        assert pending[..prefix] == pending && pending[prefix..] == [];
      }
      FlushPendingRaw();
      folded, prefix := [], 0;
      assert WrittenOk();
      ExpansionIsInput(written, pieces);
    }
  }

  // ------------------------------------------------ the loop's next occurrence

  /** The buffer behind its prefix is one more occurrence of the window. */
  predicate Completes(window: seq<PendingStep>, pending: seq<PendingStep>, prefix: int) {
    0 <= prefix <= |pending| && |pending| - prefix == |window| && SameSignatures(window, pending[prefix..])
  }

  /** An observed step under the collector's own index. */
  function Record(index: nat, s: PendingStep): PendingStep { s.(index := index) }

  /** Steps with the signatures of `observed` follow the buffer `start`. */
  predicate Follows(start: seq<PendingStep>, pending: seq<PendingStep>, observed: seq<PendingStep>) {
    start <= pending && |pending| == |start| + |observed| &&
    forall j | 0 <= j < |observed| :: pending[|start| + j].signature == observed[j].signature
  }

  lemma FollowsNone(start: seq<PendingStep>, observed: seq<PendingStep>)
    ensures Follows(start, start, observed[..0])
  {
  }

  lemma FollowsFrom(start: seq<PendingStep>, pending: seq<PendingStep>, observed: seq<PendingStep>)
    requires Follows(start, pending, observed)
    ensures |pending| == |start| + |observed| && pending[..|start|] == start
  {
  }

  lemma FollowsMore(start: seq<PendingStep>, pending: seq<PendingStep>, observed: seq<PendingStep>, i: nat, index: nat)
    requires i < |observed| && Follows(start, pending, observed[..i])
    ensures Follows(start, pending + [Record(index, observed[i])], observed[..i + 1])
  {
  }

  lemma FollowsCompletes(start: seq<PendingStep>, pending: seq<PendingStep>, observed: seq<PendingStep>,
                         w: seq<PendingStep>, index: nat)
    requires |w| == |observed| > 0 && SameSignatures(w, observed)
    requires Follows(start, pending, observed[..|observed| - 1])
    ensures Completes(w, pending + [Record(index, observed[|observed| - 1])], |start|)
  {
  }

  /** It is as long as the window and no occurrence of it. */
  predicate Breaks(window: seq<PendingStep>, pending: seq<PendingStep>, prefix: int) {
    0 <= prefix <= |pending| && |pending| - prefix == |window| && !SameSignatures(window, pending[prefix..])
  }

  // ------------------------------------------------ repetitions in the buffer

  /** The buffer ends with the same window twice, without an interrupt entry in it. */
  predicate RepeatsAt(pending: seq<PendingStep>, size: nat)
    requires 2 * size <= |pending|
  {
    SameSignatures(pending[|pending| - 2 * size..|pending| - size], pending[|pending| - size..])
  }

  predicate Repeats(pending: seq<PendingStep>) {
    exists size: nat | WINDOW_MIN <= size <= WINDOW_MAX && 2 * size <= |pending| :: RepeatsAt(pending, size)
  }

  /** Every admissible window size is tried. */
  lemma CandidatesAreAllSizes(len: nat)
    requires len >= 2 * WINDOW_MIN
    ensures forall size | WINDOW_MIN <= size <= WINDOW_MAX && 2 * size <= len :: size in Candidates(len)
  {
    var largest, preferred := Min(WINDOW_MAX, len / 2), Min(WINDOW_PREFERRED, len / 2);
    forall size | WINDOW_MIN <= size <= largest && size != preferred ensures size in Candidates(len) {
      DescendingHas(largest, preferred, size);
    }
    assert Candidates(len)[0] == preferred;
  }

  lemma {:induction false} DescendingHas(from: nat, except: nat, size: nat)
    requires WINDOW_MIN <= size <= from && size != except
    ensures size in Descending(from, except)
  {
    if size < from {
      DescendingHas(from - 1, except, size);
    }
  }

  ghost predicate Ordered(steps: seq<PendingStep>, bound: nat) {
    (forall i | 0 <= i < |steps| :: steps[i].index < bound) &&
    (forall i, j | 0 <= i < j < |steps| :: steps[i].index < steps[j].index)
  }

  lemma OrderedSlice(steps: seq<PendingStep>, bound: nat, i: nat, j: nat)
    requires Ordered(steps, bound) && i <= j <= |steps|
    ensures Ordered(steps[i..j], bound)
  {
  }

  // ------------------------------------------------ folding

  lemma RawStands(step: PendingStep)
    ensures StandsFor(Raw(step), [step])
  {
  }

  lemma SummaryStands(l: LoopState, steps: seq<PendingStep>)
    requires Folds(l, steps)
    ensures StandsFor(Summary(l), steps)
  {
  }

  lemma OtherStands()
    ensures StandsFor(Other, [])
  {
  }

  lemma TwiceRepeated(w: seq<Signature>)
    ensures Repeated(w, 2) == w + w
  {
    assert Repeated(w, 1) == Repeated(w, 0) + w == w;
  }

  lemma FoldsTwo(a: seq<PendingStep>, b: seq<PendingStep>)
    requires Signatures(a) == Signatures(b) && a != []
    ensures Folds(LoopState(a, 2, Merge(RangeOf(a), RangeOf(b))), a + b)
  {
    assert |Signatures(a)| == |a| && |Signatures(b)| == |b|;
    SignaturesConcat(a, b);
    RangeConcat(a, b);
    hide RangeOf, Signatures;
    TwiceRepeated(Signatures(a));
  }

  lemma FoldsMore(l: LoopState, folded: seq<PendingStep>, tail: seq<PendingStep>)
    requires Folds(l, folded) && |l.window| == |tail| && tail != [] && SameSignatures(l.window, tail)
    ensures Folds(LoopState(l.window, l.repetitions + 1, Merge(l.ly, RangeOf(tail))), folded + tail)
    ensures l.repetitions + 1 <= |folded + tail|
  {
    SameSignaturesMeans(l.window, tail);
    SignaturesConcat(folded, tail);
    RangeConcat(folded, tail);
    hide RangeOf, Signatures, SameSignatures;
    RepeatedLength(Signatures(l.window), l.repetitions);
  }

  lemma {:induction false} RepeatedLength(w: seq<Signature>, k: nat)
    requires w != []
    ensures |Repeated(w, k)| >= k
  {
    if k > 0 {
      RepeatedLength(w, k - 1);
    }
  }

  // ------------------------------------------------------- which line is printed

  predicate ReadsLy(s: Signature) {
    (s.opcode == Some(0xF0) && s.operand1 == Some(0x44)) ||
    (s.opcode == Some(0xFA) && s.operand1 == Some(0x44) && s.operand2 == Some(0xFF))
  }

  predicate JumpsBack(s: Signature) {
    s.opcode in {Some(0x20), Some(0x28), Some(0x30), Some(0x38)} && s.branchTaken && s.pcAfter < s.pcBefore
  }

  predicate Compares(s: Signature) { s.opcode == Some(0xFE) && s.operand1.Some? }

  datatype WaitLoop = WaitLoop(confidenceHigh: bool, hasCompareValue: bool)

  /** A wait loop is a window that reads LY and jumps back; it is trusted exactly if it also compares. */
  method SummarizeWaitLoop(window: seq<PendingStep>) returns (wait: Option<WaitLoop>)
    ensures wait.Some? <==>
      |window| >= 2 && (exists s :: s in window && ReadsLy(s.signature)) &&
      (exists s :: s in window && JumpsBack(s.signature))
    ensures wait.Some? ==>
      wait.value.hasCompareValue == wait.value.confidenceHigh == exists s :: s in window && Compares(s.signature)
  {
    if |window| < 2 {
      return None;
    }
    var sawLyRead, sawBackJump, highConfidence, sawCompare := false, false, false, false;
    for i := 0 to |window|
      invariant sawLyRead == highConfidence == exists s :: s in window[..i] && ReadsLy(s.signature)
      invariant sawBackJump == exists s :: s in window[..i] && JumpsBack(s.signature)
      invariant sawCompare == exists s :: s in window[..i] && Compares(s.signature)
    {
      assert window[..i + 1] == window[..i] + [window[i]];
      var signature := window[i].signature;
      if ReadsLy(signature) {
        sawLyRead, highConfidence := true, true;
      }
      if JumpsBack(signature) {
        sawBackJump := true;
      }
      if Compares(signature) {
        sawCompare := true;
      }
    }
    assert window[..|window|] == window;
    if !(sawLyRead && sawBackJump) {
      return None;
    }
    wait := Some(WaitLoop(highConfidence && sawCompare, sawCompare));
  }

  /** The choice between the two summary lines: the wait line exactly for a trusted wait loop that is to
      be summarized and not forced raw; otherwise the loop line. There is no third case. */
  method PrintsWaitLine(window: seq<PendingStep>, summarizeWaits: bool, forceRaw: bool) returns (waitLine: bool)
    ensures waitLine <==>
      summarizeWaits && !forceRaw && |window| >= 2 && (exists s :: s in window && ReadsLy(s.signature)) &&
      (exists s :: s in window && JumpsBack(s.signature)) && (exists s :: s in window && Compares(s.signature))
  {
    var semantic := SummarizeWaitLoop(window);
    var emitSemantic := summarizeWaits && semantic.Some? && semantic.value.hasCompareValue;
    var emitRawLoop := forceRaw || !(semantic.Some? && semantic.value.confidenceHigh);
    waitLine := !(!emitSemantic || emitRawLoop);
  }
}
