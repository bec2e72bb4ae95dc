/** One question-and-answer turn (`Session::Ask`): compose and tokenize the prompt,
    decode it as one batch, then sample tokens one by one, sliding the context window
    when it is full. The inference engine is an oracle. */
module Session {
  import opened Wrappers
  import opened Composer
  import opened KvMemory

  /** What the engine answers, fixed for one turn: the token count `llama_tokenize`
      reports for a text and a `parse_special` flag (negative on failure), whether the
      prompt batch decodes, whether the single-token decode of loop iteration `k`
      succeeds, whether the memory supports shifting, the token sampled in iteration
      `i`, the end-of-sequence token (`llama_vocab_eos`) and a token's text piece. */
  datatype Engine = Engine(
    tokenize: (string, bool) -> int,
    promptDecodeOk: bool,
    tokenDecodeOk: nat -> bool,
    canShift: bool,
    sample: nat -> Token,
    eos: Token,
    piece: Token -> string)

  /** The session's model-independent state: its composer and the context size. */
  datatype SessionState = SessionState(composer: PromptComposer, nCtx: int)

  /** The exceptions `Ask` throws. */
  datatype AskError =
    | TokenizeFailed(code: int)
    | InvalidTokenCount(count: int)
    | PromptDecodeFailed
    | ShiftUnsupported
    | CapacityError
    | TokenDecodeFailed

  /** The constructor: the system prompt goes through the composer's sanitizing
      constructor with an empty user message. */
  function NewSession(systemPrompt: string, format: PromptFormat, nCtx: int): (s: SessionState)
    ensures s.composer == NewComposer(systemPrompt, "", format)
    ensures s.composer.user == [] && s.composer.format == format && s.nCtx == nCtx
  {
    SessionState(NewComposer(systemPrompt, "", format), nCtx)
  }

  // ---------------------------------------------------------------------------------
  // Reference definitions of what a turn produces.

  /** The tokenize calls: one with special-token parsing, and a second without it
      exactly when the first reports failure. */
  function TokenizeCalls(e: Engine, prompt: string): (t: seq<EngineCall>)
    ensures 1 <= |t| <= 2 && t[0] == Tokenize(prompt, true)
    ensures |t| == 2 <==> e.tokenize(prompt, true) < 0
    ensures |t| == 2 ==> t[1] == Tokenize(prompt, false)
  {
    [Tokenize(prompt, true)] + (if e.tokenize(prompt, true) < 0 then [Tokenize(prompt, false)] else [])
  }

  /** The token count the turn goes on with: the retry's when the first pass failed. */
  function TokenCount(e: Engine, prompt: string): int {
    var n := e.tokenize(prompt, true);
    if n < 0 then e.tokenize(prompt, false) else n
  }

  /** The count the turn goes on with is the engine's answer to the last tokenize call
      issued, and it is negative only when both passes failed. */
  lemma TokenCountOfLastCall(e: Engine, prompt: string)
    ensures var t := TokenizeCalls(e, prompt);
      TokenCount(e, prompt) == e.tokenize(t[|t| - 1].text, t[|t| - 1].parseSpecial)
    ensures TokenCount(e, prompt) < 0 <==> e.tokenize(prompt, true) < 0 && e.tokenize(prompt, false) < 0
  {
  }

  /** The prompt batch: token `i` of the prompt at position `i` on sequence 0, with
      logits requested for the last token only. */
  predicate IsPromptBatch(batch: seq<BatchEntry>, n: int) {
    |batch| == n && forall i :: 0 <= i < |batch| ==> batch[i] == BatchEntry(PromptToken(i), i, 0, i == n - 1)
  }

  /** The first iteration below `maxNew`, from `i` on, whose sampled token ends the
      generation; `maxNew` when there is none. */
  function FirstEos(e: Engine, maxNew: nat, i: nat): (k: nat)
    requires i <= maxNew
    ensures i <= k <= maxNew
    ensures forall j :: i <= j < k ==> e.sample(j) != e.eos
    ensures k < maxNew ==> e.sample(k) == e.eos
    decreases maxNew - i
  {
    if i == maxNew then maxNew
    else if e.sample(i) == e.eos then i
    else FirstEos(e, maxNew, i + 1)
  }

  /** How many tokens a turn generates. */
  function Stop(e: Engine, maxNew: nat): nat {
    FirstEos(e, maxNew, 0)
  }

  /** How many iterations run their window check: the generated ones and, when the
      end token was sampled, that iteration too. */
  function Entered(e: Engine, maxNew: nat): nat {
    if Stop(e, maxNew) < maxNew then Stop(e, maxNew) + 1 else maxNew
  }

  /** The generation stops at `i` when no earlier token ended it and `i` does. */
  lemma StopAt(e: Engine, maxNew: nat, i: nat)
    requires i <= maxNew && (i == maxNew || e.sample(i) == e.eos)
    requires forall j :: 0 <= j < i ==> e.sample(j) != e.eos
    ensures Stop(e, maxNew) == i
  {
  }

  /** A non-ending token sampled below `maxNew` is generated. */
  lemma StopAfter(e: Engine, maxNew: nat, i: nat)
    requires i < maxNew
    requires forall j :: 0 <= j <= i ==> e.sample(j) != e.eos
    ensures i < Stop(e, maxNew)
  {
  }

  /** The text of the first `k` generated tokens. */
  function Generated(e: Engine, k: nat): string {
    if k == 0 then [] else Generated(e, k - 1) + e.piece(e.sample(k - 1))
  }

  /** Iterations `[0, i)` each sampled a non-ending token whose decode succeeded. */
  predicate Clean(e: Engine, i: nat) {
    i == 0 || (Clean(e, i - 1) && e.sample(i - 1) != e.eos && e.tokenDecodeOk(i - 1))
  }

  lemma {:induction false} CleanMeans(e: Engine, i: nat)
    ensures Clean(e, i) <==> forall k :: 0 <= k < i ==> e.sample(k) != e.eos && e.tokenDecodeOk(k)
  {
    if i > 0 {
      CleanMeans(e, i - 1);
    }
  }

  /** Positions `[0, Keep(nCtx))` survive an eviction. */
  function Keep(nCtx: int): int {
    nCtx / 2
  }

  /** The cursor at the start of iteration `i`, before the window check: the prompt
      length at first, then one past the previous token. */
  function Cursor(n: int, nCtx: int, i: nat): (p: int)
    requires 1 <= n <= nCtx
    ensures 1 <= p <= nCtx
    decreases i, 0
  {
    if i == 0 then n else Slot(n, nCtx, i - 1) + 1
  }

  /** The position token `k` is written to: the cursor, or `Keep` when the window check
      found the window full and evicted. */
  function Slot(n: int, nCtx: int, k: nat): (p: int)
    requires 1 <= n <= nCtx
    ensures 0 <= p < nCtx
    decreases k, 1
  {
    if Cursor(n, nCtx, k) >= nCtx then Keep(nCtx) else Cursor(n, nCtx, k)
  }

  /** The end of the occupied window when a turn finishes normally: the slot the end
      token would have taken, or the cursor after the last iteration. */
  function FinalPos(e: Engine, n: int, nCtx: int, maxNew: nat): int
    requires 1 <= n <= nCtx
  {
    if Stop(e, maxNew) < maxNew then Slot(n, nCtx, Stop(e, maxNew)) else Cursor(n, nCtx, maxNew)
  }

  /** The single-token batch of iteration `k`. */
  function SingleDecode(e: Engine, n: int, nCtx: int, k: nat): BatchEntry
    requires 1 <= n <= nCtx
  {
    BatchEntry(SampledToken(e.sample(k)), Slot(n, nCtx, k), 0, true)
  }

  /** The single-token batches of iterations `[0, k)`, in order. */
  function Expected(e: Engine, n: int, nCtx: int, k: nat): (d: seq<seq<BatchEntry>>)
    requires 1 <= n <= nCtx
    ensures |d| == k
  {
    if k == 0 then [] else Expected(e, n, nCtx, k - 1) + [[SingleDecode(e, n, nCtx, k - 1)]]
  }

  lemma {:induction false} ExpectedAt(e: Engine, n: int, nCtx: int, k: nat, j: nat)
    requires 1 <= n <= nCtx && j < k
    ensures Expected(e, n, nCtx, k)[j] == [SingleDecode(e, n, nCtx, j)]
  {
    if j < k - 1 {
      ExpectedAt(e, n, nCtx, k - 1, j);
    }
  }

  // ---------------------------------------------------------------------------------
  // Arithmetic of the sliding window.

  lemma MulBound(d: int, w: int)
    requires 1 <= w
    ensures d >= 1 ==> d * w >= w
    ensures d <= -1 ==> d * w <= -w
  {
    if d >= 1 {
      assert d * w == (d - 1) * w + w;
    } else if d <= -1 {
      assert d * w == (d + 1) * w - w;
    }
  }

  lemma ModUnique(x: int, w: int, q: int, r: int)
    requires 1 <= w && 0 <= r < w && x == q * w + r
    ensures x % w == r
  {
    var d := q - x / w;
    assert d * w == x % w - r;
    MulBound(d, w);
  }

  lemma ModSucc(a: nat, w: int)
    requires 1 <= w
    ensures (a + 1) % w == if a % w == w - 1 then 0 else a % w + 1
  {
    var q := a / w;
    if a % w == w - 1 {
      ModUnique(a + 1, w, q + 1, 0);
    } else {
      ModUnique(a + 1, w, q, a % w + 1);
    }
  }

  lemma ModPeriod(a: nat, w: int)
    requires 1 <= w
    ensures (a + w) % w == a % w
  {
    var q, r := a / w, a % w;
    assert (q + 1) * w == q * w + w;
    ModUnique(a + w, w, q + 1, r);
  }

  /** Until the window fills, the cursor counts tokens after the prompt. */
  lemma {:induction false} CursorBeforeFull(n: int, nCtx: int, i: nat)
    requires 1 <= n <= nCtx && n + i <= nCtx
    ensures Cursor(n, nCtx, i) == n + i
  {
    if i > 0 {
      CursorBeforeFull(n, nCtx, i - 1);
    }
  }

  /** Closed form of the slots: consecutive after the prompt until the window is full,
      then cycling through `[Keep, nCtx)`, the oldest `nCtx - Keep` positions evicted each time round. */
  lemma {:induction false} SlotClosedForm(n: int, nCtx: int, k: nat)
    requires 1 <= n <= nCtx
    ensures Slot(n, nCtx, k) ==
      if n + k < nCtx then n + k else Keep(nCtx) + (n + k - nCtx) % (nCtx - Keep(nCtx))
  {
    var w := nCtx - Keep(nCtx);
    if k == 0 {
      assert 0 % w == 0;
    } else {
      SlotClosedForm(n, nCtx, k - 1);
      if n + k - 1 < nCtx {
        assert 0 % w == 0;
      } else {
        ModSucc(n + k - 1 - nCtx, w);
      }
    }
  }

  /** Once the window has filled, new tokens never land in the kept half `[0, Keep)`. */
  lemma SlotAfterFull(n: int, nCtx: int, k: nat)
    requires 1 <= n <= nCtx && nCtx <= n + k
    ensures Keep(nCtx) <= Slot(n, nCtx, k) < nCtx
  {
    SlotClosedForm(n, nCtx, k);
  }

  /** After the window has filled, slots repeat with period `nCtx - Keep`. */
  lemma SlotPeriodic(n: int, nCtx: int, k: nat)
    requires 1 <= n <= nCtx && nCtx <= n + k
    ensures Slot(n, nCtx, k + (nCtx - Keep(nCtx))) == Slot(n, nCtx, k)
  {
    var w := nCtx - Keep(nCtx);
    var a := n + k - nCtx;
    SlotClosedForm(n, nCtx, k);
    SlotClosedForm(n, nCtx, k + w);
    ModPeriod(a, w);
  }

  /** A 10-token prompt in a 16-position window: tokens 0-5 take positions 10-15, the
      seventh finds the window full and goes to 8, and the next ones follow it. */
  lemma SlotExample()
    ensures Slot(10, 16, 0) == 10 && Slot(10, 16, 5) == 15
    ensures Slot(10, 16, 6) == 8 && Slot(10, 16, 9) == 11
    ensures Slot(10, 16, 14) == 8
  {
    SlotClosedForm(10, 16, 0);
    SlotClosedForm(10, 16, 5);
    SlotClosedForm(10, 16, 6);
    SlotClosedForm(10, 16, 9);
    SlotClosedForm(10, 16, 14);
  }

  // ---------------------------------------------------------------------------------
  // The turn.

  /** Fills the prompt batch (Session.cpp:82-90). */
  method PromptBatch(n: nat) returns (batch: seq<BatchEntry>)
    ensures IsPromptBatch(batch, n)
  {
    batch := [];
    var i := 0;
    while i < n
      invariant 0 <= i <= n
      invariant |batch| == i
      invariant forall j :: 0 <= j < i ==> batch[j] == BatchEntry(PromptToken(j), j, 0, j == n - 1)
    {
      batch := batch + [BatchEntry(PromptToken(i), i, 0, i == n - 1)];
      i := i + 1;
    }
  }

  /** The two calls of an eviction (Session.cpp:123-125). */
  function EvictCalls(nCtx: int): seq<EngineCall> {
    [SeqRemove(0, 0, nCtx - Keep(nCtx)), SeqAdd(0, 0, -1, -(nCtx - Keep(nCtx)))]
  }

  /** An eviction on a full window leaves `[0, Keep)` and keeps every write fresh. */
  lemma EvictOccupied(trace: seq<EngineCall>, nCtx: int)
    requires 1 <= nCtx
    requires Occupied(trace) == Range(0, nCtx) && WritesFresh(trace, nCtx)
    ensures Occupied(trace + EvictCalls(nCtx)) == Range(0, Keep(nCtx))
    ensures WritesFresh(trace + EvictCalls(nCtx), nCtx)
  {
    var d := nCtx - Keep(nCtx);
    var t := trace + EvictCalls(nCtx);
    assert t == trace + [SeqRemove(0, 0, d), SeqAdd(0, 0, -1, -d)];
    assert Occupied(t) == Shift(Remove(Range(0, nCtx), 0, d), 0, -1, -d) && WritesFresh(t, nCtx) by {
      RemoveThenShift(trace, d, nCtx);
    }
    EvictWindow(nCtx, d);
  }

  /** An eviction adds no decode and counts once. */
  lemma EvictObservers(gen: seq<EngineCall>, nCtx: int)
    ensures Decodes(gen + EvictCalls(nCtx)) == Decodes(gen)
    ensures Evictions(gen + EvictCalls(nCtx)) == Evictions(gen) + 1
  {
    RemoveThenShift(gen, nCtx - Keep(nCtx), nCtx);
  }

  /** The sliding-window check of iteration `i` (Session.cpp:121-127): evicts exactly when the
      cursor has reached `nCtx`, and leaves the cursor on the slot of token `i`. */
  method CheckWindow(e: Engine, n: int, nCtx: int, trace0: seq<EngineCall>,
                     i: nat, pos: int, out: string, gen: seq<EngineCall>)
    returns (pos': int, gen': seq<EngineCall>)
    requires AtIteration(e, n, nCtx, trace0, i, pos, out, gen)
    ensures AtSlot(e, n, nCtx, trace0, i, pos', out, gen')
    ensures pos >= nCtx ==> pos' == Keep(nCtx) && gen' == gen + EvictCalls(nCtx)
    ensures pos < nCtx ==> pos' == pos && gen' == gen
  {
    if n + i <= nCtx {
      CursorBeforeFull(n, nCtx, i);
    }
    if pos >= nCtx {
      gen' := gen + EvictCalls(nCtx);
      CallsAssoc(trace0, gen, EvictCalls(nCtx));
      EvictOccupied(trace0 + gen, nCtx);
      EvictObservers(gen, nCtx);
      pos' := Keep(nCtx);
    } else {
      gen', pos' := gen, pos;
    }
  }

  /** The single-token decode (Session.cpp:139-141): writes the free position just past the
      occupied prefix. */
  method DecodeToken(nCtx: int, pos: int, b: BatchEntry, trace0: seq<EngineCall>, gen: seq<EngineCall>)
    returns (gen': seq<EngineCall>)
    requires 0 <= pos < nCtx && b.pos == pos && b.seqId == 0
    requires Occupied(trace0 + gen) == Range(0, pos) && WritesFresh(trace0 + gen, nCtx)
    ensures Occupied(trace0 + gen') == Range(0, pos + 1) && WritesFresh(trace0 + gen', nCtx)
    ensures Decodes(gen') == Decodes(gen) + [[b]]
    ensures Evictions(gen') == Evictions(gen)
    ensures gen' == gen + [Decode([b])]
  {
    gen' := gen + [Decode([b])];
    var t := trace0 + gen;
    Snoc(t, Decode([b]));
    WritesFreshSnoc(t, Decode([b]), nCtx);
    Snoc(gen, Decode([b]));
    assert BatchPositions([b]) == {pos};
    ExtendWindow(pos);
    assert t + [Decode([b])] == trace0 + gen';
  }

  /** The loop state at the top of iteration `i`: the earlier iterations were clean, `out`
      holds their pieces, the memory holds exactly `[0, pos)` with `pos` the cursor, and
      `gen` decoded one token per iteration and evicted only once the window had filled. */
  predicate AtIteration(e: Engine, n: int, nCtx: int, trace0: seq<EngineCall>,
                        i: nat, pos: int, out: string, gen: seq<EngineCall>) {
    1 <= n <= nCtx && Clean(e, i) && out == Generated(e, i) && pos == Cursor(n, nCtx, i)
    && Occupied(trace0 + gen) == Range(0, pos) && WritesFresh(trace0 + gen, nCtx)
    && Decodes(gen) == Expected(e, n, nCtx, i) && (Evictions(gen) > 0 <==> n + i > nCtx)
  }

  /** The loop state of iteration `i` once its window check has run: as `AtIteration`,
      with the cursor on the slot of token `i` and the check of iteration `i` counted. */
  predicate AtSlot(e: Engine, n: int, nCtx: int, trace0: seq<EngineCall>,
                   i: nat, pos: int, out: string, gen: seq<EngineCall>) {
    1 <= n <= nCtx && Clean(e, i) && out == Generated(e, i) && pos == Slot(n, nCtx, i)
    && Occupied(trace0 + gen) == Range(0, pos) && WritesFresh(trace0 + gen, nCtx)
    && Decodes(gen) == Expected(e, n, nCtx, i) && (Evictions(gen) > 0 <==> n + i + 1 > nCtx)
  }

  /** How one pass of the generation loop ends. */
  datatype Outcome = Continue | Ended | Failed

  /** Sampling and emitting token `i` once the window check has run (Session.cpp:129-145):
      stop at the end token, otherwise append its piece and decode it at `pos`. */
  method Emit(e: Engine, n: int, nCtx: int, trace0: seq<EngineCall>,
              i: nat, pos: int, out: string, gen: seq<EngineCall>)
    returns (o: Outcome, out': string, gen': seq<EngineCall>)
    requires AtSlot(e, n, nCtx, trace0, i, pos, out, gen)
    ensures o == Ended <==> e.sample(i) == e.eos
    ensures o == Failed <==> e.sample(i) != e.eos && !e.tokenDecodeOk(i)
    ensures o == Ended ==> out' == out && gen' == gen && AtSlot(e, n, nCtx, trace0, i, pos, out', gen')
    ensures o == Failed ==> Clean(e, i)
    ensures o == Continue ==> AtIteration(e, n, nCtx, trace0, i + 1, pos + 1, out', gen')
    ensures o == Failed ==> Decodes(gen') == Expected(e, n, nCtx, i + 1)
    ensures WritesFresh(trace0 + gen', nCtx)
  {
    out', gen' := out, gen;
    var id := e.sample(i);
    if id == e.eos {
      return Ended, out', gen';
    }
    out' := out + e.piece(id);
    var b := BatchEntry(SampledToken(id), pos, 0, true);
    gen' := DecodeToken(nCtx, pos, b, trace0, gen);
    assert b == SingleDecode(e, n, nCtx, i);
    assert Decodes(gen') == Expected(e, n, nCtx, i + 1);
    if e.tokenDecodeOk(i) {
      o := Continue;
      assert AtIteration(e, n, nCtx, trace0, i + 1, pos + 1, out', gen') by {
        assert Clean(e, i + 1) && Cursor(n, nCtx, i + 1) == pos + 1;
        assert Evictions(gen') > 0 <==> n + (i + 1) > nCtx;
      }
    } else {
      o := Failed;
    }
  }

  /** A loop that leaves at iteration `i`, with every earlier iteration clean, generated
      exactly `i` tokens, all of them decoded. */
  lemma Finished(e: Engine, maxNew: nat, i: nat)
    requires i <= maxNew && Clean(e, i) && (i == maxNew || e.sample(i) == e.eos)
    ensures Stop(e, maxNew) == i
    ensures forall k :: 0 <= k < Stop(e, maxNew) ==> e.tokenDecodeOk(k)
    ensures Entered(e, maxNew) == if i < maxNew then i + 1 else maxNew
  {
    CleanMeans(e, i);
    StopAt(e, maxNew, i);
  }

  /** A failed decode at iteration `i` happened below the stop, so not every generated
      token was decoded. */
  lemma Aborted(e: Engine, maxNew: nat, i: nat)
    requires i < maxNew && Clean(e, i) && e.sample(i) != e.eos && !e.tokenDecodeOk(i)
    ensures i < Stop(e, maxNew)
    ensures !forall k :: 0 <= k < Stop(e, maxNew) ==> e.tokenDecodeOk(k)
  {
    CleanMeans(e, i);
    StopAfter(e, maxNew, i);
  }

  /** The generation loop (Session.cpp:110-146), run after a trace whose memory holds exactly
      the prompt's positions; `gen` is the calls the loop issues. It leaves at iteration
      `i` with outcome `o`: `Continue` when the budget ran out, `Ended` at the end token,
      `Failed` at a decode failure. */
  method GenerateLoop(e: Engine, n: int, nCtx: int, maxNew: nat, trace0: seq<EngineCall>)
    returns (o: Outcome, i: nat, pos: int, out: string, gen: seq<EngineCall>)
    requires 1 <= n <= nCtx
    requires Occupied(trace0) == Range(0, n)
    requires WritesFresh(trace0, nCtx)
    ensures i <= maxNew
    ensures o == Continue ==> i == maxNew && AtIteration(e, n, nCtx, trace0, i, pos, out, gen)
    ensures o == Ended ==> i < maxNew && e.sample(i) == e.eos && AtSlot(e, n, nCtx, trace0, i, pos, out, gen)
    ensures o == Failed ==> i < maxNew && Clean(e, i) && e.sample(i) != e.eos && !e.tokenDecodeOk(i)
    ensures o == Failed ==> Decodes(gen) == Expected(e, n, nCtx, i + 1)
    ensures WritesFresh(trace0 + gen, nCtx)
  {
    gen := [];
    assert trace0 + gen == trace0;
    out := "";
    pos := n;
    i := 0;
    while i < maxNew
      invariant i <= maxNew && AtIteration(e, n, nCtx, trace0, i, pos, out, gen)
    {
      pos, gen := CheckWindow(e, n, nCtx, trace0, i, pos, out, gen);
      o, out, gen := Emit(e, n, nCtx, trace0, i, pos, out, gen);
      if o != Continue {
        return;
      }
      pos := pos + 1;
      i := i + 1;
    }
    o := Continue;
  }

  /** `Ask`'s generation phase: success exactly when every generated token decoded, with
      the generated text, the final window and the decode trace. */
  method Generate(e: Engine, n: int, nCtx: int, maxNew: nat, trace0: seq<EngineCall>)
    returns (r: Result<string, AskError>, gen: seq<EngineCall>)
    requires 1 <= n <= nCtx
    requires Occupied(trace0) == Range(0, n)
    requires WritesFresh(trace0, nCtx)
    ensures WritesFresh(trace0 + gen, nCtx)
    ensures r.Success? <==> forall k :: 0 <= k < Stop(e, maxNew) ==> e.tokenDecodeOk(k)
    ensures r.Failure? ==> r.error == TokenDecodeFailed
    ensures r.Success? ==> r.value == Generated(e, Stop(e, maxNew))
    ensures r.Success? ==> Occupied(trace0 + gen) == Range(0, FinalPos(e, n, nCtx, maxNew))
    ensures r.Success? ==> Decodes(gen) == Expected(e, n, nCtx, Stop(e, maxNew))
    ensures r.Failure? ==> Decodes(gen) == Expected(e, n, nCtx, |Decodes(gen)|)
    ensures r.Success? ==> (Evictions(gen) > 0 <==> n + Entered(e, maxNew) > nCtx)
  {
    var o, i, pos, out;
    o, i, pos, out, gen := GenerateLoop(e, n, nCtx, maxNew, trace0);
    if o == Failed {
      Aborted(e, maxNew, i);
      r := Failure(TokenDecodeFailed);
    } else {
      Finished(e, maxNew, i);
      r := Success(out);
    }
  }

  /** The prompt batch occupies exactly `[0, n)`. */
  lemma PromptBatchPositions(batch: seq<BatchEntry>, n: nat)
    requires IsPromptBatch(batch, n)
    ensures BatchPositions(batch) == Range(0, n)
  {
    forall p | 0 <= p < n ensures p in BatchPositions(batch) {
      assert batch[p].pos == p && batch[p].seqId == 0;
    }
  }

  /** After the clear and the prompt batch (Session.cpp:79-98) the memory holds exactly the
      prompt's positions `[0, n)`, whatever the trace held before, and the batch wrote
      only free positions inside the window. */
  lemma AfterPromptBatch(t: seq<EngineCall>, batch: seq<BatchEntry>, n: nat, nCtx: int)
    requires IsPromptBatch(batch, n) && n <= nCtx && WritesFresh(t, nCtx)
    ensures Occupied(t + [MemoryClear, Decode(batch)]) == Range(0, n)
    ensures WritesFresh(t + [MemoryClear, Decode(batch)], nCtx)
    ensures Evictions(t + [MemoryClear, Decode(batch)]) == Evictions(t)
  {
    var t1 := t + [MemoryClear];
    assert Occupied(t1) == {} && WritesFresh(t1, nCtx) && Evictions(t1) == Evictions(t) by {
      Snoc(t, MemoryClear);
      WritesFreshSnoc(t, MemoryClear, nCtx);
    }
    assert t1 + [Decode(batch)] == t + [MemoryClear, Decode(batch)];
    PromptBatchPositions(batch, n);
    Snoc(t1, Decode(batch));
    WritesFreshSnoc(t1, Decode(batch), nCtx);
  }

  /** Tokenizing (Session.cpp:46-67): the calls before the memory is cleared, and the count
      the turn goes on with. */
  method Prepare(e: Engine, prompt: string, nCtx: int) returns (n: int, calls: seq<EngineCall>)
    ensures n == TokenCount(e, prompt)
    ensures calls == TokenizeCalls(e, prompt)
    ensures WritesFresh(calls, nCtx) && Occupied(calls) == {} && Evictions(calls) == 0
  {
    calls := [Tokenize(prompt, true)];
    Snoc([], Tokenize(prompt, true));
    WritesFreshSnoc([], Tokenize(prompt, true), nCtx);
    n := e.tokenize(prompt, true);
    if n < 0 {
      Snoc(calls, Tokenize(prompt, false));
      WritesFreshSnoc(calls, Tokenize(prompt, false), nCtx);
      calls := calls + [Tokenize(prompt, false)];
      n := e.tokenize(prompt, false);
    }
  }

  /** The turn once the token count is valid (Session.cpp:76-150): clear the memory, decode
      the prompt batch, check shifting and the output reservation, generate. */
  method Run(e: Engine, n: int, nCtx: int, maxNew: int, t: seq<EngineCall>)
    returns (r: Result<string, AskError>, calls: seq<EngineCall>)
    requires 1 <= n <= nCtx
    requires WritesFresh(t, nCtx)
    ensures |t| + 2 <= |calls| && calls[..|t|] == t
    ensures calls[|t|] == MemoryClear && calls[|t| + 1].Decode? && IsPromptBatch(calls[|t| + 1].batch, n)
    ensures !(e.promptDecodeOk && e.canShift && 0 <= maxNew) ==>
      |calls| == |t| + 2 &&
      r == Failure(if !e.promptDecodeOk then PromptDecodeFailed
                   else if !e.canShift then ShiftUnsupported
                   else CapacityError)
    ensures r.Success? <==>
      e.promptDecodeOk && e.canShift && 0 <= maxNew && forall k :: 0 <= k < Stop(e, maxNew) ==> e.tokenDecodeOk(k)
    ensures r.Failure? && r.error == TokenDecodeFailed ==> e.promptDecodeOk && e.canShift && 0 <= maxNew
    ensures r.Success? ==>
      r.value == Generated(e, Stop(e, maxNew)) &&
      Occupied(calls) == Range(0, FinalPos(e, n, nCtx, maxNew)) &&
      Decodes(calls[|t| + 2..]) == Expected(e, n, nCtx, Stop(e, maxNew)) &&
      (Evictions(calls) > 0 <==> Evictions(t) > 0 || n + Entered(e, maxNew) > nCtx)
    ensures WritesFresh(calls, nCtx)
  {
    var batch := PromptBatch(n);
    calls := t + [MemoryClear, Decode(batch)];
    AfterPromptBatch(t, batch, n, nCtx);
    assert calls[..|t|] == t && calls[|t|] == MemoryClear && calls[|t| + 1] == Decode(batch);
    if !e.promptDecodeOk {
      return Failure(PromptDecodeFailed), calls;
    }
    if !e.canShift {
      return Failure(ShiftUnsupported), calls;
    }
    if maxNew < 0 {
      return Failure(CapacityError), calls;
    }
    var gen;
    r, gen := Generate(e, n, nCtx, maxNew, calls);
    EvictionsAppend(calls, gen);
    assert (calls + gen)[..|t|] == t;
    assert (calls + gen)[|t|] == MemoryClear && (calls + gen)[|t| + 1] == Decode(batch);
    assert (calls + gen)[|t| + 2..] == gen;
    calls := calls + gen;
  }

  /** A turn on an already composed prompt (Session.cpp:46-150): the reply or the exception
      thrown, and the engine calls made in order. */
  method Turn(e: Engine, prompt: string, nCtx: int, maxNew: int)
    returns (r: Result<string, AskError>, calls: seq<EngineCall>)
    ensures var t := TokenizeCalls(e, prompt);
      |t| <= |calls| && calls[..|t|] == t
    ensures var n := TokenCount(e, prompt);
      !(1 <= n <= nCtx) ==>
        calls == TokenizeCalls(e, prompt) &&
        r == Failure(if n < 0 then TokenizeFailed(n) else InvalidTokenCount(n))
    ensures var n, t := TokenCount(e, prompt), TokenizeCalls(e, prompt);
      1 <= n <= nCtx ==>
        |t| + 2 <= |calls| && calls[|t|] == MemoryClear && calls[|t| + 1].Decode? &&
        IsPromptBatch(calls[|t| + 1].batch, n)
    ensures var n, t := TokenCount(e, prompt), TokenizeCalls(e, prompt);
      1 <= n <= nCtx && !(e.promptDecodeOk && e.canShift && 0 <= maxNew) ==>
        |calls| == |t| + 2 &&
        r == Failure(if !e.promptDecodeOk then PromptDecodeFailed
                     else if !e.canShift then ShiftUnsupported
                     else CapacityError)
    ensures r.Success? <==>
      var n := TokenCount(e, prompt);
      1 <= n <= nCtx && e.promptDecodeOk && e.canShift && 0 <= maxNew &&
      forall k :: 0 <= k < Stop(e, maxNew) ==> e.tokenDecodeOk(k)
    ensures r.Success? ==>
      var n, t := TokenCount(e, prompt), TokenizeCalls(e, prompt);
      r.value == Generated(e, Stop(e, maxNew)) &&
      Occupied(calls) == Range(0, FinalPos(e, n, nCtx, maxNew)) &&
      Decodes(calls[|t| + 2..]) == Expected(e, n, nCtx, Stop(e, maxNew)) &&
      (Evictions(calls) > 0 <==> n + Entered(e, maxNew) > nCtx)
    ensures WritesFresh(calls, nCtx)
  {
    var n;
    n, calls := Prepare(e, prompt, nCtx);
    if n < 0 {
      return Failure(TokenizeFailed(n)), calls;
    }
    if n == 0 || n > nCtx {
      return Failure(InvalidTokenCount(n)), calls;
    }
    r, calls := Run(e, n, nCtx, maxNew, calls);
  }

  /** `Session::Ask`: stores the sanitized user message, builds the prompt and runs the
      turn on it; the composer keeps the new user message whatever the outcome. */
  method Ask(s: SessionState, userPrompt: string, maxNew: int, e: Engine)
    returns (s': SessionState, r: Result<string, AskError>, calls: seq<EngineCall>)
    ensures s'.nCtx == s.nCtx && s'.composer == SetUser(s.composer, userPrompt)
    ensures |calls| > 0 && calls[0] == Tokenize(Build(s'.composer), true)
    ensures r.Success? ==> 0 <= maxNew && r.value == Generated(e, Stop(e, maxNew))
    ensures r.Success? ==> |Occupied(calls)| <= s.nCtx
    ensures WritesFresh(calls, s.nCtx)
  {
    s' := SessionState(SetUser(s.composer, userPrompt), s.nCtx);
    r, calls := Turn(e, Build(s'.composer), s.nCtx, maxNew);
    if r.Success? {
      var n := TokenCount(e, Build(s'.composer));
      RangeSize(0, FinalPos(e, n, s.nCtx, maxNew));
    }
  }
}
