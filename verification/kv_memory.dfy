/** The engine's attention (KV) memory for sequence 0, seen as the set of occupied token
    positions, and the engine calls that change it. */
module KvMemory {

  type Token = int

  /** What a batch slot carries: the `index`-th token of the tokenized prompt, or a token
      id the sampler returned. */
  datatype TokenRef = PromptToken(index: nat) | SampledToken(id: Token)

  /** One slot of a `llama_batch`: token, position, sequence id and logits flag. */
  datatype BatchEntry = BatchEntry(token: TokenRef, pos: int, seqId: int, logits: bool)

  /** The engine calls a turn issues, in order. */
  datatype EngineCall =
    | Tokenize(text: string, parseSpecial: bool)
    | MemoryClear
    | Decode(batch: seq<BatchEntry>)
    | SeqRemove(seqId: int, p0: int, p1: int)
    | SeqAdd(seqId: int, p0: int, p1: int, delta: int)

  /** The positions `[lo, hi)`. */
  function Range(lo: int, hi: int): (r: set<int>)
    ensures forall p :: p in r <==> lo <= p < hi
    decreases hi - lo
  {
    if hi <= lo then {} else Range(lo, hi - 1) + {hi - 1}
  }

  /** The span `[p0, p1)` of `llama_memory_seq_rm` / `llama_memory_seq_add`, where a
      negative bound leaves that side open. */
  predicate InSpan(p: int, p0: int, p1: int) {
    (p0 < 0 || p0 <= p) && (p1 < 0 || p < p1)
  }

  lemma {:induction false} RangeSize(lo: int, hi: int)
    requires lo <= hi
    ensures |Range(lo, hi)| == hi - lo
    decreases hi - lo
  {
    if lo < hi {
      RangeSize(lo, hi - 1);
      assert hi - 1 !in Range(lo, hi - 1);
    }
  }

  /** `llama_memory_seq_rm`: drop the positions of the span. */
  function Remove(mem: set<int>, p0: int, p1: int): set<int> {
    set p | p in mem && !InSpan(p, p0, p1)
  }

  /** `llama_memory_seq_add`: move the positions of the span by `delta`. */
  function Shift(mem: set<int>, p0: int, p1: int, delta: int): set<int> {
    set p | p in mem :: if InSpan(p, p0, p1) then p + delta else p
  }

  /** The positions a batch writes on sequence 0. */
  function BatchPositions(batch: seq<BatchEntry>): set<int> {
    set i | 0 <= i < |batch| && batch[i].seqId == 0 :: batch[i].pos
  }

  /** The effect of one successful call on the occupied positions of sequence 0. */
  function Apply(mem: set<int>, c: EngineCall): set<int> {
    match c
    case Tokenize(_, _) => mem
    case MemoryClear => {}
    case Decode(batch) => mem + BatchPositions(batch)
    case SeqRemove(s, p0, p1) => if s == 0 then Remove(mem, p0, p1) else mem
    case SeqAdd(s, p0, p1, delta) => if s == 0 then Shift(mem, p0, p1, delta) else mem
  }

  /** The occupied positions after replaying a trace on an empty memory;
      `ClearForgetsHistory` shows the starting state stops mattering at a `MemoryClear`. */
  function Occupied(calls: seq<EngineCall>): set<int>
    decreases |calls|
  {
    if |calls| == 0 then {} else Apply(Occupied(calls[..|calls| - 1]), calls[|calls| - 1])
  }

  /** The batches of the `Decode` calls, in order. */
  function Decodes(calls: seq<EngineCall>): seq<seq<BatchEntry>>
    decreases |calls|
  {
    if |calls| == 0 then []
    else Decodes(calls[..|calls| - 1]) + (match calls[|calls| - 1] case Decode(b) => [b] case _ => [])
  }

  /** How many `SeqRemove` calls the trace holds. */
  function Evictions(calls: seq<EngineCall>): nat
    decreases |calls|
  {
    if |calls| == 0 then 0
    else Evictions(calls[..|calls| - 1]) + (if calls[|calls| - 1].SeqRemove? then 1 else 0)
  }

  /** Every `Decode` writes inside `[0, nCtx)` and only onto positions that were free
      just before it (`WritesFreshAt` spells this out per call). */
  predicate WritesFresh(calls: seq<EngineCall>, nCtx: int)
    decreases |calls|
  {
    |calls| == 0 ||
    (WritesFresh(calls[..|calls| - 1], nCtx) && FreshWrite(Occupied(calls[..|calls| - 1]), calls[|calls| - 1], nCtx))
  }

  /** A call that, when it decodes, writes inside `[0, nCtx)` and outside `mem`. */
  predicate FreshWrite(mem: set<int>, c: EngineCall, nCtx: int) {
    c.Decode? ==> forall b :: b in c.batch ==> 0 <= b.pos < nCtx && b.pos !in mem
  }

  lemma {:induction false} WritesFreshAt(calls: seq<EngineCall>, nCtx: int, j: nat)
    requires WritesFresh(calls, nCtx) && j < |calls|
    ensures FreshWrite(Occupied(calls[..j]), calls[j], nCtx)
    decreases |calls|
  {
    if j < |calls| - 1 {
      var p := calls[..|calls| - 1];
      WritesFreshAt(p, nCtx, j);
      assert p[..j] == calls[..j];
    }
  }

  lemma Snoc(calls: seq<EngineCall>, c: EngineCall)
    ensures Occupied(calls + [c]) == Apply(Occupied(calls), c)
    ensures Decodes(calls + [c]) == Decodes(calls) + (if c.Decode? then [c.batch] else [])
    ensures Evictions(calls + [c]) == Evictions(calls) + (if c.SeqRemove? then 1 else 0)
  {
    assert (calls + [c])[..|calls|] == calls;
  }

  lemma CallsAssoc(a: seq<EngineCall>, b: seq<EngineCall>, c: seq<EngineCall>)
    ensures a + b + c == a + (b + c)
  {
  }

  lemma WritesFreshSnoc(calls: seq<EngineCall>, c: EngineCall, nCtx: int)
    requires WritesFresh(calls, nCtx)
    requires FreshWrite(Occupied(calls), c, nCtx)
    ensures WritesFresh(calls + [c], nCtx)
  {
    assert (calls + [c])[..|calls|] == calls;
  }

  /** A `MemoryClear` anywhere in a trace makes everything issued before the trace
      irrelevant to the occupied positions. */
  lemma {:induction false} ClearForgetsHistory(h: seq<EngineCall>, c: seq<EngineCall>, j: nat)
    requires j < |c| && c[j] == MemoryClear
    ensures Occupied(h + c) == Occupied(c)
    decreases |c|
  {
    var t := h + c;
    if |c| == j + 1 {
      assert t[|t| - 1] == MemoryClear;
    } else {
      var c' := c[..|c| - 1];
      ClearForgetsHistory(h, c', j);
      assert t[..|t| - 1] == h + c';
      assert t[|t| - 1] == c[|c| - 1];
    }
  }

  /** The sliding-window eviction: with the window `[0, hi)` full, removing `[0, d)` and
      moving everything from 0 on by `-d` leaves exactly `[0, hi - d)`. */
  lemma EvictWindow(hi: int, d: int)
    requires 0 <= d <= hi
    ensures Shift(Remove(Range(0, hi), 0, d), 0, -1, -d) == Range(0, hi - d)
  {
    var kept := Remove(Range(0, hi), 0, d);
    assert kept == Range(d, hi);
    var moved := Shift(kept, 0, -1, -d);
    forall q | 0 <= q < hi - d ensures q in moved {
      assert q + d in kept && InSpan(q + d, 0, -1);
    }
  }

  /** The two calls of a window eviction by `d`: drop `[0, d)` and move every later
      position down by `d`; no decode, one removal, and no write. */
  lemma RemoveThenShift(calls: seq<EngineCall>, d: int, nCtx: int)
    ensures var t := calls + [SeqRemove(0, 0, d), SeqAdd(0, 0, -1, -d)];
      Occupied(t) == Shift(Remove(Occupied(calls), 0, d), 0, -1, -d)
      && Decodes(t) == Decodes(calls) && Evictions(t) == Evictions(calls) + 1
      && (WritesFresh(calls, nCtx) ==> WritesFresh(t, nCtx))
  {
    var rm, add := SeqRemove(0, 0, d), SeqAdd(0, 0, -1, -d);
    var t1 := calls + [rm];
    assert calls + [rm, add] == t1 + [add];
    Snoc(calls, rm);
    Snoc(t1, add);
    if WritesFresh(calls, nCtx) {
      WritesFreshSnoc(calls, rm, nCtx);
      WritesFreshSnoc(t1, add, nCtx);
    }
  }

  /** Writing position `p` onto the full prefix `[0, p)` extends it by one. */
  lemma ExtendWindow(p: int)
    requires 0 <= p
    ensures Range(0, p) + {p} == Range(0, p + 1)
  {
  }

  lemma {:induction false} EvictionsAppend(a: seq<EngineCall>, b: seq<EngineCall>)
    ensures Evictions(a + b) == Evictions(a) + Evictions(b)
    decreases |b|
  {
    if |b| == 0 {
      assert a + b == a;
    } else {
      var b' := b[..|b| - 1];
      EvictionsAppend(a, b');
      assert (a + b)[..|a + b| - 1] == a + b';
    }
  }
}
