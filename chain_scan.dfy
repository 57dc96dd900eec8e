/**
 * The byte scan the body filter runs over an nginx buffer chain.
 *
 * A chain (ngx_chain_t) is modelled as the sequence of its buffers in link
 * order, each buffer as the bytes between its `pos` and `last` pointers.
 * The scan visits buffers in chain order and, inside a buffer, bytes from
 * `pos` up to but excluding `last`, and stops at the first byte 'X'.
 *
 * FindFrom is the position the scan stops at; ScanFrom is the list of
 * positions it looks at, in the order it looks at them.
 */
module ChainScan {

  datatype Option<T> = None | Some(value: T)

  newtype Byte = b: int | 0 <= b < 256

  /** The bytes of one ngx_buf_t, from pos (inclusive) to last (exclusive). */
  type Buffer = seq<Byte>

  /** An ngx_chain_t, its buffers in `next` order. */
  type Chain = seq<Buffer>

  /** The byte the filter looks for: ASCII 'X'. */
  const TriggerByte: Byte := 0x58

  /** A byte's place in a chain: the index of its buffer, then its offset from pos. */
  datatype Pos = Pos(buf: nat, off: nat)

  predicate ValidPos(chain: Chain, p: Pos) {
    p.buf < |chain| && p.off < |chain[p.buf]|
  }

  /** Strict chain order: earlier buffer first, then lower offset. */
  predicate Before(p: Pos, q: Pos) {
    p.buf < q.buf || (p.buf == q.buf && p.off < q.off)
  }

  /** Whether the chain holds the trigger byte anywhere (the reference the scan is judged by). */
  ghost predicate HasTrigger(chain: Chain) {
    exists b, o :: 0 <= b < |chain| && 0 <= o < |chain[b]| && chain[b][o] == TriggerByte
  }

  /**
   * The position of the first trigger byte at or after (i, j) in chain
   * order, or None when there is none from there on.
   */
  function FindFrom(chain: Chain, i: nat, j: nat): Option<Pos>
    decreases |chain| - i, if i < |chain| then |chain[i]| - j else 0
  {
    if i >= |chain| then None
    else if j >= |chain[i]| then FindFrom(chain, i + 1, 0)
    else if chain[i][j] == TriggerByte then Some(Pos(i, j))
    else FindFrom(chain, i, j + 1)
  }

  /**
   * FindFrom is the first trigger byte from (i, j) on: the position it
   * gives holds 'X' and is not before (i, j), and no byte from (i, j) up to
   * that position (or, when it gives None, to the end of the chain) is 'X'.
   */
  lemma {:induction false} FindFromIsFirst(chain: Chain, i: nat, j: nat)
    decreases |chain| - i, if i < |chain| then |chain[i]| - j else 0
    ensures var r := FindFrom(chain, i, j);
            r.Some? ==> ValidPos(chain, r.value) && chain[r.value.buf][r.value.off] == TriggerByte
                        && !Before(r.value, Pos(i, j))
    ensures var r := FindFrom(chain, i, j);
            forall b, o ::
              0 <= b < |chain| && 0 <= o < |chain[b]| && !Before(Pos(b, o), Pos(i, j)) &&
              (r.None? || Before(Pos(b, o), r.value))
              ==> chain[b][o] != TriggerByte
  {
    if i >= |chain| {
    } else if j >= |chain[i]| {
      FindFromIsFirst(chain, i + 1, 0);
    } else if chain[i][j] == TriggerByte {
    } else {
      FindFromIsFirst(chain, i, j + 1);
    }
  }

  /** The first trigger byte of the whole chain. */
  function FirstTrigger(chain: Chain): Option<Pos> {
    FindFrom(chain, 0, 0)
  }

  /**
   * The positions the scan compares, in order, when it starts at (i, j):
   * every byte up to and including the first trigger byte.
   */
  function ScanFrom(chain: Chain, i: nat, j: nat): seq<Pos>
    decreases |chain| - i, if i < |chain| then |chain[i]| - j else 0
  {
    if i >= |chain| then []
    else if j >= |chain[i]| then ScanFrom(chain, i + 1, 0)
    else if chain[i][j] == TriggerByte then [Pos(i, j)]
    else [Pos(i, j)] + ScanFrom(chain, i, j + 1)
  }

  /** The positions the body filter compares when handed `chain`. */
  function Scanned(chain: Chain): seq<Pos> {
    ScanFrom(chain, 0, 0)
  }

  /** FirstTrigger finds a byte exactly when the chain holds one. */
  lemma FirstTriggerIffPresent(chain: Chain)
    ensures FirstTrigger(chain).Some? <==> HasTrigger(chain)
  {
    FindFromIsFirst(chain, 0, 0);
    if FirstTrigger(chain).Some? {
      var p := FirstTrigger(chain).value;
      assert chain[p.buf][p.off] == TriggerByte;
    }
  }

  /**
   * The scan looks at exactly the valid positions from (i, j) on that do
   * not lie beyond the first trigger byte.
   */
  lemma {:induction false} ScanFromExactly(chain: Chain, i: nat, j: nat)
    decreases |chain| - i, if i < |chain| then |chain[i]| - j else 0
    ensures forall q :: q in ScanFrom(chain, i, j) <==>
              ValidPos(chain, q) && !Before(q, Pos(i, j))
              && (FindFrom(chain, i, j).None? || !Before(FindFrom(chain, i, j).value, q))
  {
    if i >= |chain| {
    } else if j >= |chain[i]| {
      ScanFromExactly(chain, i + 1, 0);
    } else if chain[i][j] == TriggerByte {
    } else {
      ScanFromExactly(chain, i, j + 1);
      FindFromIsFirst(chain, i, j + 1);
    }
  }

  /** One step of the scan inside a buffer: compare the byte at (i, j), stop on 'X', else go on. */
  lemma ScanStepInBuffer(chain: Chain, i: nat, j: nat)
    requires i < |chain| && j < |chain[i]|
    ensures chain[i][j] == TriggerByte ==>
              ScanFrom(chain, i, j) == [Pos(i, j)] && FindFrom(chain, i, j) == Some(Pos(i, j))
    ensures chain[i][j] != TriggerByte ==>
              ScanFrom(chain, i, j) == [Pos(i, j)] + ScanFrom(chain, i, j + 1)
              && FindFrom(chain, i, j) == FindFrom(chain, i, j + 1)
  {
  }

  /** Moving the next position to compare from the to-do part to the done part keeps the whole. */
  lemma Consume(done: seq<Pos>, todo: seq<Pos>)
    requires |todo| > 0
    ensures (done + [todo[0]]) + todo[1..] == done + todo
  {
    assert [todo[0]] + todo[1..] == todo;
  }

  /** At the end of a buffer the scan moves on to the next buffer. */
  lemma ScanStepNextBuffer(chain: Chain, i: nat, j: nat)
    requires i < |chain| && j >= |chain[i]|
    ensures ScanFrom(chain, i, j) == ScanFrom(chain, i + 1, 0)
    ensures FindFrom(chain, i, j) == FindFrom(chain, i + 1, 0)
  {
  }

  /** The scan looks at positions in strict chain order, so none twice. */
  lemma {:induction false} ScanFromInOrder(chain: Chain, i: nat, j: nat)
    decreases |chain| - i, if i < |chain| then |chain[i]| - j else 0
    ensures forall k :: 0 <= k < |ScanFrom(chain, i, j)| ==> !Before(ScanFrom(chain, i, j)[k], Pos(i, j))
    ensures forall k, l :: 0 <= k < l < |ScanFrom(chain, i, j)| ==>
              Before(ScanFrom(chain, i, j)[k], ScanFrom(chain, i, j)[l])
  {
    if i >= |chain| {
    } else if j >= |chain[i]| {
      ScanFromInOrder(chain, i + 1, 0);
    } else if chain[i][j] == TriggerByte {
    } else {
      ScanFromInOrder(chain, i, j + 1);
    }
  }

  /**
   * The scan of a whole chain: on a hit it ends at the hit and every byte
   * before it is not a trigger; without a hit it has looked at every byte.
   */
  lemma ScannedStopsAtFirstTrigger(chain: Chain)
    ensures FirstTrigger(chain).Some? ==>
              |Scanned(chain)| > 0 && Scanned(chain)[|Scanned(chain)| - 1] == FirstTrigger(chain).value
    ensures forall k :: 0 <= k < |Scanned(chain)| ==> ValidPos(chain, Scanned(chain)[k])
    ensures forall k :: 0 <= k < |Scanned(chain)| - 1 ==>
              ValidPos(chain, Scanned(chain)[k]) &&
              chain[Scanned(chain)[k].buf][Scanned(chain)[k].off] != TriggerByte
    ensures FirstTrigger(chain).None? ==> forall q :: ValidPos(chain, q) ==> q in Scanned(chain)
  {
    FindFromIsFirst(chain, 0, 0);
    ScanFromExactly(chain, 0, 0);
    ScanFromInOrder(chain, 0, 0);
    var s := Scanned(chain);
    forall k | 0 <= k < |s| ensures ValidPos(chain, s[k]) {
      assert s[k] in s;
    }
    if FirstTrigger(chain).Some? {
      var p := FirstTrigger(chain).value;
      assert p in s;
      assert s[|s| - 1] in s;
    }
    forall k | 0 <= k < |s| - 1
      ensures chain[s[k].buf][s[k].off] != TriggerByte
    {
      assert s[k] in s;
      if FirstTrigger(chain).Some? {
        assert s[|s| - 1] in s;
        assert Before(s[k], s[|s| - 1]);
      }
    }
  }
}
