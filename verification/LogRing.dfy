/** The log ring as a circular buffer updated in place. */
module LogRing {
  import opened Basics
  import opened RaftLog

  lemma WrapsOnce(x: nat, cap: nat)
    requires cap <= x < 2 * cap
    ensures x % cap == x - cap
  {
    assert x == 1 * cap + (x - cap);
  }

  /** The k-th slot from head, going round. */
  function SlotAt(head: nat, k: nat, cap: nat): (slot: nat)
    requires head < cap && k <= cap
    ensures slot == if head + k < cap then head + k else head + k - cap
    ensures slot < cap
  {
    assert head + k >= cap ==> (head + k) % cap == head + k - cap by {
      if head + k >= cap {
        WrapsOnce(head + k, cap);
      }
    }
    (head + k) % cap
  }

  class LogRing {
    const cap: nat
    const buf: array<Entry>
    var base: nat
    var baseTerm: nat
    var count: nat
    var head: nat

    ghost var model: Ring

    ghost predicate Valid()
      reads this, buf
    {
      && buf.Length == cap && head < cap && count <= cap
      && model.base == base && model.baseTerm == baseTerm && |model.live| == count
      && forall k :: 0 <= k < count ==> model.live[k] == buf[SlotAt(head, k, cap)]
    }

    constructor (capacity: nat)
      requires capacity > 0
      ensures Valid() && fresh(buf) && cap == capacity && model == EmptyRing
    {
      cap := capacity;
      buf := new Entry[capacity](_ => Entry(0, 0, Noop, []));
      base, baseTerm, count, head, model := 0, 0, 0, 0, EmptyRing;
    }

    function LastIndex(): (last: nat)
      requires Valid()
      reads this, buf
      ensures last == model.LastIndex()
    {
      base + count
    }

    method At(index: nat) returns (entry: Option<Entry>)
      requires Valid()
      ensures entry == model.At(index)
    {
      if index <= base || index > LastIndex() {
        return None;
      }
      entry := Some(buf[SlotAt(head, index - base - 1, cap)]);
    }

    method TermAt(index: nat) returns (term: Option<nat>)
      requires Valid()
      ensures term == model.TermAt(index)
    {
      if index == 0 {
        return Some(0);
      }
      if index == base {
        return Some(baseTerm);
      }
      var entry := At(index);
      term := if entry.Some? then Some(entry.value.term) else None;
    }

    method LastTerm() returns (term: nat)
      requires Valid()
      ensures term == model.LastTerm()
    {
      if LastIndex() == base {
        return baseTerm;
      }
      var entry := At(LastIndex());
      term := entry.value.term;  // the entry is there: the ring is not empty
    }

    /** Append, or report a full log and change nothing; no live entry is overwritten. */
    method Push(entry: Entry) returns (ok: bool)
      requires Valid()
      modifies this, buf
      ensures Valid() && ok == (|old(model.live)| < cap)
      ensures model == old(model).Push(entry, cap)
    {
      if count >= cap {
        return false;
      }
      buf[SlotAt(head, count, cap)] := entry;
      count := count + 1;
      model := model.Push(entry, cap);
      return true;
    }

    method TruncateSuffix(from: nat)
      requires Valid()
      modifies this
      ensures Valid() && model == old(model).TruncateSuffix(from)
    {
      var last := LastIndex();
      model := model.TruncateSuffix(from);
      if from <= base + 1 {
        count := 0;
        return;
      }
      if from > last {
        return;
      }
      count := from - base - 1;
    }

    /** Advance the edge to a live index and keep the suffix where it is. */
    method CompactTo(index: nat, term: nat)
      requires Valid() && base <= index <= LastIndex()
      modifies this
      ensures Valid() && model == old(model).CompactTo(index, term)
    {
      var remaining := LastIndex() - index;
      model := model.CompactTo(index, term);
      head := SlotAt(head, index - base, cap);
      count, base, baseTerm := remaining, index, term;
    }

    method ResetTo(index: nat, term: nat)
      requires Valid()
      modifies this
      ensures Valid() && model == ResetToSnapshot(index, term)
    {
      head, count, base, baseTerm := 0, 0, index, term;
      model := ResetToSnapshot(index, term);
    }
  }
}
