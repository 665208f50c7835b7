/**
 * The orchestrator's rolling context memory (internal/orchestrator/context.go): a bounded,
 * insertion-ordered history of (command, action) pairs that evicts its oldest entry when full.
 */
module OrchestratorContext {

  /** One resolved voice interaction: the transcribed command and what was done about it. */
  datatype ContextEntry = ContextEntry(command: string, action: string)

  /** The last `cap` elements of `s`, oldest first: what a FIFO of capacity `cap` holds after receiving `s`. */
  function Window<T>(s: seq<T>, cap: nat): (w: seq<T>)
    ensures |w| == if |s| <= cap then |s| else cap
    ensures w == s[|s| - |w|..]
  {
    if |s| <= cap then s else s[|s| - cap..]
  }

  /** One `Add` on the entry slice: drop the first entry when the slice is at capacity, then append. */
  function Push(entries: seq<ContextEntry>, maxSize: nat, e: ContextEntry): (r: seq<ContextEntry>)
    requires maxSize >= 1
    ensures |r| >= 1 && r[|r| - 1] == e
    ensures |entries| <= maxSize ==> |r| <= maxSize
    ensures |entries| < maxSize ==> r[..|r| - 1] == entries
    ensures |entries| >= maxSize ==> r[..|r| - 1] == entries[1..]
  {
    if |entries| >= maxSize then entries[1..] + [e] else entries + [e]
  }

  /** Pushing onto the window of `s` gives the window of `s + [e]`. */
  lemma WindowPush(s: seq<ContextEntry>, maxSize: nat, e: ContextEntry)
    requires maxSize >= 1
    ensures Push(Window(s, maxSize), maxSize, e) == Window(s + [e], maxSize)
  {
    var w := Window(s, maxSize);
    if |s| >= maxSize {
      assert w[1..] + [e] == (s + [e])[|s| + 1 - maxSize..];
    }
  }

  /** The entries after pushing `es` one by one, in order, onto `entries`. */
  function PushAll(entries: seq<ContextEntry>, maxSize: nat, es: seq<ContextEntry>): seq<ContextEntry>
    requires maxSize >= 1
    decreases |es|
  {
    if es == [] then entries
    else PushAll(Push(entries, maxSize, es[0]), maxSize, es[1..])
  }

  /**
   * From any state that is the window of what was added so far, adding `es` leaves the window of
   * everything added: after M adds to a fresh memory of capacity C the history is the last min(M, C).
   */
  lemma {:induction false} PushAllWindow(s: seq<ContextEntry>, maxSize: nat, es: seq<ContextEntry>)
    requires maxSize >= 1
    ensures PushAll(Window(s, maxSize), maxSize, es) == Window(s + es, maxSize)
    decreases |es|
  {
    if es != [] {
      var s' := s + [es[0]];
      assert s' + es[1..] == s + es by {
        assert es == [es[0]] + es[1..];
      }
      WindowPush(s, maxSize, es[0]);
      PushAllWindow(s', maxSize, es[1..]);
    } else {
      assert s + es == s;
    }
  }

  /** Specialisation to a fresh memory. */
  lemma FreshPushAll(maxSize: nat, es: seq<ContextEntry>)
    requires maxSize >= 1
    ensures |es| <= maxSize ==> PushAll([], maxSize, es) == es
    ensures |es| > maxSize ==> PushAll([], maxSize, es) == es[|es| - maxSize..]
  {
    var none: seq<ContextEntry> := [];
    PushAllWindow(none, maxSize, es);
    assert none + es == es;
    assert PushAll(none, maxSize, es) == Window(es, maxSize);
    if |es| <= maxSize {
      assert Window(es, maxSize) == es;
    } else {
      assert Window(es, maxSize) == es[|es| - maxSize..];
    }
  }

  /** `ContextMemory`: the Go mutex is left out, every operation is sequential. */
  class ContextMemory {
    var entries: seq<ContextEntry>
    const maxSize: nat
    /** Every entry ever added, oldest first. */
    ghost var added: seq<ContextEntry>

    ghost predicate Valid()
      reads this
    {
      entries == Window(added, maxSize)
    }

    /** `NewContextMemory`. */
    constructor (maxSize: nat)
      ensures Valid() && this.maxSize == maxSize
      ensures entries == [] && added == []
    {
      this.maxSize := maxSize;
      entries := [];
      added := [];
    }

    /** `Add`. With `maxSize` 0 the Go code slices an empty slice at 1 and panics, hence the precondition. */
    method Add(command: string, action: string)
      requires Valid() && maxSize >= 1
      modifies this
      ensures Valid()
      ensures added == old(added) + [ContextEntry(command, action)]
      ensures entries == Push(old(entries), maxSize, ContextEntry(command, action))
    {
      var e := ContextEntry(command, action);
      WindowPush(added, maxSize, e);
      if |entries| >= maxSize {
        entries := entries[1..] + [e];
      } else {
        entries := entries + [e];
      }
      added := added + [e];
    }

    /** `GetHistory`: a sequence is a value, so the result shares nothing with later `Add`s. */
    method GetHistory() returns (history: seq<ContextEntry>)
      requires Valid()
      ensures history == entries
      ensures |history| <= maxSize
      ensures |added| <= maxSize ==> history == added
      ensures |added| > maxSize ==> history == added[|added| - maxSize..]
    {
      history := entries;
    }
  }
}
