/**
 The command channel from the server to a bridge process (src/api/services/bridgeBus.js): a capped
 Redis list, pushed at the head and popped at the tail; and the bridge's own fence in front of its
 handler (src/scraper/whatsapp-qr-bridge.js).
 */
module CommandChannel {
  import opened Values

  /** A command: its name and the time stamp that `sendCommand` put on it, if it carries one. */
  datatype Cmd = Cmd(name: string, ts: Option<int>)

  /** What lies in the list. `signed` says whether the signature matches and the body parses. */
  datatype Envelope = Envelope(cmd: Cmd, signed: bool)

  const CAP: nat := 100

  // ---------------------------------------------------------------- the list

  /** What became of a pushed envelope that has left the list. */
  datatype Fate = Delivered | Dropped | Trimmed | Cleared

  /** The Redis list and the bridge's receiver. The ghost fields are the whole history. */
  class Channel {
    var list: seq<Envelope>
    ghost var sent: seq<Envelope>
    ghost var fates: seq<Fate>
    ghost var handled: seq<Cmd>
    /** Senders that have pushed and not yet trimmed. */
    ghost var between: nat

    /**
     The list is the newest end of everything sent, newest first; the handler saw exactly the delivered ones, in order,
     and those are signed.
     */
    ghost predicate Valid()
      reads this
    {
      && |sent| == |fates| + |list|
      && list == Reversed(sent[|fates|..])
      && handled == Handed(sent[..|fates|], fates)
      && (forall i :: 0 <= i < |fates| ==>
            (fates[i].Delivered? ==> sent[i].signed) && (fates[i].Dropped? ==> !sent[i].signed))
      && |list| <= CAP + between
    }

    constructor ()
      ensures Valid() && sent == [] && fates == [] && between == 0
    {
      list, sent, fates, handled, between := [], [], [], [], 0;
    }

    /** LPUSH, the first half of `sendCommand`. */
    method Push(envelope: Envelope)
      requires Valid()
      modifies this
      ensures Valid() && sent == old(sent) + [envelope] && fates == old(fates) && handled == old(handled)
      ensures between == old(between) + 1
    {
      ReversedAppend(sent[|fates|..], envelope);
      assert (sent + [envelope])[|fates|..] == sent[|fates|..] + [envelope];
      assert (sent + [envelope])[..|fates|] == sent[..|fates|];
      list := [envelope] + list;
      sent := sent + [envelope];
      between := between + 1;
    }

    /** LTRIM 0 99, the second half of `sendCommand`: another sender may have pushed in between. */
    method Trim()
      requires Valid() && between > 0
      modifies this
      ensures Valid() && sent == old(sent) && handled == old(handled) && between == old(between) - 1
      ensures |list| == if |old(list)| <= 100 then |old(list)| else 100
      ensures fates == old(fates) + seq(|old(list)| - |list|, _ => Trimmed)
    {
      ghost var count := if |list| <= CAP then 0 else |list| - CAP;
      Lost(sent, fates, count, Trimmed);
      if |list| > CAP {
        list := list[..CAP];
      }
      fates := fates + seq(count, _ => Trimmed);
      between := between - 1;
    }

    /** `sendCommand` when nobody comes in between. */
    method SendCommand(cmd: Cmd)
      requires Valid() && between == 0
      modifies this
      ensures Valid() && between == 0 && sent == old(sent) + [Envelope(cmd, true)] && handled == old(handled)
      ensures |list| <= 100 && list != [] && list[0] == Envelope(cmd, true)
    {
      Push(Envelope(cmd, true));
      Trim();
      ReversedAt(sent[|fates|..], |list| - 1);
    }

    /** BRPOP and the check of the signature; `None` when the list stayed empty or the envelope was refused. */
    method Receive() returns (cmd: Option<Cmd>)
      requires Valid()
      modifies this
      ensures Valid() && sent == old(sent) && between == old(between)
      ensures old(list) == [] ==> cmd == None && fates == old(fates)
      ensures old(list) != [] ==>
        var envelope := old(sent)[|old(fates)|];
        && cmd == (if envelope.signed then Some(envelope.cmd) else None)
        && fates == old(fates) + [if envelope.signed then Delivered else Dropped]
      ensures handled == (if cmd.Some? then old(handled) + [cmd.value] else old(handled))
    {
      if list == [] {
        return None;
      }
      var envelope := list[|list| - 1];
      ghost var n := |fates|;
      ReversedAt(sent[n..], 0);
      ReversedRest(sent[n..]);
      assert sent[n..][1..] == sent[n + 1..];
      assert sent[..n + 1][..n] == sent[..n];
      list := list[..|list| - 1];
      fates := fates + [if envelope.signed then Delivered else Dropped];
      assert fates[..n] == old(fates);
      if !envelope.signed {
        return None;
      }
      handled := handled + [envelope.cmd];
      return Some(envelope.cmd);
    }

    /** DEL, before a new bridge is spawned. */
    method Clear()
      requires Valid()
      modifies this
      ensures Valid() && sent == old(sent) && handled == old(handled) && between == old(between)
      ensures list == [] && fates == old(fates) + seq(|old(list)|, _ => Cleared)
    {
      Lost(sent, fates, |list|, Cleared);
      ghost var count := |list|;
      list := [];
      fates := fates + seq(count, _ => Cleared);
    }
  }

  function Reversed(s: seq<Envelope>): seq<Envelope> {
    if s == [] then [] else Reversed(s[1..]) + [s[0]]
  }

  lemma {:induction false} ReversedAppend(s: seq<Envelope>, last: Envelope)
    ensures Reversed(s + [last]) == [last] + Reversed(s)
  {
    if s != [] {
      ReversedAppend(s[1..], last);
      assert (s + [last])[1..] == s[1..] + [last];
    }
  }

  lemma {:induction false} ReversedAt(s: seq<Envelope>, k: nat)
    requires k < |s|
    ensures |Reversed(s)| == |s| && Reversed(s)[|s| - 1 - k] == s[k]
  {
    if k > 0 {
      ReversedAt(s[1..], k - 1);
    } else if |s| > 1 {
      ReversedAt(s[1..], 0);
    }
  }

  lemma ReversedRest(s: seq<Envelope>)
    requires s != []
    ensures |Reversed(s)| == |s| && Reversed(s)[..|s| - 1] == Reversed(s[1..])
  {
    ReversedAt(s, 0);
  }

  /** Cutting the tail of the list is losing the oldest. */
  lemma {:induction false} ReversedCut(s: seq<Envelope>, count: nat)
    requires count <= |s|
    ensures |Reversed(s)| == |s| && Reversed(s)[..|s| - count] == Reversed(s[count..])
  {
    if count == 0 {
      if s != [] { ReversedAt(s, 0); }
      assert s[0..] == s;
      assert Reversed(s)[..|s|] == Reversed(s);
    } else {
      ReversedRest(s);
      ReversedCut(s[1..], count - 1);
      assert s[1..][count - 1..] == s[count..];
      assert Reversed(s)[..|s| - 1][..|s| - count] == Reversed(s)[..|s| - count];
    }
  }

  /** The commands among the settled envelopes that reached the handler, in the order sent. */
  function Handed(settled: seq<Envelope>, fates: seq<Fate>): seq<Cmd>
    requires |settled| == |fates|
  {
    if settled == [] then []
    else
      var last := |settled| - 1;
      Handed(settled[..last], fates[..last]) + (if fates[last].Delivered? then [settled[last].cmd] else [])
  }

  /** Envelopes that are trimmed or cleared away change nothing for the handler. */
  lemma {:induction false} Lost(sent: seq<Envelope>, fates: seq<Fate>, count: nat, fate: Fate)
    requires |fates| + count <= |sent| && !fate.Delivered?
    ensures var after := fates + seq(count, _ => fate);
      Handed(sent[..|fates| + count], after) == Handed(sent[..|fates|], fates)
    ensures |Reversed(sent[|fates|..])| == |sent| - |fates|
    ensures Reversed(sent[|fates|..])[..|sent| - |fates| - count] == Reversed(sent[|fates| + count..])
  {
    ReversedCut(sent[|fates|..], count);
    assert sent[|fates|..][count..] == sent[|fates| + count..];
    var after := fates + seq(count, _ => fate);
    if count == 0 {
      assert after == fates;
    } else {
      Lost(sent, fates, count - 1, fate);
      assert sent[..|fates| + count][..|fates| + count - 1] == sent[..|fates| + count - 1];
      assert after[..|fates| + count - 1] == fates + seq(count - 1, _ => fate);
    }
  }

  /** Where in the order of sending the delivered ones were. */
  function DeliveredAt(fates: seq<Fate>): seq<nat> {
    if fates == [] then []
    else
      var last := |fates| - 1;
      DeliveredAt(fates[..last]) + (if fates[last].Delivered? then [last] else [])
  }

  /** Positions of delivered envelopes, in order, each once. */
  predicate Ascend(at: seq<nat>, fates: seq<Fate>) {
    && (forall k :: 0 <= k < |at| ==> at[k] < |fates| && fates[at[k]].Delivered?)
    && (forall j, k :: 0 <= j < k < |at| ==> at[j] < at[k])
  }

  lemma {:induction false} DeliveredAscend(fates: seq<Fate>)
    ensures Ascend(DeliveredAt(fates), fates)
  {
    if fates != [] {
      DeliveredAscend(fates[..|fates| - 1]);
      AscendOn(DeliveredAt(fates[..|fates| - 1]), fates[..|fates| - 1], fates);
    }
  }

  lemma AscendOn(at: seq<nat>, front: seq<Fate>, fates: seq<Fate>)
    requires Ascend(at, front) && fates != [] && front == fates[..|fates| - 1]
    ensures Ascend(at, fates) && (fates[|fates| - 1].Delivered? ==> Ascend(at + [|fates| - 1], fates))
  {
  }

  /** Every delivered envelope has its position there. */
  lemma {:induction false} DeliveredHasPlace(fates: seq<Fate>, i: nat)
    requires i < |fates| && fates[i].Delivered?
    ensures i in DeliveredAt(fates)
  {
    var last := |fates| - 1;
    if i < last {
      DeliveredHasPlace(fates[..last], i);
    } else {
      assert DeliveredAt(fates)[|DeliveredAt(fates)| - 1] == last;
    }
  }

  /** The handler saw the commands at these positions, in this order. */
  lemma {:induction false} HandedAt(settled: seq<Envelope>, fates: seq<Fate>, k: nat)
    requires |settled| == |fates| && k < |DeliveredAt(fates)|
    ensures |Handed(settled, fates)| == |DeliveredAt(fates)| && DeliveredAt(fates)[k] < |settled|
    ensures Handed(settled, fates)[k] == settled[DeliveredAt(fates)[k]].cmd
  {
    var last := |fates| - 1;
    SameLength(settled[..last], fates[..last]);
    if k < |DeliveredAt(fates[..last])| { HandedAt(settled[..last], fates[..last], k); }
  }

  lemma {:induction false} SameLength(settled: seq<Envelope>, fates: seq<Fate>)
    requires |settled| == |fates|
    ensures |Handed(settled, fates)| == |DeliveredAt(fates)|
  {
    if fates != [] { SameLength(settled[..|fates| - 1], fates[..|fates| - 1]); }
  }

  /**
   Whatever calls a channel has seen, its handler has seen an in-order, at-most-once subsequence of what was sent:
   exactly the delivered envelopes, all of them signed.
   */
  lemma HandedInOrderAtMostOnce(c: Channel)
    requires c.Valid()
    ensures var at := DeliveredAt(c.fates);
      && |c.handled| == |at| && |c.fates| <= |c.sent| && Ascend(at, c.fates)
      && (forall k :: 0 <= k < |at| ==> c.handled[k] == c.sent[at[k]].cmd && c.sent[at[k]].signed)
      && (forall i :: 0 <= i < |c.fates| && c.fates[i].Delivered? ==> i in at)
  {
    var settled, at := c.sent[..|c.fates|], DeliveredAt(c.fates);
    SameLength(settled, c.fates);
    DeliveredAscend(c.fates);
    forall k | 0 <= k < |at| ensures c.handled[k] == c.sent[at[k]].cmd {
      HandedAt(settled, c.fates, k);
    }
    forall i | 0 <= i < |c.fates| && c.fates[i].Delivered? ensures i in at {
      DeliveredHasPlace(c.fates, i);
    }
  }

  function Count(fates: seq<Fate>, fate: Fate): nat {
    if fates == [] then 0 else Count(fates[..|fates| - 1], fate) + (if fates[|fates| - 1] == fate then 1 else 0)
  }

  lemma {:induction false} FatesAddUp(settled: seq<Envelope>, fates: seq<Fate>)
    requires |settled| == |fates|
    ensures |fates| == |Handed(settled, fates)| + Count(fates, Dropped) + Count(fates, Trimmed) + Count(fates, Cleared)
  {
    if fates != [] { FatesAddUp(settled[..|fates| - 1], fates[..|fates| - 1]); }
  }

  /** Conservation: sent = delivered + refused + trimmed + cleared + still queued. */
  lemma EverySentCommandIsAccountedFor(c: Channel)
    requires c.Valid()
    ensures |c.sent| == |c.handled| + Count(c.fates, Dropped) + Count(c.fates, Trimmed)
      + Count(c.fates, Cleared) + |c.list|
  {
    ReversedCut(c.sent[|c.fates|..], 0);
    FatesAddUp(c.sent[..|c.fates|], c.fates);
  }
}
