/** Messages that wait for a channel are kept in a bounded list, taken over under a lock, and sent outside it,
    while others may already send on the channel: what is kept, and when it comes first. */
module Buffering {

  function LastOf(items: seq<string>, n: nat): seq<string> {
    if |items| > n then items[|items| - n..] else items
  }

  /** As many of the items as there are, but at most n, and those that came last, in order. */
  ghost predicate IsTail(last: seq<string>, items: seq<string>, n: nat) {
    && |last| == (if |items| < n then |items| else n)
    && forall k | 0 <= k < |last| :: last[k] == items[|items| - |last| + k]
  }

  lemma LastOfIsTail(items: seq<string>, n: nat)
    ensures IsTail(LastOf(items, n), items, n)
  {
  }

  /** What was added last comes last. */
  lemma TailEndsWithNewest(last: seq<string>, items: seq<string>, e: string, n: nat)
    requires n > 0 && IsTail(last, items + [e], n)
    ensures last != [] && last[|last| - 1] == e
  {
    var k := |last| - 1;
    assert last[k] == (items + [e])[|items|];
  }

  lemma LastOfSnoc(items: seq<string>, e: string, n: nat)
    requires n > 0
    ensures LastOf(LastOf(items, n) + [e], n) == LastOf(items + [e], n)
  {
  }

  // What is sent.

  /** An envelope sent on a channel: relayed for somebody else, or sent by the goroutine that has taken over
      what was buffered. */
  datatype Sending = Sending(relayed: bool, envelope: string)

  predicate HasRelayed(puts: seq<Sending>) {
    exists i :: 0 <= i < |puts| && puts[i].relayed
  }

  lemma HasRelayedConcat(a: seq<Sending>, b: seq<Sending>)
    ensures HasRelayed(a + b) <==> HasRelayed(a) || HasRelayed(b)
  {
    if i :| 0 <= i < |a| && a[i].relayed {
      assert (a + b)[i].relayed;
    }
    if i :| 0 <= i < |b| && b[i].relayed {
      assert (a + b)[|a| + i].relayed;
    }
  }

  /** What that goroutine has sent, among the first n. */
  function SentOf(puts: seq<Sending>, n: nat): seq<string>
    requires n <= |puts|
  {
    if n == 0 then []
    else SentOf(puts, n - 1) + if puts[n - 1].relayed then [] else [puts[n - 1].envelope]
  }

  function Sent(puts: seq<Sending>): seq<string> {
    SentOf(puts, |puts|)
  }

  lemma {:induction false} SentOfPrefix(puts: seq<Sending>, all: seq<Sending>, n: nat)
    requires n <= |puts| && puts <= all
    ensures SentOf(all, n) == SentOf(puts, n)
  {
    if n > 0 {
      SentOfPrefix(puts, all, n - 1);
    }
  }

  lemma {:induction false} SentOfConcat(a: seq<Sending>, b: seq<Sending>, n: nat)
    requires n <= |b|
    ensures SentOf(a + b, |a| + n) == Sent(a) + SentOf(b, n)
  {
    if n == 0 {
      SentOfPrefix(a, a + b, |a|);
    } else {
      SentOfConcat(a, b, n - 1);
    }
  }

  lemma SentConcat(a: seq<Sending>, b: seq<Sending>)
    ensures Sent(a + b) == Sent(a) + Sent(b)
  {
    SentOfConcat(a, b, |b|);
  }

  function FromServer(script: seq<string>): seq<Sending> {
    seq(|script|, i requires 0 <= i < |script| => Sending(false, script[i]))
  }

  lemma {:induction false} SentOfServer(script: seq<string>, n: nat)
    requires n <= |script|
    ensures SentOf(FromServer(script), n) == script[..n]
  {
    if n > 0 {
      SentOfServer(script, n - 1);
    }
  }

  lemma {:induction false} SentAtMost(puts: seq<Sending>, n: nat)
    requires n <= |puts|
    ensures |SentOf(puts, n)| <= n
    ensures |SentOf(puts, n)| == n <==> forall i | 0 <= i < n :: !puts[i].relayed
    ensures |SentOf(puts, n)| == n ==> forall i | 0 <= i < n :: puts[i] == Sending(false, SentOf(puts, n)[i])
  {
    if n > 0 {
      SentAtMost(puts, n - 1);
    }
  }

  lemma SentTooEarly(first: seq<Sending>, rest: seq<Sending>, script: seq<string>)
    requires Sent(first + rest) == script && rest != [] && !rest[|rest| - 1].relayed
    ensures first != FromServer(script)
  {
    SentConcat(first, rest);
    SentOfServer(script, |script|);
  }

  lemma SplitTooEarly(puts: seq<Sending>, n: nat, script: seq<string>)
    requires n < |puts| && !puts[|puts| - 1].relayed && Sent(puts) == script
    ensures puts[..n] != FromServer(script)
  {
    assert puts == puts[..n] + puts[n..];
    SentTooEarly(puts[..n], puts[n..], script);
  }

  lemma SentAlone(puts: seq<Sending>, script: seq<string>)
    requires Sent(puts) == script
    ensures |script| <= |puts|
    ensures |script| == |puts| ==> puts == FromServer(script)
    ensures |script| == |puts| <==> !HasRelayed(puts)
  {
    SentAtMost(puts, |puts|);
  }

  /** Puts of which the last was sent begin with what was sent exactly if nothing was relayed. */
  lemma SentFirst(puts: seq<Sending>, script: seq<string>)
    requires puts != [] && !puts[|puts| - 1].relayed && Sent(puts) == script
    ensures |script| <= |puts|
    ensures puts[..|script|] == FromServer(script) <==> !HasRelayed(puts)
  {
    SentAlone(puts, script);
    if |script| < |puts| {
      SplitTooEarly(puts, |script|, script);
    } else {
      assert puts[..|puts|] == puts;
    }
  }

  // What one operation after the other puts there.

  function Joined(list: seq<seq<Sending>>, n: nat): seq<Sending>
    requires n <= |list|
  {
    if n == 0 then [] else Joined(list, n - 1) + list[n - 1]
  }

  lemma {:induction false} JoinedGrows(list: seq<seq<Sending>>, i: nat, j: nat)
    requires i <= j <= |list|
    ensures Joined(list, i) <= Joined(list, j)
  {
    if i < j {
      JoinedGrows(list, i, j - 1);
    }
  }

  lemma {:induction false} JoinedRelayed(list: seq<seq<Sending>>, n: nat)
    requires n <= |list|
    ensures HasRelayed(Joined(list, n)) <==> exists i :: 0 <= i < n && HasRelayed(list[i])
  {
    if n > 0 {
      JoinedRelayed(list, n - 1);
      HasRelayedConcat(Joined(list, n - 1), list[n - 1]);
    }
  }

  lemma LastIsSent(before: seq<Sending>, more: seq<Sending>)
    requires |more| <= 1 && |Sent(before + more)| == |Sent(before)| + 1
    ensures |more| == 1 && !more[0].relayed
  {
    SentConcat(before, more);
    assert SentOf(more, 0) == [];
  }

  lemma BeginsWithSent(before: seq<Sending>, more: seq<Sending>, all: seq<Sending>, script: seq<string>)
    requires |more| <= 1 && before + more <= all
    requires Sent(before + more) == script && |Sent(before)| + 1 == |script|
    ensures |script| <= |all|
    ensures all[..|script|] == FromServer(script) <==> !HasRelayed(before)
    ensures |more| == 1
  {
    LastIsSent(before, more);
    SentFirst(before + more, script);
    HasRelayedConcat(before, more);
    assert all[..|script|] == (before + more)[..|script|];
  }

  lemma JoinedBeginsWithSent(list: seq<seq<Sending>>, last: nat, script: seq<string>)
    requires last < |list| && |list[last]| <= 1
    requires Sent(Joined(list, last + 1)) == script && |Sent(Joined(list, last))| + 1 == |script|
    ensures |script| <= |Joined(list, |list|)|
    ensures Joined(list, |list|)[..|script|] == FromServer(script)
      <==> forall i | 0 <= i < last :: !HasRelayed(list[i])
    ensures |list[last]| == 1
  {
    JoinedGrows(list, last + 1, |list|);
    BeginsWithSent(Joined(list, last), list[last], Joined(list, |list|), script);
    JoinedRelayed(list, last);
  }
}
