/**
 * Context truncation: the message list is shortened, oldest message after the
 * first one first, until the token estimate fits the budget or one message is left.
 */
module Truncation {
  import opened Messages

  /** The token estimate of a message list (the tokenizer applied to its JSON text). */
  type TokenCounter = seq<Message> -> nat

  const DefaultMaxTokens: int := 3000

  /** The list after `pop(1)`: the message right after the first one is gone. */
  function DropOldest(msgs: seq<Message>): seq<Message>
    requires |msgs| >= 2
  {
    msgs[..1] + msgs[2..]
  }

  /** The first message followed by the messages from index `k` on. */
  function Kept(msgs: seq<Message>, k: nat): seq<Message>
    requires 1 <= k <= |msgs|
  {
    msgs[..1] + msgs[k..]
  }

  /** The list the truncation loop leaves behind. */
  function Truncate(count: TokenCounter, msgs: seq<Message>, maxTokens: int): (r: seq<Message>)
    ensures |r| <= |msgs|
    ensures |msgs| == 0 ==> r == []
    ensures |msgs| > 0 ==> 1 <= |r| && r[0] == msgs[0]
    ensures count(r) <= maxTokens || |r| <= 1
    decreases |msgs|
  {
    if count(msgs) > maxTokens && |msgs| > 1 then
      Truncate(count, DropOldest(msgs), maxTokens)
    else
      msgs
  }

  lemma DropOldestKept(msgs: seq<Message>, j: nat)
    requires |msgs| >= 2 && 1 <= j <= |msgs| - 1
    ensures Kept(DropOldest(msgs), j) == Kept(msgs, j + 1)
  {
  }

  /** The result is the first message followed by a suffix of the rest: kept
      messages stay in order and only the oldest ones after the first are dropped. */
  lemma {:induction false} TruncateKeepsSuffix(count: TokenCounter, msgs: seq<Message>, maxTokens: int)
    requires |msgs| >= 1
    ensures var r := Truncate(count, msgs, maxTokens);
      r == Kept(msgs, |msgs| - |r| + 1)
    decreases |msgs|
  {
    if count(msgs) > maxTokens && |msgs| > 1 {
      var rest := DropOldest(msgs);
      TruncateKeepsSuffix(count, rest, maxTokens);
      var r := Truncate(count, rest, maxTokens);
      DropOldestKept(msgs, |rest| - |r| + 1);
    } else {
      assert msgs[..1] + msgs[1..] == msgs;
    }
  }

  /** The loop stops at the first fitting list: every list with fewer messages
      dropped was still over budget. */
  lemma {:induction false} TruncateIsGreedy(count: TokenCounter, msgs: seq<Message>, maxTokens: int)
    requires |msgs| >= 1
    ensures var r := Truncate(count, msgs, maxTokens);
      forall j :: 1 <= j < |msgs| - |r| + 1 ==> count(Kept(msgs, j)) > maxTokens
    decreases |msgs|
  {
    var r := Truncate(count, msgs, maxTokens);
    if count(msgs) > maxTokens && |msgs| > 1 {
      var rest := DropOldest(msgs);
      TruncateIsGreedy(count, rest, maxTokens);
      forall j | 1 <= j < |msgs| - |r| + 1
        ensures count(Kept(msgs, j)) > maxTokens
      {
        if j == 1 {
          assert Kept(msgs, 1) == msgs;
        } else {
          DropOldestKept(msgs, j - 1);
        }
      }
    }
  }

  /** A list within budget is returned unchanged. */
  lemma TruncateWithinBudgetUnchanged(count: TokenCounter, msgs: seq<Message>, maxTokens: int)
    requires count(msgs) <= maxTokens
    ensures Truncate(count, msgs, maxTokens) == msgs
  {
  }

  /** The properties above determine the result: whichever drop point is the
      first to fit (or leaves one message) is the one truncation picks. */
  lemma {:induction false} TruncateUnique(count: TokenCounter, msgs: seq<Message>, maxTokens: int, k: nat)
    requires 1 <= k <= |msgs|
    requires count(Kept(msgs, k)) <= maxTokens || k == |msgs|
    requires forall j :: 1 <= j < k ==> count(Kept(msgs, j)) > maxTokens
    ensures Truncate(count, msgs, maxTokens) == Kept(msgs, k)
    decreases |msgs|
  {
    assert Kept(msgs, 1) == msgs;
    if k > 1 {
      var rest := DropOldest(msgs);
      assert count(msgs) > maxTokens;
      forall j | 1 <= j < k - 1
        ensures count(Kept(rest, j)) > maxTokens
      {
        DropOldestKept(msgs, j);
      }
      DropOldestKept(msgs, k - 1);
      TruncateUnique(count, rest, maxTokens, k - 1);
    }
  }
}
