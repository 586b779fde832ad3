/**
 * The history shown when a conversation is resumed: the last few non-system
 * messages, each behind a "You" or "AI" label.
 */
module Display {
  import opened Messages

  const DefaultHistoryLength: int := 10
  const NoHistoryLine: string := "No conversation history found."
  const HistoryHeader: string := "\n--- Last Conversation History ---"
  const HistoryFooter: string := "--- End of History ---\n"

  function Min(a: int, b: int): int
  {
    if a <= b then a else b
  }

  /** The label of a role: user turns are "You", every other role is "AI". */
  function Label(role: string): (tag: string)
    ensures tag == "You" <==> role == UserRole
    ensures tag != "You" ==> tag == "AI"
  {
    if role == UserRole then "You" else "AI"
  }

  /** The messages whose role is not "system", in their original order. */
  function NonSystem(msgs: seq<Message>): (r: seq<Message>)
    ensures |r| <= |msgs|
    ensures forall m :: m in r <==> m in msgs && m.role != SystemRole
  {
    if msgs == [] then []
    else (if msgs[0].role != SystemRole then [msgs[0]] else []) + NonSystem(msgs[1..])
  }

  /** Filtering distributes over concatenation, so order and repetitions are kept. */
  lemma {:induction false} NonSystemAppend(a: seq<Message>, b: seq<Message>)
    ensures NonSystem(a + b) == NonSystem(a) + NonSystem(b)
  {
    if a != [] {
      assert (a + b)[1..] == a[1..] + b;
      NonSystemAppend(a[1..], b);
    } else {
      assert a + b == b;
    }
  }

  /** Python's `xs[-n:]`. */
  function TakeLast(xs: seq<Message>, n: int): (r: seq<Message>)
    ensures n >= 1 ==> r == xs[|xs| - Min(n, |xs|)..]
    ensures n == 0 ==> r == xs
    ensures n < 0 ==> r == xs[Min(-n, |xs|)..]
  {
    var start := if -n < 0 then -n + |xs| else -n;
    var clamped := if start < 0 then 0 else if start > |xs| then |xs| else start;
    xs[clamped..]
  }

  function RenderLine(m: Message): string
  {
    Label(m.role) + ": " + m.content
  }

  /** The messages the history display shows. */
  function Shown(messages: seq<Message>, n: int): seq<Message>
  {
    TakeLast(NonSystem(messages), n)
  }

  /** The lines printed for a loaded history. */
  function ShowLastConversationHistory(messages: seq<Message>, n: int := DefaultHistoryLength): (lines: seq<string>)
    ensures messages == [] ==> lines == [NoHistoryLine]
    ensures messages != [] ==>
      && |lines| == |Shown(messages, n)| + 2
      && lines[0] == HistoryHeader && lines[|lines| - 1] == HistoryFooter
      && forall i :: 0 <= i < |Shown(messages, n)| ==> lines[i + 1] == RenderLine(Shown(messages, n)[i])
  {
    if messages == [] then [NoHistoryLine]
    else [HistoryHeader] + RenderAll(Shown(messages, n)) + [HistoryFooter]
  }

  function RenderAll(ms: seq<Message>): (lines: seq<string>)
    ensures |lines| == |ms|
    ensures forall i :: 0 <= i < |ms| ==> lines[i] == RenderLine(ms[i])
  {
    if ms == [] then [] else [RenderLine(ms[0])] + RenderAll(ms[1..])
  }

  /** For a positive count the display shows exactly the last `min(n, count)`
      non-system messages, in their original order. */
  lemma ShownIsLastNonSystem(messages: seq<Message>, n: int)
    requires n >= 1
    ensures var all := NonSystem(messages);
      |Shown(messages, n)| == Min(n, |all|)
      && Shown(messages, n) == all[|all| - Min(n, |all|)..]
  {
  }

  /** A count of zero shows every non-system message, since `xs[-0:]` is all of `xs`. */
  lemma ZeroCountShowsAll(messages: seq<Message>)
    ensures Shown(messages, 0) == NonSystem(messages)
  {
  }
}
