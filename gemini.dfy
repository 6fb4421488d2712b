/**
 * How a chat transcript becomes the single prompt text sent to the model:
 * `_flatten` hoists every system message to the front and writes every other
 * message as a "User: " or "Assistant: " line, in transcript order.
 */
module Gemini {
  import opened Wrappers
  import opened Strings

  /** One chat message; a missing "role" reads as `None`, a missing "content" as "". */
  datatype Message = Message(role: Option<string>, content: Option<string>)

  const SystemRole := "system"
  const UserRole := "user"

  function Content(m: Message): string {
    m.content.GetOr("")
  }

  predicate IsSystem(m: Message) {
    m.role == Some(SystemRole)
  }

  /** The conversation line of a non-system message: anything not "user" is the assistant. */
  function Line(m: Message): (r: string)
    ensures m.role == Some(UserRole) ==> r == "User: " + Content(m)
    ensures m.role != Some(UserRole) ==> r == "Assistant: " + Content(m)
  {
    if m.role == Some(UserRole) then "User: " + Content(m) else "Assistant: " + Content(m)
  }

  /** The contents of the system messages, in transcript order. */
  function SystemParts(ms: seq<Message>): (r: seq<string>)
    ensures |r| <= |ms|
  {
    if ms == [] then []
    else
      var last := ms[|ms| - 1];
      SystemParts(ms[..|ms| - 1]) + (if IsSystem(last) then [Content(last)] else [])
  }

  /** The lines of the other messages, in transcript order. */
  function ConvoLines(ms: seq<Message>): (r: seq<string>)
    ensures |r| <= |ms|
  {
    if ms == [] then []
    else
      var last := ms[|ms| - 1];
      ConvoLines(ms[..|ms| - 1]) + (if IsSystem(last) then [] else [Line(last)])
  }

  /** The prompt text: the stripped system block and a blank line when there is one, then the stripped conversation. */
  function Flattened(ms: seq<Message>): string {
    var sys := SystemParts(ms);
    (if sys != [] then Strip(Join(sys, "\n")) + "\n\n" else "") + Strip(Join(ConvoLines(ms), "\n"))
  }

  /** `_flatten(messages)`. */
  method Flatten(messages: seq<Message>) returns (out: string)
    ensures out == Flattened(messages)
  {
    var system: seq<string> := [];
    var convo: seq<string> := [];
    var i := 0;
    while i < |messages|
      invariant 0 <= i <= |messages|
      invariant system == SystemParts(messages[..i])
      invariant convo == ConvoLines(messages[..i])
    {
      var m := messages[i];
      var content := m.content.GetOr("");
      if m.role == Some(SystemRole) {
        system := system + [content];
      } else if m.role == Some(UserRole) {
        convo := convo + ["User: " + content];
      } else {
        convo := convo + ["Assistant: " + content];
      }
      assert messages[..i + 1][..i] == messages[..i];
      i := i + 1;
    }
    assert messages[..i] == messages;
    out := "";
    if |system| > 0 {
      out := out + Strip(Join(system, "\n")) + "\n\n";
    }
    out := out + Strip(Join(convo, "\n"));
  }

  // ---------------------------------------------------------------- properties

  lemma {:induction false} SystemPartsAppend(a: seq<Message>, b: seq<Message>)
    ensures SystemParts(a + b) == SystemParts(a) + SystemParts(b)
    decreases |b|
  {
    if b == [] {
      assert a + b == a;
    } else {
      assert (a + b)[..|a + b| - 1] == a + b[..|b| - 1];
      SystemPartsAppend(a, b[..|b| - 1]);
    }
  }

  lemma {:induction false} ConvoLinesAppend(a: seq<Message>, b: seq<Message>)
    ensures ConvoLines(a + b) == ConvoLines(a) + ConvoLines(b)
    decreases |b|
  {
    if b == [] {
      assert a + b == a;
    } else {
      assert (a + b)[..|a + b| - 1] == a + b[..|b| - 1];
      ConvoLinesAppend(a, b[..|b| - 1]);
    }
  }

  /** Every message lands in exactly one of the two parts. */
  lemma {:induction false} PartsPartition(ms: seq<Message>)
    ensures |SystemParts(ms)| + |ConvoLines(ms)| == |ms|
  {
    if ms != [] {
      PartsPartition(ms[..|ms| - 1]);
    }
  }

  /**
   * Wherever a system message stands in the transcript, it joins the system
   * block and leaves the conversation lines as they were without it.
   */
  lemma SystemMessageHoisted(before: seq<Message>, m: Message, after: seq<Message>)
    requires IsSystem(m)
    ensures SystemParts(before + [m] + after) == SystemParts(before) + [Content(m)] + SystemParts(after)
    ensures ConvoLines(before + [m] + after) == ConvoLines(before + after)
  {
    SystemPartsAppend(before + [m], after);
    SystemPartsAppend(before, [m]);
    ConvoLinesAppend(before + [m], after);
    ConvoLinesAppend(before, [m]);
    ConvoLinesAppend(before, after);
    assert [m][..0] == [];
  }

  /** A message of any other role adds its line after the earlier lines and nothing to the system block. */
  lemma ConvoMessageAppended(ms: seq<Message>, m: Message)
    requires !IsSystem(m)
    ensures SystemParts(ms + [m]) == SystemParts(ms)
    ensures ConvoLines(ms + [m]) == ConvoLines(ms) + [Line(m)]
  {
    assert (ms + [m])[..|ms|] == ms;
  }

  /** Without system messages the prompt is just the stripped conversation. */
  lemma {:induction false} NoSystemBlock(ms: seq<Message>)
    requires forall k :: 0 <= k < |ms| ==> !IsSystem(ms[k])
    ensures SystemParts(ms) == []
    ensures Flattened(ms) == Strip(Join(ConvoLines(ms), "\n"))
  {
    if ms != [] {
      NoSystemBlock(ms[..|ms| - 1]);
    }
  }

  /** With system messages the prompt opens with their stripped block and a blank line. */
  lemma SystemBlockFirst(ms: seq<Message>)
    requires SystemParts(ms) != []
    ensures StartsWith(Flattened(ms), Strip(Join(SystemParts(ms), "\n")) + "\n\n")
  {
    var head := Strip(Join(SystemParts(ms), "\n")) + "\n\n";
    assert Flattened(ms) == head + Strip(Join(ConvoLines(ms), "\n"));
    assert Flattened(ms)[..|head|] == head;
  }

  /** A question and its answer: no system block, one line each. */
  lemma ExchangeParts(question: string, answer: string)
    ensures var ms := [Message(Some(UserRole), Some(question)), Message(Some("assistant"), Some(answer))];
      SystemParts(ms) == [] && ConvoLines(ms) == ["User: " + question, "Assistant: " + answer]
  {
    var ms := [Message(Some(UserRole), Some(question)), Message(Some("assistant"), Some(answer))];
    assert !IsSystem(ms[0]) && !IsSystem(ms[1]);
    ConvoMessageAppended([ms[0]], ms[1]);
    ConvoMessageAppended([], ms[0]);
    assert [ms[0]] + [ms[1]] == ms && [] + [ms[0]] == [ms[0]];
  }

  /** Two lines opening and closing with non-space text strip to themselves. */
  lemma StripTwoLines(x: string, y: string)
    requires x != [] && !IsSpace(x[0]) && y != [] && !IsSpace(y[|y| - 1])
    ensures Strip(Join([x, y], "\n")) == x + "\n" + y
  {
    assert [x, y][..1] == [x];
    var text := x + "\n" + y;
    assert text[0] == x[0] && text[|text| - 1] == y[|y| - 1];
    StripKeepsTrimmed(text);
  }

  /** A transcript of one user message and one assistant reply that ends in non-space text. */
  lemma OneExchange(question: string, answer: string)
    requires answer != [] && !IsSpace(answer[|answer| - 1])
    ensures Flattened([Message(Some(UserRole), Some(question)), Message(Some("assistant"), Some(answer))])
         == "User: " + question + "\n" + "Assistant: " + answer
  {
    ExchangeParts(question, answer);
    var a := "Assistant: " + answer;
    assert a[|a| - 1] == answer[|answer| - 1];
    StripTwoLines("User: " + question, a);
  }
}
