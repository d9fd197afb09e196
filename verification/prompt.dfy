/**
 * The conversation prompt built from a session's recent messages: a fixed
 * preamble, one labelled block per message in stored order, and a closing
 * instruction when the conversation already has more than one message.
 */
module Prompt {
  import opened Text
  import opened Sessions

  const Preamble := "You are a helpful AI assistant. Here is our conversation so far:\n\n"
  const Continuation := "Please continue our conversation naturally, remembering what we discussed earlier.\n"

  /** "User" for the role "user", "Assistant" for every other role. */
  function RoleLabel(role: string): string {
    if role == "user" then "User" else "Assistant"
  }

  /** The block one message contributes: its label, its content and a blank line. */
  function Block(m: Message): string {
    RoleLabel(m.role) + ": " + m.content + "\n\n"
  }

  /** The blocks of all messages, in order. */
  function Transcript(messages: seq<Message>): string {
    if messages == [] then ""
    else Transcript(messages[..|messages| - 1]) + Block(messages[|messages| - 1])
  }

  /** The whole prompt for a window of messages. */
  function PromptText(recent: seq<Message>): string {
    Preamble + Transcript(recent) + (if |recent| > 1 then Continuation else "")
  }

  /** The loop that assembles the prompt, one message at a time. */
  method BuildPrompt(recent: seq<Message>) returns (prompt: string)
    ensures prompt == PromptText(recent)
  {
    prompt := Preamble;
    for i := 0 to |recent|
      invariant prompt == Preamble + Transcript(recent[..i])
    {
      var msg := recent[i];
      var roleLabel := if msg.role == "user" then "User" else "Assistant";
      var block := roleLabel + ": " + msg.content + "\n\n";
      assert recent[..i + 1][..i] == recent[..i];
      assert Transcript(recent[..i + 1]) == Transcript(recent[..i]) + block;
      AppendAssoc(Preamble, Transcript(recent[..i]), block);
      prompt := prompt + block;
    }
    assert recent[..|recent|] == recent;
    if |recent| > 1 {
      prompt := prompt + Continuation;
    }
  }

  lemma AppendAssoc(a: string, b: string, c: string)
    ensures (a + b) + c == a + (b + c)
  {
  }

  /** Rendering distributes over concatenation: earlier messages come first. */
  lemma {:induction false} TranscriptAppend(a: seq<Message>, b: seq<Message>)
    ensures Transcript(a + b) == Transcript(a) + Transcript(b)
    decreases |b|
  {
    if b != [] {
      var init := b[..|b| - 1];
      var last := b[|b| - 1];
      DropLast(a, b);
      TranscriptAppend(a, init);
      assert Transcript(a + b) == Transcript(a + init) + Block(last);
      assert Transcript(b) == Transcript(init) + Block(last);
      AppendAssoc(Transcript(a), Transcript(init), Block(last));
    } else {
      assert a + b == a;
    }
  }

  /** Message `i` of the window is rendered after every earlier one and before every later one. */
  lemma BlockInPlace(recent: seq<Message>, i: nat)
    requires i < |recent|
    ensures Transcript(recent) == Transcript(recent[..i]) + Block(recent[i]) + Transcript(recent[i + 1..])
  {
    var before, x, after := recent[..i], recent[i], recent[i + 1..];
    SplitAt(recent, i);
    TranscriptAppend(before + [x], after);
    assert (before + [x])[..i] == before;
  }

  lemma DropLast<T>(a: seq<T>, b: seq<T>)
    requires b != []
    ensures (a + b)[..|a + b| - 1] == a + b[..|b| - 1]
    ensures (a + b)[|a + b| - 1] == b[|b| - 1]
  {
  }

  lemma SplitAt<T>(s: seq<T>, i: nat)
    requires i < |s|
    ensures s == (s[..i] + [s[i]]) + s[i + 1..]
  {
  }

  /** A non-empty transcript ends with a blank line. */
  lemma TranscriptEndsBlank(messages: seq<Message>)
    requires messages != []
    ensures EndsWith(Transcript(messages), "\n\n")
  {
  }

  /**
   * The closing instruction ends the prompt exactly when the window holds
   * more than one message: otherwise the prompt ends with the blank line of
   * the preamble or of the single message, which the instruction cannot.
   */
  lemma ContinuationIff(recent: seq<Message>)
    ensures EndsWith(PromptText(recent), Continuation) <==> |recent| > 1
  {
    var p := PromptText(recent);
    if |recent| <= 1 {
      var body := Preamble + Transcript(recent);
      assert p == body;
      assert EndsWith(body, "\n\n") by {
        if recent != [] {
          TranscriptEndsBlank(recent);
        }
      }
      assert body[|body| - 2] == '\n';
      assert Continuation[|Continuation| - 2] == '.';
    }
  }

  /** The message appended last is the last block of the conversation part of the prompt. */
  lemma NewestLast(history: seq<Message>, newest: Message)
    ensures EndsWith(Transcript(Window(history + [newest])), Block(newest))
  {
    var w := Window(history + [newest]);
    assert w[|w| - 1] == newest;
  }
}
