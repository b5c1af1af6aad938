/**
 * The prompt serialiser of the chat wrapper: an ordered history of
 * role-tagged messages becomes one text prompt for the inference engine.
 * Each message is rendered by its role, in history order, and the prompt
 * ends with the cue `Assistant:` that asks the engine to continue.
 */
module PromptFormat {

  /** One entry of a conversation history: a role string and its text. */
  datatype Message = Message(role: string, content: string)

  const SystemRole: string := "system"
  const UserRole: string := "user"
  const AssistantRole: string := "assistant"

  /** The continuation cue appended after every history. */
  const Cue: string := "Assistant:"

  predicate IsKnownRole(role: string) {
    role == SystemRole || role == UserRole || role == AssistantRole
  }

  /** The text one message contributes; a role outside the three contributes nothing. */
  function Render(m: Message): (r: string)
    ensures r == "" <==> !IsKnownRole(m.role)
    ensures IsKnownRole(m.role) ==> |r| > |m.content|
  {
    if m.role == SystemRole then "System: " + m.content + "\n\n"
    else if m.role == UserRole then "User: " + m.content + "\n"
    else if m.role == AssistantRole then "Assistant: " + m.content + "\n\n"
    else ""
  }

  /** The renderings of the messages of `h`, concatenated in history order. */
  function Body(h: seq<Message>): (r: string)
    ensures r == "" <==> forall i :: 0 <= i < |h| ==> !IsKnownRole(h[i].role)
  {
    if h == [] then ""
    else
      var rest := Body(h[1..]);
      assert forall i :: 1 <= i < |h| ==> h[i] == h[1..][i - 1];
      Render(h[0]) + rest
  }

  /** The whole prompt: the body followed by the cue. */
  function Format(h: seq<Message>): (r: string)
    ensures r == Cue <==> forall i :: 0 <= i < |h| ==> !IsKnownRole(h[i].role)
  {
    Body(h) + Cue
  }

  /** Every prompt ends with the cue, and what precedes the cue is the body. */
  lemma FormatEndsWithCue(h: seq<Message>)
    ensures |Format(h)| >= |Cue|
    ensures Format(h)[|Format(h)| - |Cue|..] == Cue
    ensures Format(h)[..|Format(h)| - |Cue|] == Body(h)
  {
  }

  /** A one-message history renders as that message. */
  lemma BodySingleton(m: Message)
    ensures Body([m]) == Render(m)
  {
    assert [m][1..] == [];
  }

  /** Rendering distributes over concatenation of histories. */
  lemma {:induction false} BodyAppend(h1: seq<Message>, h2: seq<Message>)
    ensures Body(h1 + h2) == Body(h1) + Body(h2)
  {
    if h1 == [] {
      assert h1 + h2 == h2;
    } else {
      assert (h1 + h2)[1..] == h1[1..] + h2;
      BodyAppend(h1[1..], h2);
    }
  }

  /** Formatting a concatenation: the cue-less prompt of `h1 + h2` is `Body(h1) + Body(h2)`. */
  lemma FormatAppend(h1: seq<Message>, h2: seq<Message>)
    ensures Format(h1 + h2) == Body(h1) + Format(h2)
    ensures Format(h1 + h2)[..|Format(h1 + h2)| - |Cue|] == Body(h1) + Body(h2)
  {
    var b1, b2 := Body(h1), Body(h2);
    BodyAppend(h1, h2);
    ConcatAssoc(b1, b2, Cue);
    FormatEndsWithCue(h1 + h2);
  }

  /** Associativity of string concatenation, stated once as a hint for the solver. */
  lemma ConcatAssoc(a: string, b: string, c: string)
    ensures a + b + c == a + (b + c)
  {
  }

  /** An empty history gives exactly the cue. */
  lemma FormatEmpty()
    ensures Format([]) == "Assistant:"
  {
  }

  /** A message with an unrecognised role can be removed without changing the prompt. */
  lemma {:induction false} UnknownRoleDropped(h1: seq<Message>, m: Message, h2: seq<Message>)
    requires !IsKnownRole(m.role)
    ensures Format(h1 + [m] + h2) == Format(h1 + h2)
  {
    calc {
      Body(h1 + [m] + h2);
      { BodyAppend(h1 + [m], h2); }
      Body(h1 + [m]) + Body(h2);
      { BodyAppend(h1, [m]); BodySingleton(m); }
      Body(h1) + Body(h2);
      { BodyAppend(h1, h2); }
      Body(h1 + h2);
    }
  }

  /** The new user turn is the last rendered message, right before the cue. */
  lemma {:induction false} UserTurnLast(h: seq<Message>, userPrompt: string)
    ensures Format(h + [Message(UserRole, userPrompt)]) == Body(h) + ("User: " + userPrompt + "\n") + "Assistant:"
  {
    var m := Message(UserRole, userPrompt);
    calc {
      Body(h + [m]);
      { BodyAppend(h, [m]); }
      Body(h) + Body([m]);
      { BodySingleton(m); }
      Body(h) + Render(m);
    }
  }

  /** The worked example: one system, one user and one assistant message. */
  lemma ThreeMessageExample(s: string, u: string, a: string)
    ensures Format([Message(SystemRole, s), Message(UserRole, u), Message(AssistantRole, a)])
         == ("System: " + s + "\n\n") + ("User: " + u + "\n") + ("Assistant: " + a + "\n\n") + "Assistant:"
  {
    var sys, usr, asst := Message(SystemRole, s), Message(UserRole, u), Message(AssistantRole, a);
    calc {
      Body([sys, usr, asst]);
      { assert [sys, usr, asst] == [sys, usr] + [asst]; BodyAppend([sys, usr], [asst]); }
      Body([sys, usr]) + Body([asst]);
      { assert [sys, usr] == [sys] + [usr]; BodyAppend([sys], [usr]); }
      Body([sys]) + Body([usr]) + Body([asst]);
      { BodySingleton(sys); BodySingleton(usr); BodySingleton(asst); }
      Render(sys) + Render(usr) + Render(asst);
    }
  }

  /**
   * The prompt-building loop: renders each message of `h` in order into
   * `prompt`, then appends the cue.
   */
  method BuildPrompt(h: seq<Message>) returns (prompt: string)
    ensures prompt == Format(h)
  {
    prompt := "";
    for i := 0 to |h|
      invariant prompt == Body(h[..i])
    {
      var m := h[i];
      ghost var before := prompt;
      if m.role == SystemRole {
        prompt := prompt + ("System: " + m.content + "\n\n");
      } else if m.role == UserRole {
        prompt := prompt + ("User: " + m.content + "\n");
      } else if m.role == AssistantRole {
        prompt := prompt + ("Assistant: " + m.content + "\n\n");
      }
      assert prompt == before + Render(m);
      assert Body(h[..i + 1]) == Body(h[..i]) + Render(m) by {
        assert h[..i + 1] == h[..i] + [m];
        BodyAppend(h[..i], [m]);
        BodySingleton(m);
      }
    }
    assert h[..|h|] == h;
    prompt := prompt + Cue;
  }
}
