/**
 The turn controller of a single-session chat front-end.

 The session keeps a conversation log of role-tagged entries. It is seeded
 once with a greeting from the assistant and afterwards only appended to:
 one user entry per submitted query, then one assistant entry per answer of
 the language model. For every query a prompt is assembled afresh: the fixed
 system instruction followed by the log's user and assistant entries, in
 order and with their text unchanged.

 The language model is an oracle: its answer (or its failure) is a parameter.
 */
module App {

  datatype Option<T> = None | Some(value: T)

  /** A role string other than the two the prompt assembler recognises. */
  type OtherTag = s: string | s != "user" && s != "ai" witness "system"

  /** The role of a log entry: the dictionary's "role" string, classified. */
  datatype Role = User | Ai | Other(tag: OtherTag)

  /** One log entry, `{"role": ..., "content": ...}`. */
  datatype Msg = Msg(role: Role, content: string)

  /** One element of the assembled prompt, as plain tagged data. */
  datatype PromptMsg = System(text: string) | Human(text: string) | AiMsg(text: string)

  /** What the model call produces: its full answer, or an exception. */
  datatype Reply = Ok(text: string) | Fail

  const SystemInstruction: string :=
    "You are an expert AI coding assistant. Provide only concise and correct solutions "
    + "with strategic print statements for debugging. Always respond in English. And if you dont know the answer just tell can't figure it out but dont give incorrect response"

  const Greeting: string := "Hi! I'm DeepSeek. How can I help you code today? \U{1F4BB}"

  /** The log a new session starts with. */
  function FreshLog(): (log: seq<Msg>)
    ensures |log| == 1 && log[0].role == Ai && log[0].content == Greeting
  {
    [Msg(Ai, Greeting)]
  }

  // ---------------------------------------------------------------------
  // Roles as strings

  /** The role dispatch on the entry's role string. */
  function RoleOf(tag: string): (r: Role)
    ensures r == User <==> tag == "user"
    ensures r == Ai <==> tag == "ai"
    ensures r.Other? ==> r.tag == tag
  {
    if tag == "user" then User
    else if tag == "ai" then Ai
    else Other(tag)
  }

  /** The role string stored in the log for a role. */
  function TagOf(r: Role): (tag: string)
    ensures RoleOf(tag) == r
  {
    match r
    case User => "user"
    case Ai => "ai"
    case Other(t) => t
  }

  lemma RoleOfTagOf(tag: string)
    ensures TagOf(RoleOf(tag)) == tag
  {
  }

  // ---------------------------------------------------------------------
  // Prompt assembly

  /** What one log entry contributes to the prompt: nothing for an unknown role. */
  function Contribution(m: Msg): (p: seq<PromptMsg>)
    ensures |p| <= 1
    ensures |p| == 1 <==> !m.role.Other?
    ensures |p| == 1 ==> p[0].text == m.content && !p[0].System?
    ensures |p| == 1 ==> (p[0].Human? <==> m.role == User)
  {
    match m.role
    case User => [Human(m.content)]
    case Ai => [AiMsg(m.content)]
    case Other(_) => []
  }

  /** The prompt built from a log, entry by entry from the first to the last. */
  function Prompt(log: seq<Msg>): (p: seq<PromptMsg>)
    ensures 1 <= |p| <= 1 + |log|
    ensures p[0] == System(SystemInstruction)
    ensures forall i | 1 <= i < |p| :: !p[i].System?
  {
    if log == [] then [System(SystemInstruction)]
    else Prompt(log[..|log| - 1]) + Contribution(log[|log| - 1])
  }

  /** The prompt message for a user or assistant entry. */
  function AsPrompt(m: Msg): (p: PromptMsg)
    requires !m.role.Other?
    ensures Contribution(m) == [p]
  {
    Contribution(m)[0]
  }

  /** The entries of a log that take part in the conversation, in log order. */
  function Spoken(log: seq<Msg>): (s: seq<Msg>)
    ensures |s| <= |log|
    ensures forall i | 0 <= i < |s| :: !s[i].role.Other?
  {
    if log == [] then []
    else (if log[0].role.Other? then [] else [log[0]]) + Spoken(log[1..])
  }

  /** A log of user and assistant entries only. */
  predicate NoOthers(log: seq<Msg>)
  {
    forall i | 0 <= i < |log| :: !log[i].role.Other?
  }

  lemma {:induction false} SpokenAppend(a: seq<Msg>, b: seq<Msg>)
    ensures Spoken(a + b) == Spoken(a) + Spoken(b)
  {
    if a == [] {
      assert a + b == b;
    } else {
      assert (a + b)[1..] == a[1..] + b;
      SpokenAppend(a[1..], b);
    }
  }

  /** Spoken keeps exactly the user and assistant entries. */
  lemma {:induction false} SpokenIsLogIffNoOthers(log: seq<Msg>)
    ensures Spoken(log) == log <==> NoOthers(log)
  {
    if log != [] {
      SpokenIsLogIffNoOthers(log[1..]);
      if NoOthers(log) {
        assert NoOthers(log[1..]) by {
          forall i | 0 <= i < |log| - 1 ensures !log[1..][i].role.Other? {
            assert log[1..][i] == log[i + 1];
          }
        }
        assert log == [log[0]] + log[1..];
      }
    }
  }

  /**
   After the system message, the prompt holds one message per user or
   assistant entry of the log, in log order, user as human and assistant as
   AI, with the content unchanged.
   */
  lemma {:induction false} PromptMatchesSpoken(log: seq<Msg>)
    ensures |Prompt(log)| == 1 + |Spoken(log)|
    ensures forall i | 0 <= i < |Spoken(log)| :: Prompt(log)[i + 1] == AsPrompt(Spoken(log)[i])
  {
    if log != [] {
      var init, last := log[..|log| - 1], log[|log| - 1];
      assert log == init + [last];
      PromptMatchesSpoken(init);
      SpokenAppend(init, [last]);
      assert [last][1..] == [];
      if !last.role.Other? {
        assert Spoken([last]) == [last] && Contribution(last) == [AsPrompt(last)];
      }
    }
  }

  /** A log of user and assistant entries yields a prompt exactly one longer. */
  lemma PromptLengthNoOthers(log: seq<Msg>)
    requires NoOthers(log)
    ensures |Prompt(log)| == 1 + |log|
    ensures forall i | 0 <= i < |log| :: Prompt(log)[i + 1] == AsPrompt(log[i])
  {
    SpokenIsLogIffNoOthers(log);
    PromptMatchesSpoken(log);
  }

  /** Assembling from a concatenation of logs concatenates their messages. */
  lemma {:induction false} PromptAppend(a: seq<Msg>, b: seq<Msg>)
    ensures Prompt(a + b) == Prompt(a) + Prompt(b)[1..]
  {
    if b == [] {
      assert a + b == a;
    } else {
      var init, last := b[..|b| - 1], b[|b| - 1];
      assert (a + b)[..|a + b| - 1] == a + init;
      assert (a + b)[|a + b| - 1] == last;
      PromptAppend(a, init);
      assert Prompt(b)[1..] == Prompt(init)[1..] + Contribution(last);
    }
  }

  /** An entry whose role is neither "user" nor "ai" contributes nothing. */
  lemma OtherContributesNothing(a: seq<Msg>, m: Msg, b: seq<Msg>)
    requires m.role.Other?
    ensures Prompt(a + [m] + b) == Prompt(a + b)
  {
    var am := a + [m];
    assert am[..|am| - 1] == a && am[|am| - 1] == m;
    assert Prompt(am) == Prompt(a) + Contribution(m) == Prompt(a);
    PromptAppend(am, b);
    PromptAppend(a, b);
  }

  // ---------------------------------------------------------------------
  // The submit cycle

  /** `if user_query:` — chat input is absent (None) or a string; "" is falsy. */
  predicate Truthy(query: Option<string>)
    ensures Truthy(query) <==> query != None && query != Some("")
  {
    query.Some? && query.value != ""
  }

  /** The log after one pass over the submit cycle. */
  function Step(log: seq<Msg>, query: Option<string>, reply: Reply): (r: seq<Msg>)
    ensures log <= r
    ensures |log| <= |r| <= |log| + 2
  {
    if !Truthy(query) then log
    else
      var asked := log + [Msg(User, query.value)];
      match reply
      case Ok(text) => asked + [Msg(Ai, text)]
      case Fail => asked
  }

  /** The three outcomes of one submit cycle, entry by entry. */
  lemma StepOutcome(log: seq<Msg>, query: Option<string>, reply: Reply)
    ensures !Truthy(query) ==> Step(log, query, reply) == log
    ensures Truthy(query) && reply.Ok? ==>
      |Step(log, query, reply)| == |log| + 2
      && Step(log, query, reply)[|log|] == Msg(User, query.value)
      && Step(log, query, reply)[|log| + 1] == Msg(Ai, reply.text)
    ensures Truthy(query) && reply.Fail? ==>
      |Step(log, query, reply)| == |log| + 1
      && Step(log, query, reply)[|log|] == Msg(User, query.value)
  {
  }

  /** The prompt sent for a query ends with that query as a human message. */
  lemma SentPromptEndsWithQuery(log: seq<Msg>, query: string)
    ensures |Prompt(log + [Msg(User, query)])| == |Prompt(log)| + 1
    ensures Prompt(log + [Msg(User, query)]) == Prompt(log) + [Human(query)]
  {
    assert (log + [Msg(User, query)])[..|log|] == log;
  }

  /** What one submit cycle leaves behind: the new log and the prompt assembled for the model. */
  lemma SubmitOutcome(log: seq<Msg>, query: Option<string>, reply: Reply,
                      after: seq<Msg>, asked: Option<seq<PromptMsg>>)
    requires after == Step(log, query, reply)
    requires asked == if Truthy(query) then Some(Prompt(log + [Msg(User, query.value)])) else None
    ensures !Truthy(query) ==> asked == None && after == log
    ensures Truthy(query) ==> asked.value[|asked.value| - 1] == Human(query.value)
    ensures Truthy(query) && reply.Ok? ==> after == log + [Msg(User, query.value), Msg(Ai, reply.text)]
    ensures Truthy(query) && reply.Fail? ==> after == log + [Msg(User, query.value)]
    ensures WellFormed(log) ==> WellFormed(after)
  {
    if Truthy(query) {
      SentPromptEndsWithQuery(log, query.value);
      if reply.Ok? {
        assert after == log + [Msg(User, query.value)] + [Msg(Ai, reply.text)];
      }
    }
    if WellFormed(log) {
      StepWellFormed(log, query, reply);
    }
  }

  /** A log as the session keeps it: the greeting first, only user and assistant entries. */
  predicate WellFormed(log: seq<Msg>)
  {
    |log| >= 1 && log[0] == Msg(Ai, Greeting) && NoOthers(log)
  }

  /** One user interaction: what was typed, and what the model did with it. */
  datatype Interaction = Interaction(query: Option<string>, reply: Reply)

  /** The log after a series of submit cycles. */
  function Replay(log: seq<Msg>, inputs: seq<Interaction>): (r: seq<Msg>)
    decreases |inputs|
  {
    if inputs == [] then log
    else Replay(Step(log, inputs[0].query, inputs[0].reply), inputs[1..])
  }

  /** The log is append-only: every earlier entry stays where it was. */
  lemma {:induction false} ReplayAppendOnly(log: seq<Msg>, inputs: seq<Interaction>)
    ensures log <= Replay(log, inputs)
    ensures |Replay(log, inputs)| <= |log| + 2 * |inputs|
    decreases |inputs|
  {
    if inputs != [] {
      var next := Step(log, inputs[0].query, inputs[0].reply);
      ReplayAppendOnly(next, inputs[1..]);
    }
  }

  lemma StepWellFormed(log: seq<Msg>, query: Option<string>, reply: Reply)
    requires WellFormed(log)
    ensures WellFormed(Step(log, query, reply))
  {
    var r := Step(log, query, reply);
    forall i | 0 <= i < |r| ensures !r[i].role.Other? {
      if i < |log| {
        assert r[i] == log[i];
      }
    }
  }

  lemma {:induction false} ReplayWellFormed(log: seq<Msg>, inputs: seq<Interaction>)
    requires WellFormed(log)
    ensures WellFormed(Replay(log, inputs))
    decreases |inputs|
  {
    if inputs != [] {
      StepWellFormed(log, inputs[0].query, inputs[0].reply);
      ReplayWellFormed(Step(log, inputs[0].query, inputs[0].reply), inputs[1..]);
    }
  }

  /**
   In every log a session can reach, every entry reaches the prompt: the
   prompt is the system message and then the whole log, entry for entry.
   */
  lemma ReachablePromptMirrorsLog(inputs: seq<Interaction>)
    ensures WellFormed(Replay(FreshLog(), inputs))
    ensures |Prompt(Replay(FreshLog(), inputs))| == 1 + |Replay(FreshLog(), inputs)|
    ensures forall i | 0 <= i < |Replay(FreshLog(), inputs)| ::
      Prompt(Replay(FreshLog(), inputs))[i + 1] == AsPrompt(Replay(FreshLog(), inputs)[i])
  {
    ReplayWellFormed(FreshLog(), inputs);
    PromptLengthNoOthers(Replay(FreshLog(), inputs));
  }

  /** A session answered once, and a session whose model call failed. */
  lemma Scenarios()
    ensures Replay(FreshLog(), [Interaction(Some("print hello world in python"), Ok("print('hello world')"))])
      == [Msg(Ai, Greeting), Msg(User, "print hello world in python"), Msg(Ai, "print('hello world')")]
    ensures Replay(FreshLog(), [Interaction(Some("print hello world in python"), Fail)])
      == [Msg(Ai, Greeting), Msg(User, "print hello world in python")]
    ensures Replay(FreshLog(), [Interaction(Some(""), Ok("x")), Interaction(None, Fail)]) == FreshLog()
  {
  }

  // ---------------------------------------------------------------------
  // The session

  class Session {
    /** Whether the session state holds a message log yet. */
    var initialized: bool
    /** The message log; empty while there is none. */
    var log: seq<Msg>

    ghost predicate Valid()
      reads this
    {
      if initialized then WellFormed(log) else log == []
    }

    /** A session whose state holds no log yet. */
    constructor ()
      ensures !initialized && log == [] && Valid()
    {
      initialized := false;
      log := [];
    }

    /** Seeds the log with the greeting, unless a log exists already. */
    method Seed()
      modifies this
      ensures initialized
      ensures log == if old(initialized) then old(log) else FreshLog()
      ensures old(Valid()) ==> Valid()
    {
      if !initialized {
        log := FreshLog();
        initialized := true;
      }
    }

    /** Assembles the prompt from the whole log; the log is only read. */
    method BuildPrompt() returns (p: seq<PromptMsg>)
      ensures p == Prompt(log)
      ensures p[0] == System(SystemInstruction)
      ensures |p| == 1 + |Spoken(log)|
      ensures initialized && Valid() ==>
        |p| == 1 + |log| && forall i | 0 <= i < |log| :: p[i + 1] == AsPrompt(log[i])
    {
      p := [System(SystemInstruction)];
      for i := 0 to |log|
        invariant p == Prompt(log[..i])
      {
        assert log[..i + 1][..i] == log[..i];
        var m := log[i];
        if m.role == User {
          p := p + [Human(m.content)];
        } else if m.role == Ai {
          p := p + [AiMsg(m.content)];
        }
      }
      assert log[..|log|] == log;
      PromptMatchesSpoken(log);
      if initialized && Valid() {
        PromptLengthNoOthers(log);
      }
    }

    /**
     One submit cycle: a truthy query is logged, the prompt is built and
     sent, and a successful answer is logged as the assistant's turn. The
     result is the prompt assembled for the model call, if the query was
     truthy.
     */
    method Submit(query: Option<string>, reply: Reply) returns (asked: Option<seq<PromptMsg>>)
      requires initialized
      modifies this`log
      ensures log == Step(old(log), query, reply)
      ensures !Truthy(query) ==> asked == None && log == old(log)
      ensures Truthy(query) ==> asked == Some(Prompt(old(log) + [Msg(User, query.value)]))
      ensures Truthy(query) ==> asked.value[|asked.value| - 1] == Human(query.value)
      ensures Truthy(query) && reply.Ok? ==>
        log == old(log) + [Msg(User, query.value), Msg(Ai, reply.text)]
      ensures Truthy(query) && reply.Fail? ==> log == old(log) + [Msg(User, query.value)]
      ensures old(Valid()) ==> Valid()
    {
      ghost var before := log;
      if Truthy(query) {
        log := log + [Msg(User, query.value)];
        var prompt := BuildPrompt();
        asked := Some(prompt);
        if reply.Ok? {
          log := log + [Msg(Ai, reply.text)];
        }
      } else {
        asked := None;
      }
      SubmitOutcome(before, query, reply, log, asked);
    }

    /** One execution of the script: seed the log if needed, then the submit cycle. */
    method Run(query: Option<string>, reply: Reply) returns (asked: Option<seq<PromptMsg>>)
      modifies this
      ensures initialized
      ensures log == Step(if old(initialized) then old(log) else FreshLog(), query, reply)
      ensures asked == if Truthy(query)
        then Some(Prompt((if old(initialized) then old(log) else FreshLog()) + [Msg(User, query.value)]))
        else None
      ensures old(Valid()) ==> Valid()
    {
      Seed();
      asked := Submit(query, reply);
    }
  }
}
