/**
 * The page's session state (`st.session_state`) and the handlers that change it:
 * first-run initialisation, configuring the access key, clearing the
 * conversation, logging out, and processing one submitted prompt.
 */
module ChatSession {
  import opened Wrappers
  import opened PyJson
  import opened AgentClient

  /** The endpoint every session starts with; no handler ever reassigns it. */
  const DefaultEndpoint := "https://e2bveggk4tn4y4gxty7a6ere.agents.do-ai.run"
  const ApologyPrefix := "Lo siento, ocurrió un error al procesar tu consulta sobre Tampa Clean: "

  function UserMessage(prompt: string): Message {
    Message(User, JStr(prompt))
  }

  /** The one assistant entry a turn appends: the reply's content, or an apology quoting the error. */
  function AssistantMessage(reply: AgentReply): (m: Message)
    ensures m.role == Assistant
    ensures reply.Response? ==> m.content == reply.content
    ensures reply.Error? ==> m.content.JStr? && ApologyPrefix + reply.message == m.content.s
  {
    match reply
    case Response(content) => Message(Assistant, content)
    case Error(message, _) => Message(Assistant, JStr(ApologyPrefix + message))
  }

  /** The transcript after one turn. */
  function AfterTurn(messages: seq<Message>, prompt: string, reply: AgentReply): (r: seq<Message>)
    ensures |r| == |messages| + 2 && r[..|messages|] == messages
    ensures r[|messages|] == UserMessage(prompt) && r[|messages| + 1] == AssistantMessage(reply)
  {
    messages + [UserMessage(prompt), AssistantMessage(reply)]
  }

  /** Entries alternate user, assistant, user, ... from the first one on. */
  predicate Alternates(messages: seq<Message>) {
    forall i :: 0 <= i < |messages| ==> messages[i].role == (if i % 2 == 0 then User else Assistant)
  }

  /** A complete transcript: an even number of entries, alternating. */
  predicate Paired(messages: seq<Message>) {
    |messages| % 2 == 0 && Alternates(messages)
  }

  lemma AfterTurnKeepsPairs(messages: seq<Message>, prompt: string, reply: AgentReply)
    requires Paired(messages)
    ensures Paired(AfterTurn(messages, prompt, reply))
  {
  }

  /** The transcript that a sequence of turns, each a prompt and the reply it got, builds from an empty one. */
  function Transcript(turns: seq<(string, AgentReply)>): seq<Message> {
    if turns == [] then []
    else
      var last := turns[|turns| - 1];
      AfterTurn(Transcript(turns[..|turns| - 1]), last.0, last.1)
  }

  /** N turns give 2N entries, alternating, the k-th prompt and the k-th reply at positions 2k and 2k+1. */
  lemma {:induction false} TranscriptOfTurns(turns: seq<(string, AgentReply)>)
    ensures |Transcript(turns)| == 2 * |turns|
    ensures Paired(Transcript(turns))
    ensures forall k :: 0 <= k < |turns| ==>
              Transcript(turns)[2 * k] == UserMessage(turns[k].0)
              && Transcript(turns)[2 * k + 1] == AssistantMessage(turns[k].1)
  {
    if turns != [] {
      var init := turns[..|turns| - 1];
      TranscriptOfTurns(init);
      var t := Transcript(turns);
      assert t == Transcript(init) + [UserMessage(turns[|turns| - 1].0), AssistantMessage(turns[|turns| - 1].1)];
      forall k | 0 <= k < |turns|
        ensures t[2 * k] == UserMessage(turns[k].0) && t[2 * k + 1] == AssistantMessage(turns[k].1)
      {
        if k < |init| {
          assert turns[k] == init[k];
        }
      }
    }
  }

  class Session {
    var isConfigured: bool
    var agentEndpoint: string
    var agentAccessKey: string
    var messages: seq<Message>

    /** The endpoint stays fixed, and the session counts as configured exactly when it holds a key. */
    ghost predicate Valid()
      reads this
    {
      agentEndpoint == DefaultEndpoint && (isConfigured <==> agentAccessKey != "")
    }

    /** `initialize_session_vars` on a new session, where none of the four keys is present yet. */
    constructor ()
      ensures Valid()
      ensures !isConfigured && agentEndpoint == DefaultEndpoint && agentAccessKey == "" && messages == []
    {
      isConfigured := false;
      agentEndpoint := DefaultEndpoint;
      agentAccessKey := "";
      messages := [];
    }

    /** The start button of the access screen: an empty key is refused and changes nothing. */
    method Configure(accessKey: string) returns (accepted: bool)
      requires Valid()
      modifies this
      ensures Valid()
      ensures accepted <==> accessKey != ""
      ensures accepted ==> isConfigured && agentAccessKey == accessKey
      ensures !accepted ==> isConfigured == old(isConfigured) && agentAccessKey == old(agentAccessKey)
      ensures agentEndpoint == old(agentEndpoint) && messages == old(messages)
    {
      if accessKey == "" {
        accepted := false;
      } else {
        agentAccessKey := accessKey;
        isConfigured := true;
        accepted := true;
      }
    }

    /** The clear button: the conversation is emptied, the configuration kept. */
    method ClearConversation()
      requires Valid()
      modifies this
      ensures Valid()
      ensures messages == []
      ensures isConfigured == old(isConfigured) && agentEndpoint == old(agentEndpoint)
      ensures agentAccessKey == old(agentAccessKey)
    {
      messages := [];
    }

    /** The log-out button: the key is forgotten, the endpoint and the conversation kept. */
    method Logout()
      requires Valid()
      modifies this
      ensures Valid()
      ensures !isConfigured && agentAccessKey == ""
      ensures agentEndpoint == old(agentEndpoint) && messages == old(messages)
    {
      isConfigured := false;
      agentAccessKey := "";
    }

    /**
     * One pass of the turn block: nothing without a non-empty prompt; otherwise
     * the prompt is appended, the agent is asked with the transcript as it stood
     * before, and exactly one assistant entry is appended.
     */
    method SubmitPrompt(prompt: Option<string>, params: Params, post: Request -> HttpOutcome)
      returns (reply: Option<AgentReply>)
      requires Valid()
      modifies this
      ensures Valid()
      ensures isConfigured == old(isConfigured) && agentEndpoint == old(agentEndpoint)
      ensures agentAccessKey == old(agentAccessKey)
      ensures (prompt == None || prompt == Some("")) ==> reply == None && messages == old(messages)
      ensures prompt.Some? && prompt.value != "" ==>
                && reply == Some(QueryAgent(agentEndpoint, agentAccessKey, prompt.value, old(messages), params, post))
                && messages == AfterTurn(old(messages), prompt.value, reply.value)
      ensures prompt.Some? && prompt.value != "" && isConfigured ==>
                reply.value == Classify(post(BuildRequest(agentEndpoint, agentAccessKey, prompt.value, old(messages), params)))
      ensures Paired(old(messages)) ==> Paired(messages)
    {
      if prompt == None || prompt.value == "" {
        reply := None;
        return;
      }
      var text := prompt.value;
      messages := messages + [UserMessage(text)];
      var apiHistory := messages[..|messages| - 1];
      assert apiHistory == old(messages);
      var r := QueryAgent(agentEndpoint, agentAccessKey, text, apiHistory, params, post);
      messages := messages + [AssistantMessage(r)];
      reply := Some(r);
      assert messages == AfterTurn(old(messages), text, r);
      if Paired(old(messages)) {
        AfterTurnKeepsPairs(old(messages), text, r);
      }
    }
  }
}
