/** The deterministic part of `StudentSupportAgent`: the requester id it is built with, the
    conversion of the chat history, the rule that splits the agent's final text into a reply
    and an optional ticket, the error fallback, and the word-by-word "stream". The agent
    executor (the language model with its tools) and `json.loads` are parameters. */
module SupportAgent {
  import opened Wrappers
  import opened Text
  import opened TicketIds

  // ---------------------------------------------------------------------------
  // JSON values and the collaborators
  // ---------------------------------------------------------------------------

  /** A decoded JSON value (numbers as integers). */
  datatype Json =
    | JNull
    | JBool(b: bool)
    | JNum(n: int)
    | JStr(s: string)
    | JArr(items: seq<Json>)
    | JObj(fields: map<string, Json>)

  /** What `json.loads` does with a text that starts with '{' and ends with '}': it gives an
      object, raises JSONDecodeError, or raises some other exception with a message. */
  datatype ParseOutcome = Parsed(obj: map<string, Json>) | DecodeError | Failed(error: string)

  /** What `agent_executor.invoke` does: it gives the final output text, or raises. */
  datatype Invocation = Output(output: string) | Raised(error: string)

  /** `{"response": ..., "ticket": ...}`; a missing ticket is null. */
  datatype ChatResult = ChatResult(response: Json, ticket: Json)

  // ---------------------------------------------------------------------------
  // Chat history
  // ---------------------------------------------------------------------------

  /** One entry of the chat history the caller passes. */
  datatype HistoryEntry = HistoryEntry(role: string, content: string)

  /** A LangChain message: HumanMessage or AIMessage. */
  datatype Message = Human(content: string) | AI(content: string)

  predicate KnownRole(e: HistoryEntry)
  {
    e.role == "user" || e.role == "assistant"
  }

  /** The messages the history becomes: "user" entries become human messages, "assistant"
      entries AI messages, entries with any other role are dropped; order is kept. */
  function ConvertHistory(h: seq<HistoryEntry>): (ms: seq<Message>)
    ensures |ms| <= |h|
  {
    if |h| == 0 then []
    else
      var head :=
        if h[0].role == "user" then [Human(h[0].content)]
        else if h[0].role == "assistant" then [AI(h[0].content)]
        else [];
      head + ConvertHistory(h[1..])
  }

  /** Converting a history in two parts gives the two conversions one after the other. */
  lemma {:induction false} ConvertHistoryConcat(a: seq<HistoryEntry>, b: seq<HistoryEntry>)
    ensures ConvertHistory(a + b) == ConvertHistory(a) + ConvertHistory(b)
    decreases |a|
  {
    if |a| > 0 {
      assert (a + b)[0] == a[0];
      assert (a + b)[1..] == a[1..] + b;
      ConvertHistoryConcat(a[1..], b);
    } else {
      assert a + b == b;
    }
  }

  /** A history whose every role is "user" or "assistant" converts entry by entry: same
      length, same contents, human messages exactly at the "user" entries. */
  lemma {:induction false} ConvertHistoryKnownRoles(h: seq<HistoryEntry>)
    requires forall j :: 0 <= j < |h| ==> KnownRole(h[j])
    ensures |ConvertHistory(h)| == |h|
    ensures forall k :: 0 <= k < |h| ==>
      ConvertHistory(h)[k].content == h[k].content && (ConvertHistory(h)[k].Human? <==> h[k].role == "user")
    decreases |h|
  {
    if |h| > 0 {
      var t := h[1..];
      assert forall j :: 0 <= j < |t| ==> KnownRole(t[j]) by {
        forall j | 0 <= j < |t| ensures KnownRole(t[j]) { assert t[j] == h[j + 1]; }
      }
      ConvertHistoryKnownRoles(t);
      assert KnownRole(h[0]);
      var ms := ConvertHistory(h);
      forall k | 0 <= k < |h|
        ensures ms[k].content == h[k].content && (ms[k].Human? <==> h[k].role == "user")
      {
        if k > 0 { assert ms[k] == ConvertHistory(t)[k - 1] && h[k] == t[k - 1]; }
      }
    }
  }

  /** A history with no "user" or "assistant" entry converts to no messages. */
  lemma {:induction false} ConvertHistoryUnknownRoles(h: seq<HistoryEntry>)
    requires forall j :: 0 <= j < |h| ==> !KnownRole(h[j])
    ensures ConvertHistory(h) == []
    decreases |h|
  {
    if |h| > 0 {
      var t := h[1..];
      assert forall j :: 0 <= j < |t| ==> !KnownRole(t[j]) by {
        forall j | 0 <= j < |t| ensures !KnownRole(t[j]) { assert t[j] == h[j + 1]; }
      }
      assert !KnownRole(h[0]);
      ConvertHistoryUnknownRoles(t);
    }
  }

  /** An entry with any other role is dropped wherever it stands: removing it leaves the
      conversion unchanged. */
  lemma DropUnknownRole(a: seq<HistoryEntry>, e: HistoryEntry, b: seq<HistoryEntry>)
    requires !KnownRole(e)
    ensures ConvertHistory(a + [e] + b) == ConvertHistory(a + b)
  {
    ConvertHistoryConcat(a + [e], b);
    ConvertHistoryConcat(a, [e]);
    ConvertHistoryConcat(a, b);
    assert ConvertHistory([e]) == [] by { assert [e][1..] == []; }
  }

  // ---------------------------------------------------------------------------
  // Splitting the agent's output into a reply and a ticket
  // ---------------------------------------------------------------------------

  /** The apology returned when anything in the try block raises. */
  function Apology(error: string): string
  {
    "Извините, произошла ошибка: " + error + "\n\nПопробуйте переформулировать вопрос или обратитесь в поддержку."
  }

  /** The output itself as the reply, with no ticket. */
  function Raw(output: string): ChatResult
  {
    ChatResult(JStr(output), JNull)
  }

  /** `output[output.find("{"):output.rfind("}") + 1]` when `start != -1 and end > start`. */
  function Candidate(output: string): (c: Option<string>)
    ensures c.Some? ==> |c.value| >= 2 && c.value[0] == '{' && c.value[|c.value| - 1] == '}'
  {
    var start := FindChar(output, '{');
    var end := RFindChar(output, '}') + 1;
    if start != -1 && end > start then Some(output[start..end]) else None
  }

  /** The candidate exists exactly when some '}' follows the first '{'; it then runs from the
      first '{' to the last '}' of the output. */
  lemma CandidateSpan(output: string)
    ensures Candidate(output).Some? <==>
      (exists i, j :: 0 <= i < j < |output| && output[i] == '{' && output[j] == '}')
    ensures Candidate(output).Some? ==>
      var start, end := FindChar(output, '{'), RFindChar(output, '}') + 1;
      && 0 <= start < end <= |output|
      && Candidate(output).value == output[start..end]
      && (forall k :: 0 <= k < start ==> output[k] != '{')
      && (forall k :: end <= k < |output| ==> output[k] != '}')
  {
    var start, last := FindChar(output, '{'), RFindChar(output, '}');
    if exists i, j :: 0 <= i < j < |output| && output[i] == '{' && output[j] == '}' {
      var i, j :| 0 <= i < j < |output| && output[i] == '{' && output[j] == '}';
      assert start <= i && last >= j;
    }
    if Candidate(output).Some? {
      assert output[start] == '{' && output[last] == '}';
    }
  }

  /** The inner try block and the except clauses around it: extract the ticket when the output
      carries a JSON object with a "ticket" key; a decode error leaves the output as it is;
      any other parse failure gives the apology. */
  function ExtractResult(output: string, parse: string -> ParseOutcome): (r: ChatResult)
    ensures r.ticket != JNull ==> Contains(output, "{") && Contains(output, "ticket") && Candidate(output).Some?
  {
    if Contains(output, "{") && Contains(output, "ticket") then
      match Candidate(output)
      case None => Raw(output)
      case Some(c) =>
        match parse(c)
        case DecodeError => Raw(output)
        case Failed(e) => ChatResult(JStr(Apology(e)), JNull)
        case Parsed(obj) =>
          if "ticket" in obj then
            ChatResult(if "message" in obj then obj["message"] else JStr(output), obj["ticket"])
          else Raw(output)
    else Raw(output)
  }

  /** Without a '{' or without the word "ticket", the output is the reply unchanged. */
  lemma ExtractWithoutMarkers(output: string, parse: string -> ParseOutcome)
    requires !Contains(output, "{") || !Contains(output, "ticket")
    ensures ExtractResult(output, parse) == Raw(output)
  {
  }

  /** When no '}' follows the first '{', nothing is parsed. */
  lemma ExtractWithoutCandidate(output: string, parse: string -> ParseOutcome)
    requires forall i, j :: 0 <= i < j < |output| && output[i] == '{' ==> output[j] != '}'
    ensures ExtractResult(output, parse) == Raw(output)
  {
    CandidateSpan(output);
  }

  /** A parsed object with a "ticket" key gives that ticket, and its "message" as the reply
      when present, else the whole output. */
  lemma ExtractTicket(output: string, parse: string -> ParseOutcome)
    requires Contains(output, "{") && Contains(output, "ticket") && Candidate(output).Some?
    requires parse(Candidate(output).value).Parsed? && "ticket" in parse(Candidate(output).value).obj
    ensures var obj := parse(Candidate(output).value).obj;
      ExtractResult(output, parse) ==
        ChatResult(if "message" in obj then obj["message"] else JStr(output), obj["ticket"])
  {
  }

  /** Where a ticket comes from: whenever the result carries a non-null ticket, it is the
      "ticket" value of the parsed candidate. */
  lemma ExtractTicketOrigin(output: string, parse: string -> ParseOutcome)
    requires ExtractResult(output, parse).ticket != JNull
    ensures Candidate(output).Some?
    ensures var p := parse(Candidate(output).value);
      p.Parsed? && "ticket" in p.obj && ExtractResult(output, parse).ticket == p.obj["ticket"]
  {
  }

  /** A decode error, or an object without a "ticket" key, leaves the output as the reply. */
  lemma ExtractNoTicketKey(output: string, parse: string -> ParseOutcome)
    requires Candidate(output).Some?
    requires var p := parse(Candidate(output).value); p.DecodeError? || (p.Parsed? && "ticket" !in p.obj)
    ensures ExtractResult(output, parse) == Raw(output)
  {
  }

  /** The reply is the apology when the markers are present and parsing the candidate raised
      something other than a decode error. */
  lemma ExtractApology(output: string, parse: string -> ParseOutcome)
    ensures var r := ExtractResult(output, parse);
      (Contains(output, "{") && Contains(output, "ticket") && Candidate(output).Some?
       && parse(Candidate(output).value).Failed?)
      ==> r == ChatResult(JStr(Apology(parse(Candidate(output).value).error)), JNull)
  {
  }

  /** The whole `chat` result from what the executor did. */
  function ChatOutcome(invocation: Invocation, parse: string -> ParseOutcome): (r: ChatResult)
    ensures invocation.Raised? ==> r == ChatResult(JStr(Apology(invocation.error)), JNull)
    ensures invocation.Output? ==> r == ExtractResult(invocation.output, parse)
  {
    match invocation
    case Raised(e) => ChatResult(JStr(Apology(e)), JNull)
    case Output(o) => ExtractResult(o, parse)
  }

  // ---------------------------------------------------------------------------
  // The simulated stream
  // ---------------------------------------------------------------------------

  /** Word `i` of `ws`, followed by a space unless it is the last word. */
  function StreamChunks(ws: seq<string>): (cs: seq<string>)
    ensures |cs| == |ws|
  {
    seq(|ws|, i requires 0 <= i < |ws| => ws[i] + (if i < |ws| - 1 then " " else ""))
  }

  /** The chunks concatenate to the words joined by single spaces. */
  lemma {:induction false} ConcatStreamChunks(ws: seq<string>)
    ensures Concat(StreamChunks(ws)) == JoinWords(ws)
    decreases |ws|
  {
    var cs := StreamChunks(ws);
    if |ws| == 1 {
      assert cs == [ws[0] + ""];
      assert ws[0] + "" == ws[0];
      assert cs[1..] == [];
    } else if |ws| > 1 {
      var tail := ws[1..];
      assert cs[0] == ws[0] + " ";
      assert cs[1..] == StreamChunks(tail);
      ConcatStreamChunks(tail);
      assert ws[0] + " " + JoinWords(tail) == JoinWords(ws);
    }
  }

  /** The stream of a reply concatenates to its words joined by single spaces, and splitting
      that gives back the words of the reply. */
  lemma StreamResplits(text: string)
    ensures Concat(StreamChunks(Words(text))) == JoinWords(Words(text))
    ensures Words(Concat(StreamChunks(Words(text)))) == Words(text)
  {
    ConcatStreamChunks(Words(text));
    WordsAreWords(text);
    WordsOfJoin(Words(text));
  }

  /** The loop of `chat_stream`: yields word `i` plus a space unless it is the last word. */
  method ChunkWords(words: seq<string>) returns (chunks: seq<string>)
    ensures chunks == StreamChunks(words)
  {
    chunks := [];
    var i := 0;
    while i < |words|
      invariant 0 <= i <= |words|
      invariant |chunks| == i
      invariant forall k :: 0 <= k < i ==> chunks[k] == words[k] + (if k < |words| - 1 then " " else "")
    {
      chunks := chunks + [words[i] + (if i < |words| - 1 then " " else "")];
      i := i + 1;
    }
  }

  // ---------------------------------------------------------------------------
  // The agent object
  // ---------------------------------------------------------------------------

  /** Result of building an agent: the agent, or the configuration error. */
  datatype Creation = Created(agent: StudentSupportAgent) | ConfigError(message: string)

  class StudentSupportAgent {
    /** The requester id every tool call and the prompt receive. */
    const studentId: string
    /** The agent executor: input, history messages and requester id to its outcome. */
    const invoke: (string, seq<Message>, string) -> Invocation
    /** `json.loads` on the extracted candidate. */
    const parse: string -> ParseOutcome

    /** `str(student_id) if student_id else "unknown"`. */
    constructor(studentId: Option<string>, invoke: (string, seq<Message>, string) -> Invocation,
                parse: string -> ParseOutcome)
      ensures this.studentId == NormalizeId(studentId)
      ensures NormalizeId(Some(this.studentId)) == this.studentId
      ensures this.invoke == invoke && this.parse == parse
    {
      this.studentId := NormalizeId(studentId);
      this.invoke := invoke;
      this.parse := parse;
      NormalizeIdIdempotent(studentId);
    }

    /** The constructor refuses to build an agent when the API key is missing or empty. */
    static method Create(studentId: Option<string>, apiKey: Option<string>,
                         invoke: (string, seq<Message>, string) -> Invocation,
                         parse: string -> ParseOutcome) returns (r: Creation)
      ensures r.ConfigError? <==> (apiKey.None? || apiKey.value == "")
      ensures r.ConfigError? ==> r.message == "GEMINI_API_KEY not found in environment variables"
      ensures r.Created? ==> fresh(r.agent) && r.agent.studentId == NormalizeId(studentId)
                             && r.agent.invoke == invoke && r.agent.parse == parse
    {
      if apiKey.None? || apiKey.value == "" {
        return ConfigError("GEMINI_API_KEY not found in environment variables");
      }
      var agent := new StudentSupportAgent(studentId, invoke, parse);
      return Created(agent);
    }

    /** `chat`: converts the history (a missing history is empty), invokes the executor with
        the requester id (normalised once more, which changes nothing for an agent built by
        the constructor), and splits its output into the reply and the ticket. */
    method Chat(message: string, history: Option<seq<HistoryEntry>>) returns (r: ChatResult)
      ensures var h := if history.None? then [] else history.value;
        r == ChatOutcome(invoke(message, ConvertHistory(h), NormalizeId(Some(studentId))), parse)
    {
      var h := if history.None? then [] else history.value;
      var messages: seq<Message> := [];
      var i := 0;
      while i < |h|
        invariant 0 <= i <= |h|
        invariant messages == ConvertHistory(h[..i])
      {
        var entry := h[i];
        ConvertHistoryConcat(h[..i], [entry]);
        assert h[..i + 1] == h[..i] + [entry];
        if entry.role == "user" {
          messages := messages + [Human(entry.content)];
        } else if entry.role == "assistant" {
          messages := messages + [AI(entry.content)];
        }
        i := i + 1;
      }
      assert h[..i] == h;
      var id := NormalizeId(Some(studentId));
      r := ChatOutcome(invoke(message, messages, id), parse);
    }

    /** `chat_stream`: one chunk per word of the reply, each but the last followed by a
        space. A reply that is not a string makes `split` raise, modelled as no stream. */
    method ChatStream(message: string, history: Option<seq<HistoryEntry>>) returns (chunks: Option<seq<string>>)
      ensures var h := if history.None? then [] else history.value;
        var reply := ChatOutcome(invoke(message, ConvertHistory(h), NormalizeId(Some(studentId))), parse).response;
        && (chunks.Some? <==> reply.JStr?)
        && (chunks.Some? ==>
              && chunks.value == StreamChunks(Words(reply.s))
              && Concat(chunks.value) == JoinWords(Words(reply.s))
              && Words(Concat(chunks.value)) == Words(reply.s))
    {
      var result := Chat(message, history);
      if !result.response.JStr? {
        return None;
      }
      var out := ChunkWords(Words(result.response.s));
      StreamResplits(result.response.s);
      chunks := Some(out);
    }
  }
}
