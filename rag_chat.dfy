/**
 * The conversation-memory and readiness logic of the retrieval-augmented chat
 * chain: the per-document database path, the per-session history map, the
 * trimming of the chain's history to its ten most recent messages, and the
 * not-ready guards of `invoke` and `stream`. The vector store, the chat model
 * and the composed chain itself are foreign objects and appear as opaque
 * handles; what the composed chain answers is a caller-supplied function.
 */
module RagChat {
  import opened Wrappers
  import opened LlmConfig

  /** A conversation turn, tagged with its role. */
  datatype Message = Human(text: string) | Ai(text: string) | System(text: string)

  /** Opaque handle for a loaded or freshly built vector store. */
  datatype VectorDb = VectorDb(location: string)

  /** Opaque handle for the composed retrieval chain (history-aware retriever plus answer step). */
  datatype Chain = RetrievalChain(db: VectorDb, chat: ChatModel)

  /** The input record a chain call receives: `{"input": ...}`, plus `"language"` on the streaming path. */
  datatype ChatRequest = ChatRequest(input: string, language: Option<string>)

  /**
   * What the message-history wrapper hands back from a call: the retrieval
   * chain's output record, with the keys "input", "chat_history" and
   * "answer" (the key named by `output_messages_key`). Its "context" entry,
   * the retrieved documents, is not modelled.
   */
  datatype RetrievalOutput = RetrievalOutput(input: string, chatHistory: seq<Message>, answer: string)

  /** How a call that may raise ends: with a value, or with an `AttributeError`. */
  datatype InvokeOutcome = Returned(value: Option<string>) | RaisedAttributeError

  /** One question put to `invoke` and the answer it returned. */
  datatype Exchange = Exchange(input: string, reply: string)

  /** How many messages of history the chain keeps. */
  const MaxHistory: nat := 10

  /** Suffix appended to the digest to name a document's database directory. */
  const DbSuffix: string := "_db"

  // ---------------------------------------------------------------------------
  // Database path

  /**
   * The directory of a document's vector store: the configured folder, a
   * slash, the md5 hex digest of the document's path, then "_db". The digest
   * is a parameter: the model does not compute md5.
   */
  function DatabasePath(folder: string, pdfPath: string, md5Hex: string -> string): (p: string)
    ensures |p| == |folder| + 1 + |md5Hex(pdfPath)| + |DbSuffix|
    ensures p[..|folder|] == folder && p[|folder|] == '/'
    ensures p[|folder| + 1..|p| - |DbSuffix|] == md5Hex(pdfPath)
    ensures p[|p| - |DbSuffix|..] == DbSuffix
  {
    var fileName := md5Hex(pdfPath) + DbSuffix;
    folder + "/" + fileName
  }

  /** Recovers the digest from a database path under `folder`: the inverse of DatabasePath. */
  function DigestOf(folder: string, path: string): (d: string)
    requires |path| >= |folder| + 1 + |DbSuffix|
    ensures |d| == |path| - |folder| - 1 - |DbSuffix|
  {
    path[|folder| + 1..|path| - |DbSuffix|]
  }

  /** Under one folder, the path names exactly the digest: it can be read back from the path. */
  lemma DigestRoundTrip(folder: string, pdfPath: string, md5Hex: string -> string)
    ensures DigestOf(folder, DatabasePath(folder, pdfPath, md5Hex)) == md5Hex(pdfPath)
  {
  }

  /**
   * Under one folder, the database directory and the digest determine each
   * other: two documents share a directory exactly when their digests agree,
   * so in particular the same path always gives the same directory. (Whether
   * distinct paths have distinct digests is a property of md5, which the
   * model does not compute.)
   */
  lemma DatabasePathDeterminedByDigest(folder: string, a: string, b: string, md5Hex: string -> string)
    ensures DatabasePath(folder, a, md5Hex) == DatabasePath(folder, b, md5Hex) <==> md5Hex(a) == md5Hex(b)
  {
    if DatabasePath(folder, a, md5Hex) == DatabasePath(folder, b, md5Hex) {
      DigestRoundTrip(folder, a, md5Hex);
      DigestRoundTrip(folder, b, md5Hex);
    }
  }

  // ---------------------------------------------------------------------------
  // History trimming, as values

  /** `a` is `b` with some leading elements dropped. */
  ghost predicate IsSuffix<T>(a: seq<T>, b: seq<T>)
  {
    |a| <= |b| && a == b[|b| - |a|..]
  }

  /** The history that trimming leaves: unchanged up to MaxHistory messages, else the MaxHistory most recent. */
  function Trimmed(h: seq<Message>): (r: seq<Message>)
    ensures |r| == if |h| <= MaxHistory then |h| else MaxHistory
    ensures IsSuffix(r, h)
  {
    if |h| <= MaxHistory then h else h[|h| - MaxHistory..]
  }

  /**
   * Trimming evicts the oldest messages only: the history is the dropped
   * prefix followed by the kept messages, and trimming again changes nothing.
   */
  lemma TrimmedEvictsOldest(h: seq<Message>)
    ensures h == h[..|h| - |Trimmed(h)|] + Trimmed(h)
    ensures |Trimmed(h)| <= MaxHistory
    ensures Trimmed(Trimmed(h)) == Trimmed(h)
  {
  }

  /**
   * What one successful `invoke` does to the chain's history: trim it, then
   * the message-history wrapper appends the question and the answer.
   */
  function AfterTurn(h: seq<Message>, e: Exchange): (r: seq<Message>)
    ensures |r| == |Trimmed(h)| + 2 && 2 <= |r| <= MaxHistory + 2
    ensures IsSuffix(r, h + [Human(e.input), Ai(e.reply)])
    ensures r[|r| - 2..] == [Human(e.input), Ai(e.reply)]
  {
    var t := Trimmed(h);
    assert (h + [Human(e.input), Ai(e.reply)])[|h| - |t|..] == h[|h| - |t|..] + [Human(e.input), Ai(e.reply)];
    t + [Human(e.input), Ai(e.reply)]
  }

  /** The chain's history after a run of successful `invoke` calls; it always ends with the last exchange. */
  function Conversation(h: seq<Message>, turns: seq<Exchange>): (r: seq<Message>)
    ensures turns != [] ==>
      |r| >= 2 && r[|r| - 2..] == [Human(turns[|turns| - 1].input), Ai(turns[|turns| - 1].reply)]
    decreases |turns|
  {
    if turns == [] then h else Conversation(AfterTurn(h, turns[0]), turns[1..])
  }

  /** Every message ever exchanged, with nothing trimmed. */
  function Transcript(h: seq<Message>, turns: seq<Exchange>): seq<Message>
    decreases |turns|
  {
    if turns == [] then h else Transcript(h + [Human(turns[0].input), Ai(turns[0].reply)], turns[1..])
  }

  /** Every exchange adds two messages to the transcript. */
  lemma {:induction false} TranscriptLength(h: seq<Message>, turns: seq<Exchange>)
    ensures |Transcript(h, turns)| == |h| + 2 * |turns|
    decreases |turns|
  {
    if turns != [] {
      TranscriptLength(h + [Human(turns[0].input), Ai(turns[0].reply)], turns[1..]);
    }
  }

  lemma SuffixTransitive<T>(a: seq<T>, b: seq<T>, c: seq<T>)
    requires IsSuffix(a, b) && IsSuffix(b, c)
    ensures IsSuffix(a, c)
  {
    assert c[|c| - |b|..][|b| - |a|..] == c[|c| - |a|..];
  }

  lemma {:induction false} TranscriptKeepsSuffix(a: seq<Message>, b: seq<Message>, turns: seq<Exchange>)
    requires IsSuffix(a, b)
    ensures IsSuffix(Transcript(a, turns), Transcript(b, turns))
    decreases |turns|
  {
    if turns != [] {
      var x := [Human(turns[0].input), Ai(turns[0].reply)];
      assert (b + x)[|b + x| - |a + x|..] == b[|b| - |a|..] + x;
      TranscriptKeepsSuffix(a + x, b + x, turns[1..]);
    }
  }

  /**
   * Conversational memory stays bounded and keeps the most recent messages:
   * after any non-empty run of `invoke` calls the history is exactly the
   * last min(|transcript|, MaxHistory + 2) messages of the untrimmed
   * transcript.
   */
  lemma {:induction false} ConversationBounded(h: seq<Message>, turns: seq<Exchange>)
    ensures IsSuffix(Conversation(h, turns), Transcript(h, turns))
    ensures turns != [] ==>
      |Conversation(h, turns)| ==
        if |Transcript(h, turns)| <= MaxHistory + 2 then |Transcript(h, turns)| else MaxHistory + 2
    decreases |turns|
  {
    if turns != [] {
      var e := turns[0];
      var x := [Human(e.input), Ai(e.reply)];
      var next := AfterTurn(h, e);
      ConversationBounded(next, turns[1..]);
      TranscriptLength(h, turns);
      TranscriptLength(next, turns[1..]);
      TranscriptKeepsSuffix(next, h + x, turns[1..]);
      SuffixTransitive(Conversation(next, turns[1..]), Transcript(next, turns[1..]), Transcript(h + x, turns[1..]));
    }
  }

  // ---------------------------------------------------------------------------
  // State updated in place

  /** The chat library's in-memory history object: a message list updated in place. */
  class ChatMessageHistory {
    var messages: seq<Message>

    constructor ()
      ensures messages == []
    {
      messages := [];
    }

    /** Rebinds the list to a new empty one; a caller holding the old list keeps it. */
    method Clear()
      modifies this
      ensures messages == []
    {
      messages := [];
    }

    method AddMessage(m: Message)
      modifies this
      ensures messages == old(messages) + [m]
    {
      messages := messages + [m];
    }
  }

  class ChatRagChain {
    var databasePath: string
    var storedMessages: map<string, ChatMessageHistory>
    var db: Option<VectorDb>
    var chat: Option<ChatModel>
    var language: string
    var ragChain: Option<Chain>
    /** The one history the composed chain reads and writes, whatever the session id. */
    var chatHistory: ChatMessageHistory?
    var chainWithMessageHistory: Option<Chain>
    var chainWithTrimming: Option<Chain>

    /** A chain handle is only ever present together with the history it uses. */
    ghost predicate Valid()
      reads this
    {
      (chainWithTrimming.Some? || chainWithMessageHistory.Some?) ==> chatHistory != null
    }

    constructor (folder: string, pdfPath: string, md5Hex: string -> string)
      ensures Valid()
      ensures databasePath == DatabasePath(folder, pdfPath, md5Hex)
      ensures storedMessages == map[]
      ensures db == None && chat == None && ragChain == None
      ensures chatHistory == null && chainWithMessageHistory == None && chainWithTrimming == None
    {
      databasePath := DatabasePath(folder, pdfPath, md5Hex);
      storedMessages := map[];
      db := None;
      chat := None;
      language := "";
      ragChain := None;
      chatHistory := null;
      chainWithMessageHistory := None;
      chainWithTrimming := None;
    }

    /**
     * Rebuilds the chain after a configuration change. `embedded` is the
     * store the database step produced (None when it failed) and
     * `settings.chatModel` the chat model (None when building it raised).
     * On either failure the chain handles stay as they were.
     */
    method CreateChatChain(embedded: Option<VectorDb>, settings: Settings)
      requires Valid()
      modifies this
      ensures Valid()
      ensures databasePath == old(databasePath) && storedMessages == old(storedMessages)
      ensures db == embedded
      ensures embedded.None? ==>
        chat == old(chat) && language == old(language) && ragChain == old(ragChain) &&
        chatHistory == old(chatHistory) &&
        chainWithMessageHistory == old(chainWithMessageHistory) && chainWithTrimming == old(chainWithTrimming)
      ensures embedded.Some? && settings.chatModel.None? ==>
        chat == old(chat) && language == old(language) && ragChain == None &&
        chatHistory == old(chatHistory) &&
        chainWithMessageHistory == old(chainWithMessageHistory) && chainWithTrimming == old(chainWithTrimming)
      ensures embedded.Some? && settings.chatModel.Some? ==>
        var c := RetrievalChain(embedded.value, settings.chatModel.value);
        chat == settings.chatModel && language == settings.targetLanguage && ragChain == Some(c) &&
        chatHistory != null && fresh(chatHistory) && chatHistory.messages == [] &&
        chainWithMessageHistory == Some(c) && chainWithTrimming == Some(c)
    {
      db := embedded;
      if embedded.None? {
        return;
      }
      ragChain := None;
      if settings.chatModel.None? {
        return;
      }
      chat := settings.chatModel;
      language := settings.targetLanguage;
      var c := RetrievalChain(embedded.value, settings.chatModel.value);
      ragChain := Some(c);
      chatHistory := new ChatMessageHistory();
      chainWithMessageHistory := Some(c);
      chainWithTrimming := Some(c);
    }

    /**
     * The history of a session: created empty the first time its id is
     * seen, the stored one afterwards.
     */
    method GetSessionHistory(sessionId: string) returns (h: ChatMessageHistory)
      modifies this`storedMessages
      ensures sessionId in old(storedMessages) ==>
        h == old(storedMessages)[sessionId] && storedMessages == old(storedMessages)
      ensures sessionId !in old(storedMessages) ==>
        fresh(h) && h.messages == [] && storedMessages == old(storedMessages)[sessionId := h]
    {
      if sessionId !in storedMessages {
        var created := new ChatMessageHistory();
        storedMessages := storedMessages[sessionId := created];
      }
      h := storedMessages[sessionId];
    }

    /**
     * Cuts the chain's history down to its MaxHistory most recent messages,
     * in order, by clearing it and adding those back one at a time; reports
     * whether anything was cut.
     */
    method TrimMessages() returns (trimmed: bool)
      requires chatHistory != null
      modifies chatHistory
      ensures trimmed <==> |old(chatHistory.messages)| > MaxHistory
      ensures chatHistory.messages == Trimmed(old(chatHistory.messages))
    {
      var stored := chatHistory.messages;
      if |stored| <= MaxHistory {
        return false;
      }
      chatHistory.Clear();
      var recent := stored[|stored| - MaxHistory..];
      var i := 0;
      while i < |recent|
        invariant 0 <= i <= |recent|
        invariant chatHistory.messages == recent[..i]
      {
        chatHistory.AddMessage(recent[i]);
        i := i + 1;
      }
      return true;
    }

    /**
     * One call of the ready trimming chain: the history is trimmed, the chain
     * answers from the trimmed history and the `{"input": message}` record,
     * and the message-history wrapper appends the question and the answer.
     * `answer` stands for the foreign chain.
     */
    method CallTrimmingChain(message: string, answer: (Chain, seq<Message>, ChatRequest) -> string)
      returns (output: RetrievalOutput)
      requires chainWithTrimming.Some? && chatHistory != null
      modifies chatHistory
      ensures output.input == message && output.chatHistory == Trimmed(old(chatHistory.messages))
      ensures output.answer == answer(chainWithTrimming.value, Trimmed(old(chatHistory.messages)), ChatRequest(message, None))
      ensures chatHistory.messages == AfterTurn(old(chatHistory.messages), Exchange(message, output.answer))
    {
      ghost var before := chatHistory.messages;
      var _ := TrimMessages();
      var seen := chatHistory.messages;
      var reply := answer(chainWithTrimming.value, seen, ChatRequest(message, None));
      chatHistory.AddMessage(Human(message));
      chatHistory.AddMessage(Ai(reply));
      assert chatHistory.messages == Trimmed(before) + [Human(message), Ai(reply)];
      output := RetrievalOutput(message, seen, reply);
    }

    /**
     * `invoke` as the source writes it. Not ready: returns None and touches
     * nothing. Ready: the chain runs and the exchange is recorded, but the
     * result is then read through `.content`, which the output record does
     * not have, so the call raises.
     */
    method InvokeAsWritten(message: string, answer: (Chain, seq<Message>, ChatRequest) -> string)
      returns (r: InvokeOutcome)
      requires Valid()
      modifies chatHistory
      ensures chainWithTrimming.None? ==>
        r == Returned(None) && (chatHistory != null ==> chatHistory.messages == old(chatHistory.messages))
      ensures chainWithTrimming.Some? ==>
        var reply := answer(chainWithTrimming.value, Trimmed(old(chatHistory.messages)), ChatRequest(message, None));
        r == RaisedAttributeError && chatHistory.messages == AfterTurn(old(chatHistory.messages), Exchange(message, reply))
    {
      if chainWithTrimming.None? {
        return Returned(None);
      }
      var output := CallTrimmingChain(message, answer);
      // `output` is a record without a `content` attribute.
      r := RaisedAttributeError;
    }

    /**
     * `invoke` as intended. Not ready (no trimming chain): None, and neither
     * the chain nor the history is touched. Ready: the answer the chain gave
     * from the trimmed history, read from the record's "answer" entry, with
     * the exchange appended to the history.
     */
    method Invoke(message: string, answer: (Chain, seq<Message>, ChatRequest) -> string) returns (r: Option<string>)
      requires Valid()
      modifies chatHistory
      ensures Valid()
      ensures r.None? <==> chainWithTrimming.None?
      ensures chainWithTrimming.None? && chatHistory != null ==> chatHistory.messages == old(chatHistory.messages)
      ensures chainWithTrimming.Some? ==>
        var reply := answer(chainWithTrimming.value, Trimmed(old(chatHistory.messages)), ChatRequest(message, None));
        r == Some(reply) && chatHistory.messages == AfterTurn(old(chatHistory.messages), Exchange(message, reply))
    {
      if chainWithTrimming.None? {
        return None;
      }
      var output := CallTrimmingChain(message, answer);
      r := Some(output.answer);
    }

    /**
     * Starts a streamed answer. Not ready (no message-history chain): None.
     * Ready: the fragments the chain produces for the current history, the
     * question and the target language. The history is not trimmed here.
     */
    method Stream(message: string, fragments: (Chain, seq<Message>, ChatRequest) -> seq<string>) returns (r: Option<seq<string>>)
      requires Valid()
      ensures r.None? <==> chainWithMessageHistory.None?
      ensures chainWithMessageHistory.Some? ==>
        r == Some(fragments(chainWithMessageHistory.value, chatHistory.messages, ChatRequest(message, Some(language))))
    {
      if chainWithMessageHistory.None? {
        return None;
      }
      r := Some(fragments(chainWithMessageHistory.value, chatHistory.messages, ChatRequest(message, Some(language))));
    }
  }

  /**
   * A concrete run showing the as-written `invoke` failing: after one
   * successful build, asking "hi" raises, although the exchange has already
   * been recorded; the intended `invoke` returns the answer.
   */
  method InvokeAsWrittenRaisesAfterBuild() returns (written: InvokeOutcome, intended: Option<string>)
    ensures written == RaisedAttributeError
    ensures intended == Some("hello")
  {
    var answer := (c: Chain, h: seq<Message>, q: ChatRequest) => "hello";
    var rag := new ChatRagChain("db", "doc.pdf", (p: string) => "0123");
    rag.CreateChatChain(Some(VectorDb("db/0123_db")), Settings(Some(ChatModel("model")), "English", "Chinese"));
    written := rag.InvokeAsWritten("hi", answer);
    assert rag.chatHistory.messages == [Human("hi"), Ai("hello")];
    intended := rag.Invoke("hi", answer);
  }
}
