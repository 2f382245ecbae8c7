/**
 * The explain worker: a background unit that builds a prompt-plus-chat-model
 * chain for one explain request, picks the language the answer is to be
 * written in, and then delivers the model's output through a callback,
 * checking a `quit` flag before every delivery (cooperative cancellation).
 *
 * Threads are not modelled. The moment at which another thread calls
 * `Stop` is an input to `Run`: `stopAt == Some(k)` means the call lands just
 * before the k-th check of the flag (counting from 0), `None` that it does
 * not land during the run. What the chain produces is a caller-supplied
 * function of the chain and the request.
 */
module ExplainWorker {
  import opened Wrappers
  import opened LlmConfig

  /** The explain-mode variant: answer in the language being learned, or in the mother tongue. */
  datatype ExplainLanguage = TargetLanguage | MotherTongue

  /** Opaque handle for the prompt (selected by variant) piped into the chat model. */
  datatype ExplainChain = ExplainChain(promptFor: ExplainLanguage, chat: ChatModel)

  /** The request record handed to the chain. */
  datatype ExplainRequest = ExplainRequest(word: string, data: string, language: string, answerLanguage: string)

  // ---------------------------------------------------------------------------
  // What a run delivers, as values

  /** The stop point as seen from the next chunk on. */
  function Later(stopAt: Option<nat>): Option<nat>
  {
    match stopAt
    case None => None
    case Some(k) => if k == 0 then None else Some(k - 1)
  }

  /**
   * Reference definition of the streaming loop, one chunk at a time: a chunk
   * is delivered unless the flag is already up or the stop lands before its
   * check, and the first such chunk ends the run. Whatever is delivered is a
   * leading part of the chunks, in their order.
   */
  function StreamEmissions(chunks: seq<string>, quit: bool, stopAt: Option<nat>): (r: seq<string>)
    ensures |r| <= |chunks| && r == chunks[..|r|]
    decreases |chunks|
  {
    if chunks == [] then []
    else if quit || stopAt == Some(0) then []
    else [chunks[0]] + StreamEmissions(chunks[1..], false, Later(stopAt))
  }

  /** How many chunks get through: none if the flag was up already, else those before the stop point. */
  function CutPoint(n: nat, quit: bool, stopAt: Option<nat>): (k: nat)
    ensures k <= n
    ensures quit ==> k == 0
    ensures !quit && stopAt.None? ==> k == n
    ensures !quit && stopAt.Some? ==> k == if stopAt.value < n then stopAt.value else n
  {
    if quit then 0
    else match stopAt
      case None => n
      case Some(s) => if s < n then s else n
  }

  /**
   * The streamed deliveries are exactly the chunks before the first one at
   * which the flag is seen up, in order.
   */
  lemma {:induction false} StreamEmissionsPrefix(chunks: seq<string>, quit: bool, stopAt: Option<nat>)
    ensures StreamEmissions(chunks, quit, stopAt) == chunks[..CutPoint(|chunks|, quit, stopAt)]
    decreases |chunks|
  {
    if chunks != [] && !quit && stopAt != Some(0) {
      var rest := chunks[1..];
      StreamEmissionsPrefix(rest, false, Later(stopAt));
      var k := CutPoint(|rest|, false, Later(stopAt));
      assert CutPoint(|chunks|, quit, stopAt) == k + 1;
      assert chunks[..k + 1] == [chunks[0]] + rest[..k];
    }
  }

  /** If stop is never called and the flag is down, every chunk is delivered. */
  lemma NeverStoppedEmitsAll(chunks: seq<string>)
    ensures StreamEmissions(chunks, false, None) == chunks
  {
    StreamEmissionsPrefix(chunks, false, None);
  }

  /**
   * Cancellation is final: with the flag up nothing is delivered, and once
   * the stop has landed at check k, no chunk produced from there on is
   * delivered, however many more the model goes on to produce.
   */
  lemma CancellationIsFinal(chunks: seq<string>, more: seq<string>, quit: bool, k: nat)
    requires k <= |chunks|
    ensures StreamEmissions(chunks + more, true, Some(k)) == []
    ensures StreamEmissions(chunks + more, quit, Some(k)) == StreamEmissions(chunks, quit, Some(k))
    ensures |StreamEmissions(chunks, quit, Some(k))| <= k
  {
    StreamEmissionsPrefix(chunks + more, true, Some(k));
    StreamEmissionsPrefix(chunks + more, quit, Some(k));
    StreamEmissionsPrefix(chunks, quit, Some(k));
    assert (chunks + more)[..CutPoint(|chunks|, quit, Some(k))] == chunks[..CutPoint(|chunks|, quit, Some(k))];
  }

  /**
   * Reference definition of the single-shot path: the full answer once,
   * unless the flag was up already or the stop lands while the answer is
   * being produced.
   */
  function SingleShotEmissions(reply: string, quit: bool, stopAt: Option<nat>): (r: seq<string>)
    ensures r == [reply] <==> !quit && stopAt != Some(0)
    ensures r != [reply] ==> r == []
  {
    if quit || stopAt == Some(0) then [] else [reply]
  }

  // ---------------------------------------------------------------------------
  // The worker

  class ExplainWorkerThread {
    var chain: Option<ExplainChain>
    var stream: bool
    var languageType: ExplainLanguage
    var chat: Option<ChatModel>
    var targetLanguage: string
    var answerLanguage: string
    /** The request record; absent when the chat model could not be built. */
    var msg: Option<ExplainRequest>
    var quit: bool
    /** Every value delivered through the message callback, in order. */
    var emitted: seq<string>

    /** A chain is only ever present together with the request it is run on. */
    ghost predicate Valid()
      reads this
    {
      chain.Some? ==> msg.Some?
    }

    /**
     * The worker for one explain request. The configuration the source reads
     * from its global settings object is passed in as `settings`; streaming
     * is the default, as in the source.
     */
    constructor (settings: Settings, selectedText: string, allText: string, languageType: ExplainLanguage, stream: bool := true)
      ensures Valid()
      ensures this.stream == stream && this.languageType == languageType
      ensures !quit && emitted == []
      ensures settings.chatModel.None? ==> chain == None && chat == None && msg == None
      ensures settings.chatModel.Some? ==>
        chain == Some(ExplainChain(languageType, settings.chatModel.value)) && chat == settings.chatModel &&
        targetLanguage == settings.targetLanguage &&
        answerLanguage == (if languageType == TargetLanguage then settings.targetLanguage else settings.motherTongue) &&
        msg == Some(ExplainRequest(selectedText, allText, settings.targetLanguage, answerLanguage))
    {
      chain := None;
      this.stream := stream;
      this.languageType := languageType;
      chat := None;
      msg := None;
      new;
      CreateExplainChain(settings);
      if chain.Some? {
        msg := Some(ExplainRequest(selectedText, allText, targetLanguage, answerLanguage));
      }
      quit := false;
      emitted := [];
    }

    /**
     * Builds the chain for the worker's variant. When the chat model cannot be
     * built nothing is set. Otherwise the answer language is the target
     * language for the target-language variant and the mother tongue for any
     * other, and the chain pipes the variant's prompt into the chat model.
     */
    method CreateExplainChain(settings: Settings)
      modifies this`chat, this`targetLanguage, this`answerLanguage, this`chain
      ensures settings.chatModel.None? ==>
        chat == old(chat) && targetLanguage == old(targetLanguage) &&
        answerLanguage == old(answerLanguage) && chain == old(chain)
      ensures settings.chatModel.Some? ==>
        chat == settings.chatModel && targetLanguage == settings.targetLanguage &&
        chain == Some(ExplainChain(languageType, settings.chatModel.value))
      ensures settings.chatModel.Some? && languageType == TargetLanguage ==> answerLanguage == settings.targetLanguage
      ensures settings.chatModel.Some? && languageType != TargetLanguage ==> answerLanguage == settings.motherTongue
    {
      if settings.chatModel.None? {
        return;
      }
      chat := settings.chatModel;
      targetLanguage := settings.targetLanguage;
      if languageType == TargetLanguage {
        answerLanguage := targetLanguage;
      } else {
        answerLanguage := settings.motherTongue;
      }
      chain := Some(ExplainChain(languageType, settings.chatModel.value));
    }

    /** Requests cancellation: raises the flag and touches nothing else. */
    method Stop()
      modifies this`quit
      ensures quit
    {
      quit := true;
    }

    /** Delivers one value through the message callback. */
    method EmitMessage(text: string)
      modifies this`emitted
      ensures emitted == old(emitted) + [text]
    {
      emitted := emitted + [text];
    }

    /**
     * Runs the request. Without a chain nothing is delivered. Streaming: the
     * chunks are delivered in order, the flag checked before each, and the
     * run ends at the first check that finds it up. Single-shot: the full
     * answer is delivered once if the flag is down after it is produced.
     */
    method Run(produceStream: (ExplainChain, ExplainRequest) -> seq<string>,
               produceReply: (ExplainChain, ExplainRequest) -> string,
               stopAt: Option<nat>)
      requires Valid()
      modifies this`quit, this`emitted
      ensures chain.None? ==> emitted == old(emitted) && quit == old(quit)
      ensures chain.Some? && stream ==>
        var chunks := produceStream(chain.value, msg.value);
        emitted == old(emitted) + StreamEmissions(chunks, old(quit), stopAt) &&
        quit == (old(quit) || (stopAt.Some? && stopAt.value < |chunks|))
      ensures chain.Some? && !stream ==>
        emitted == old(emitted) + SingleShotEmissions(produceReply(chain.value, msg.value), old(quit), stopAt) &&
        quit == (old(quit) || stopAt == Some(0))
    {
      if chain.None? {
        return;
      }
      if stream {
        var chunks := produceStream(chain.value, msg.value);
        StreamEmissionsPrefix(chunks, quit, stopAt);
        var i := 0;
        while i < |chunks|
          invariant 0 <= i <= |chunks|
          invariant emitted == old(emitted) + chunks[..i]
          invariant quit == old(quit)
          invariant i > 0 ==> !old(quit)
          invariant stopAt.Some? ==> i <= stopAt.value
        {
          if stopAt == Some(i) {
            Stop();
          }
          if quit {
            return;
          }
          EmitMessage(chunks[i]);
          i := i + 1;
        }
      } else {
        var content := produceReply(chain.value, msg.value);
        if stopAt == Some(0) {
          Stop();
        }
        if quit {
          return;
        }
        EmitMessage(content);
      }
    }
  }
}
