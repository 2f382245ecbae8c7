/** What the application's configuration hands to the LLM components. */
module LlmConfig {
  import opened Wrappers

  /** Opaque handle for a constructed chat model. */
  datatype ChatModel = ChatModel(name: string)

  /**
   * The configured values the LLM components read: the chat model built from
   * the settings (None when construction fails and raises), the language
   * being learned, and the user's mother tongue.
   */
  datatype Settings = Settings(chatModel: Option<ChatModel>, targetLanguage: string, motherTongue: string)
}
