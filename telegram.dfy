/**
 * `sendTelegramMessage`: from the configuration and a message text, the
 * HTTP request the service would POST, or nothing when it skips sending.
 * The POST and the handling of its reply are logging only and are not modelled.
 */
module Telegram {
  import opened Wrappers
  import opened JsValues

  /** `TELEGRAM_API_URL`, `TELEGRAM_BOT_TOKEN` and `TELEGRAM_CHAT_ID`, each possibly unset. */
  datatype TelegramConfig = TelegramConfig(apiUrl: Option<string>, botToken: Option<string>, chatId: Option<string>)

  /** The POST: its URL and the `chat_id` and `text` of its payload. */
  datatype TelegramRequest = TelegramRequest(url: string, chatId: Option<string>, text: string)

  function RequestFor(cfg: TelegramConfig, text: string): (q: TelegramRequest)
    ensures q.url == TemplateText(cfg.apiUrl) + TemplateText(cfg.botToken) + "/sendMessage"
    ensures q.chatId == cfg.chatId && q.text == text
  {
    TelegramRequest(TemplateText(cfg.apiUrl) + TemplateText(cfg.botToken) + "/sendMessage", cfg.chatId, text)
  }

  /**
   * For one API URL, the request URL determines the rendered token: two
   * configurations posting to the same URL carry the same token text.
   */
  lemma RequestUrlDeterminesToken(cfg1: TelegramConfig, cfg2: TelegramConfig, text1: string, text2: string)
    requires cfg1.apiUrl == cfg2.apiUrl
    requires RequestFor(cfg1, text1).url == RequestFor(cfg2, text2).url
    ensures TemplateText(cfg1.botToken) == TemplateText(cfg2.botToken)
  {
    var api := TemplateText(cfg1.apiUrl);
    var t1, t2 := TemplateText(cfg1.botToken), TemplateText(cfg2.botToken);
    assert |t1| == |t2|;
    assert (api + t1 + "/sendMessage")[|api|..|api| + |t1|] == t1;
    assert (api + t2 + "/sendMessage")[|api|..|api| + |t2|] == t2;
  }

  /**
   * The guard as written: it skips only when the token AND the chat id are
   * both missing, so a configuration missing just one still posts.
   */
  function SendAsWritten(cfg: TelegramConfig, text: string): (r: Option<TelegramRequest>)
    ensures r.None? <==> !Truthy(cfg.botToken) && !Truthy(cfg.chatId)
    ensures r.Some? ==> r.value == RequestFor(cfg, text)
  {
    if !Truthy(cfg.botToken) && !Truthy(cfg.chatId) then None else Some(RequestFor(cfg, text))
  }

  /** A token without a chat id gets past the guard and posts with no `chat_id`. */
  lemma SendAsWrittenPostsWithoutChatId()
    ensures var r := SendAsWritten(TelegramConfig(Some("https://api.telegram.org/bot"), Some("token"), None), "hi");
      r.Some? && r.value.chatId.None?
  {
  }

  /**
   * The guard as its own log line describes it ("Bot Token or Chat ID is
   * missing, skipping message"): skip when either one is missing.
   */
  function Send(cfg: TelegramConfig, text: string): (r: Option<TelegramRequest>)
    ensures r.Some? <==> Truthy(cfg.botToken) && Truthy(cfg.chatId)
    ensures r.Some? ==> r.value == RequestFor(cfg, text)
  {
    if !Truthy(cfg.botToken) || !Truthy(cfg.chatId) then None else Some(RequestFor(cfg, text))
  }

  /** Every request the corrected guard lets through names a chat. */
  lemma SendAlwaysNamesChat(cfg: TelegramConfig, text: string)
    requires Send(cfg, text).Some?
    ensures Send(cfg, text).value.chatId.Some? && Send(cfg, text).value.chatId.value != ""
  {
  }

  /** The two guards agree exactly on the configurations where both or neither value is set. */
  lemma GuardsAgreeWhenBothOrNeither(cfg: TelegramConfig, text: string)
    requires Truthy(cfg.botToken) == Truthy(cfg.chatId)
    ensures Send(cfg, text) == SendAsWritten(cfg, text)
  {
  }
}
