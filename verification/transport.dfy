/** Transport selection at startup (progrev_bot.py:276-288): with a non-empty
    WEBHOOK_URL the bot registers `<base without trailing slashes>/webhook`
    with Telegram (push mode); otherwise it falls back to long polling (pull
    mode). */
module Transport {
  import opened Optional

  /** The delivery mode chosen at startup. */
  datatype Mode = Push(url: string) | Pull

  /** The path the webhook endpoint is served on. */
  const WEBHOOK_PATH: string := "/webhook"

  /** Python's `s.rstrip('/')`: `s` without its trailing run of slashes. */
  function RStripSlash(s: string): (r: string)
    ensures |r| <= |s| && r == s[..|r|]
    ensures r == [] || r[|r| - 1] != '/'
    ensures forall i :: |r| <= i < |s| ==> s[i] == '/'
    decreases |s|
  {
    if s != [] && s[|s| - 1] == '/' then RStripSlash(s[..|s| - 1]) else s
  }

  /** The three properties above pin `rstrip('/')` down: any prefix of `s` that
      does not end in a slash and leaves only slashes behind is its result. */
  lemma RStripSlashUnique(s: string, r: string)
    requires |r| <= |s| && r == s[..|r|]
    requires r == [] || r[|r| - 1] != '/'
    requires forall i :: |r| <= i < |s| ==> s[i] == '/'
    ensures r == RStripSlash(s)
  {
  }

  /** The callback URL registered in push mode. It ends in "/webhook", and what
      precedes that is the configured base with its trailing slashes removed. */
  function WebhookUrl(base: string): (url: string)
    ensures |url| >= |WEBHOOK_PATH| && url[|url| - |WEBHOOK_PATH|..] == WEBHOOK_PATH
    ensures var stem := url[..|url| - |WEBHOOK_PATH|];
      && |stem| <= |base| && stem == base[..|stem|]
      && (stem == [] || stem[|stem| - 1] != '/')
      && (forall i :: |stem| <= i < |base| ==> base[i] == '/')
  {
    var stem := RStripSlash(base);
    assert (stem + WEBHOOK_PATH)[..|stem|] == stem;
    stem + WEBHOOK_PATH
  }

  /** Trailing slashes on the configured base do not change the URL, and the
      URL is never built on a base that still ends in a slash. */
  lemma {:induction false} WebhookUrlIgnoresTrailingSlash(base: string)
    ensures WebhookUrl(base + "/") == WebhookUrl(base)
    ensures RStripSlash(RStripSlash(base)) == RStripSlash(base)
  {
    assert (base + "/")[..|base + "/"| - 1] == base;
    var t := RStripSlash(base);
    RStripSlashUnique(t, t);
  }

  /** `lifespan` startup: push mode exactly when WEBHOOK_URL is set and
      non-empty (Python truthiness), pull mode otherwise. */
  function SelectMode(webhookUrl: Option<string>): (m: Mode)
    ensures m.Push? <==> webhookUrl.Some? && webhookUrl.value != ""
    ensures m.Push? ==>
      && |m.url| >= |WEBHOOK_PATH|
      && m.url[|m.url| - |WEBHOOK_PATH|..] == WEBHOOK_PATH
      && m.url[..|m.url| - |WEBHOOK_PATH|] == RStripSlash(webhookUrl.value)
  {
    if webhookUrl.Some? && webhookUrl.value != "" then
      var url := WebhookUrl(webhookUrl.value);
      assert url[..|url| - |WEBHOOK_PATH|] == RStripSlash(webhookUrl.value);
      Push(url)
    else Pull
  }

  /** A configured base with or without a trailing slash selects the same
      mode and registers the same URL. A base made only of slashes still
      selects push mode, with the bare path as its URL. */
  lemma {:induction false} SelectModeIgnoresTrailingSlash(u: string)
    ensures u != "" ==> SelectMode(Some(u + "/")) == SelectMode(Some(u))
    ensures SelectMode(Some("/")) == Push(WEBHOOK_PATH)
  {
    WebhookUrlIgnoresTrailingSlash(u);
    assert RStripSlash("/") == RStripSlash("/"[..0]);
    assert "/"[..0] == [];
  }
}
