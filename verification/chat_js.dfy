/**
 * The JavaScript commands the in-app chat sends to its web view
 * (Classes/Chat/ChatJSWrapper.swift).
 *
 * The JSON encoder is a parameter: given `s` it returns the UTF-8 text of
 * the JSON encoding of the one-element array `[s]`, or None when that text
 * cannot be decoded. The web view is a log of the scripts handed to it and
 * of the values each command's completion was called with.
 */
module ChatJS {
  import opened Wrappers

  // ---------------------------------------------------------------------
  // Multi-thread strategy

  /** `MMChatMultiThreadStrategy`. */
  datatype MultiThreadStrategy = ACTIVE | ALL

  function StringValue(s: MultiThreadStrategy): (r: string)
    ensures s.ACTIVE? <==> r == "ACTIVE"
    ensures s.ALL? <==> r == "ALL"
  {
    match s
    case ACTIVE => "ACTIVE"
    case ALL => "ALL"
  }

  function StrategyRawValue(s: MultiThreadStrategy): (raw: int)
    ensures s == ACTIVE <==> raw == 0
    ensures s == ALL <==> raw == 1
  {
    match s
    case ACTIVE => 0
    case ALL => 1
  }

  /** `MMChatMultiThreadStrategy(rawValue:)`. */
  function StrategyFromRawValue(raw: int): (r: Option<MultiThreadStrategy>)
    ensures r.Some? <==> raw == 0 || raw == 1
    ensures r.Some? ==> StrategyRawValue(r.value) == raw
  {
    if raw == 0 then Some(ACTIVE) else if raw == 1 then Some(ALL) else None
  }

  lemma StrategyRoundTrip(s: MultiThreadStrategy)
    ensures StrategyFromRawValue(StrategyRawValue(s)) == Some(s)
  {
  }

  // ---------------------------------------------------------------------
  // Escaping

  /**
   * The encoder: the JSON text of `[s]`. Any JSON array text has at least
   * its two brackets, which is what `javaScriptEscapedString` relies on when
   * it cuts them off.
   */
  type Encoder = f: string -> Option<string> | forall s :: f(s).Some? ==> 2 <= |f(s).value|
    witness (s: string) => None

  /** `javaScriptEscapedString`: the encoding of `[s]` without its first and last characters. */
  function JavaScriptEscapedString(s: string, encode: Encoder): (r: Option<string>)
    ensures r.Some? <==> encode(s).Some?
    ensures r.Some? ==> var e := encode(s).value; e == [e[0]] + r.value + [e[|e| - 1]]
  {
    match encode(s)
    case Some(e) =>
      assert e == [e[0]] + e[1..|e| - 1] + [e[|e| - 1]];
      Some(e[1..|e| - 1])
    case None => None
  }

  /** When the encoder brackets the element's literal, escaping yields exactly that literal. */
  lemma EscapedIsElementLiteral(s: string, encode: Encoder, literal: string)
    requires encode(s) == Some("[" + literal + "]")
    ensures JavaScriptEscapedString(s, encode) == Some(literal)
  {
    var e := "[" + literal + "]";
    assert e[1..|e| - 1] == literal;
  }

  /** `message?.javaScriptEscapedString()`: absent when there is no message or it cannot be escaped. */
  function EscapeOptional(message: Option<string>, encode: Encoder): (r: Option<string>)
    ensures r.Some? <==> message.Some? && encode(message.value).Some?
    ensures r.Some? ==> r == JavaScriptEscapedString(message.value, encode)
  {
    match message
    case Some(m) => JavaScriptEscapedString(m, encode)
    case None => None
  }

  // ---------------------------------------------------------------------
  // Scripts

  /** `ChatMobileAttachment`, as far as the script uses it. */
  datatype Attachment = Attachment(base64Url: string, fileName: string)

  /** `MMLanguage`, as far as the script uses it. */
  datatype Language = Language(locale: string)

  /**
   * The message literal stands right after `sendMessage(`, and the two
   * attachment fields are quoted after it.
   */
  function SendMessageScript(escapedMessage: Option<string>, attachment: Option<Attachment>): (script: string)
    ensures var lit := escapedMessage.GetOr("''");
            && |script| >= 19 + |lit|
            && script[..12] == "sendMessage("
            && script[12..12 + |lit|] == lit
            && script[12 + |lit|..15 + |lit|] == ", '"
            && script[|script| - 2..] == "')"
    ensures attachment.None? ==> script[12 + |escapedMessage.GetOr("''")|..] == ", '', '')"
    ensures attachment.Some? ==>
              script[12 + |escapedMessage.GetOr("''")|..] ==
              ", '" + attachment.value.base64Url + "', '" + attachment.value.fileName + "')"
  {
    "sendMessage(" + escapedMessage.GetOr("''") +
    ", '" + (if attachment.Some? then attachment.value.base64Url else "") +
    "', '" + (if attachment.Some? then attachment.value.fileName else "") + "')"
  }

  /** The escaped message is exactly what stands between `sendDraft(` and the closing parenthesis. */
  function SendDraftScript(escapedMessage: string): (script: string)
    ensures |script| == |escapedMessage| + 11
    ensures script[..10] == "sendDraft(" && script[|script| - 1] == ')'
    ensures script[10..|script| - 1] == escapedMessage
  {
    "sendDraft(" + escapedMessage + ")"
  }

  /** The escaped locale is exactly what stands between `setLanguage(` and the closing parenthesis. */
  function SetLanguageScript(localeEscaped: string): (script: string)
    ensures |script| == |localeEscaped| + 13
    ensures script[..12] == "setLanguage(" && script[|script| - 1] == ')'
    ensures script[12..|script| - 1] == localeEscaped
  {
    "setLanguage(" + localeEscaped + ")"
  }

  /** The metadata goes into the script as it is, without escaping, followed by the quoted strategy. */
  function SendContextualDataScript(metadata: string, strategy: MultiThreadStrategy): (script: string)
    ensures |script| == |metadata| + |StringValue(strategy)| + 24
    ensures script[..19] == "sendContextualData("
    ensures script[19..19 + |metadata|] == metadata
    ensures script[19 + |metadata|..] == ", '" + StringValue(strategy) + "')"
  {
    "sendContextualData(" + metadata + ", '" + StringValue(strategy) + "')"
  }

  const ViewChangedScript := "onViewChanged()"
  const ShowThreadListScript := "showThreadList()"

  const SendMessageFailure := "sendMessage failed, neither message nor the attachment provided"
  const SendDraftFailure := "sendDraft failed, message not provided"

  /** The reason names the locale that could not be escaped, at its end. */
  function SetLanguageFailure(locale: string): (reason: string)
    ensures |reason| > |locale|
    ensures reason[|reason| - |locale|..] == locale
  {
    "setLanguage not called, unable to obtain escaped localed for " + locale
  }

  /**
   * A text message without attachment becomes `sendMessage(<literal>, '', '')`,
   * where `<literal>` is the element the encoder wrote between the brackets.
   */
  lemma SendMessageTextOnly(message: string, encode: Encoder, literal: string)
    requires encode(message) == Some("[" + literal + "]")
    ensures SendMessageScript(EscapeOptional(Some(message), encode), None) == "sendMessage(" + literal + ", '', '')"
  {
    EscapedIsElementLiteral(message, encode, literal);
  }

  /** An attachment without text sends the empty literal `''` in the message position. */
  lemma SendMessageAttachmentOnly(attachment: Attachment, encode: Encoder)
    ensures SendMessageScript(EscapeOptional(None, encode), Some(attachment)) ==
            "sendMessage('', '" + attachment.base64Url + "', '" + attachment.fileName + "')"
  {
  }

  // ---------------------------------------------------------------------
  // The web view

  /** What a command's completion is called with when it carries an error. */
  datatype ChatError = ConditionFailed(reason: string) | WebViewError(description: string)

  /** A completion call that reports a failed guard, as opposed to the result of a script. */
  predicate IsConditionFailure(c: Option<ChatError>) {
    c.Some? && c.value.ConditionFailed?
  }

  /** The number of completion calls that answer an evaluated script. */
  function ScriptCompletions(completions: seq<Option<ChatError>>): (n: nat)
    ensures n == |set i | 0 <= i < |completions| && !IsConditionFailure(completions[i])|
  {
    if completions == [] then 0
    else
      var last := |completions| - 1;
      var init := completions[..last];
      var before := set i | 0 <= i < |init| && !IsConditionFailure(init[i]);
      var all := set i | 0 <= i < |completions| && !IsConditionFailure(completions[i]);
      assert all == before + (if IsConditionFailure(completions[last]) then {} else {last});
      assert last !in before;
      ScriptCompletions(init) + (if IsConditionFailure(completions[last]) then 0 else 1)
  }

  lemma {:induction false} ScriptCompletionsAppend(completions: seq<Option<ChatError>>, c: Option<ChatError>)
    ensures ScriptCompletions(completions + [c]) ==
            ScriptCompletions(completions) + (if IsConditionFailure(c) then 0 else 1)
  {
    assert (completions + [c])[..|completions + [c]| - 1] == completions;
  }

  /** A log made only of failed guards answers no script. */
  lemma {:induction false} AllConditionFailures(completions: seq<Option<ChatError>>)
    requires forall i :: 0 <= i < |completions| ==> IsConditionFailure(completions[i])
    ensures ScriptCompletions(completions) == 0
  {
    if completions != [] {
      AllConditionFailures(completions[..|completions| - 1]);
    }
  }

  /** The error a script's completion is called with (`error as? NSError`). */
  function ScriptOutcome(webError: Option<string>): (r: Option<ChatError>)
    ensures !IsConditionFailure(r)
    ensures r.Some? <==> webError.Some?
  {
    match webError
    case Some(d) => Some(WebViewError(d))
    case None => None
  }

  /**
   * A `WKWebView` as the chat uses it. Each command either hands one script
   * to the web view and calls its completion with the web view's error
   * (`webError`), or hands it nothing and calls its completion with a
   * `conditionFailed` error; the log `completions` records those calls.
   * `sessionLanguage` stands for `MMLanguage.sessionLanguage`.
   */
  class ChatWebView {
    const encode: Encoder
    var evaluated: seq<string>
    var completions: seq<Option<ChatError>>
    var sessionLanguage: Language

    /** Each evaluated script has had exactly one completion call that answers it. */
    ghost predicate Valid()
      reads this`evaluated, this`completions
    {
      |evaluated| == ScriptCompletions(completions)
    }

    constructor (encode: Encoder, sessionLanguage: Language)
      ensures this.encode == encode && this.sessionLanguage == sessionLanguage
      ensures evaluated == [] && completions == []
      ensures Valid()
    {
      this.encode := encode;
      this.sessionLanguage := sessionLanguage;
      evaluated := [];
      completions := [];
    }

    /** Hands `script` to the web view and calls the completion with the outcome. */
    method Evaluate(script: string, webError: Option<string>)
      requires Valid()
      modifies this`evaluated, this`completions
      ensures Valid()
      ensures evaluated == old(evaluated) + [script]
      ensures completions == old(completions) + [ScriptOutcome(webError)]
    {
      ScriptCompletionsAppend(completions, ScriptOutcome(webError));
      evaluated := evaluated + [script];
      completions := completions + [ScriptOutcome(webError)];
    }

    /** Calls the completion with a failed condition and hands nothing to the web view. */
    method FailCondition(reason: string)
      requires Valid()
      modifies this`completions
      ensures Valid()
      ensures completions == old(completions) + [Some(ConditionFailed(reason))]
    {
      ScriptCompletionsAppend(completions, Some(ConditionFailed(reason)));
      completions := completions + [Some(ConditionFailed(reason))];
    }

    /** `sendMessage(_:attachment:completion:)`. */
    method SendMessage(message: Option<string> := None, attachment: Option<Attachment> := None, webError: Option<string>)
      requires Valid()
      modifies this`evaluated, this`completions
      ensures Valid()
      ensures EscapeOptional(message, encode).None? && attachment.None? ==>
                evaluated == old(evaluated) &&
                completions == old(completions) + [Some(ConditionFailed(SendMessageFailure))]
      ensures EscapeOptional(message, encode).Some? || attachment.Some? ==>
                evaluated == old(evaluated) + [SendMessageScript(EscapeOptional(message, encode), attachment)] &&
                completions == old(completions) + [ScriptOutcome(webError)]
    {
      var escapedMessage := EscapeOptional(message, encode);
      if escapedMessage.None? && attachment.None? {
        FailCondition(SendMessageFailure);
        return;
      }
      Evaluate(SendMessageScript(escapedMessage, attachment), webError);
    }

    /** `sendDraft(_:completion:)`. */
    method SendDraft(message: Option<string>, webError: Option<string>)
      requires Valid()
      modifies this`evaluated, this`completions
      ensures Valid()
      ensures EscapeOptional(message, encode).None? ==>
                evaluated == old(evaluated) &&
                completions == old(completions) + [Some(ConditionFailed(SendDraftFailure))]
      ensures EscapeOptional(message, encode).Some? ==>
                evaluated == old(evaluated) + [SendDraftScript(EscapeOptional(message, encode).value)] &&
                completions == old(completions) + [ScriptOutcome(webError)]
    {
      var escapedMessage := EscapeOptional(message, encode);
      if escapedMessage.None? {
        FailCondition(SendDraftFailure);
        return;
      }
      Evaluate(SendDraftScript(escapedMessage.value), webError);
    }

    /** `setLanguage(_:completion:)`: the chosen language is stored before the locale is escaped. */
    method SetLanguage(language: Option<Language> := None, webError: Option<string>)
      requires Valid()
      modifies this`evaluated, this`completions, this`sessionLanguage
      ensures Valid()
      ensures sessionLanguage == if language.Some? then language.value else old(sessionLanguage)
      ensures JavaScriptEscapedString(sessionLanguage.locale, encode).None? ==>
                evaluated == old(evaluated) &&
                completions == old(completions) + [Some(ConditionFailed(SetLanguageFailure(sessionLanguage.locale)))]
      ensures JavaScriptEscapedString(sessionLanguage.locale, encode).Some? ==>
                evaluated == old(evaluated) + [SetLanguageScript(JavaScriptEscapedString(sessionLanguage.locale, encode).value)] &&
                completions == old(completions) + [ScriptOutcome(webError)]
    {
      var mmLanguage := language.GetOr(sessionLanguage);
      sessionLanguage := mmLanguage;
      var localeEscaped := JavaScriptEscapedString(mmLanguage.locale, encode);
      if localeEscaped.None? {
        FailCondition(SetLanguageFailure(mmLanguage.locale));
        return;
      }
      Evaluate(SetLanguageScript(localeEscaped.value), webError);
    }

    /** `sendContextualData(_:multiThreadStrategy:completion:)`: always evaluates its script. */
    method SendContextualData(metadata: string, multiThreadStrategy: MultiThreadStrategy := ACTIVE, webError: Option<string>)
      requires Valid()
      modifies this`evaluated, this`completions
      ensures Valid()
      ensures evaluated == old(evaluated) + [SendContextualDataScript(metadata, multiThreadStrategy)]
      ensures completions == old(completions) + [ScriptOutcome(webError)]
    {
      Evaluate(SendContextualDataScript(metadata, multiThreadStrategy), webError);
    }

    /** `addViewChangedListener(completion:)`. */
    method AddViewChangedListener(webError: Option<string>)
      requires Valid()
      modifies this`evaluated, this`completions
      ensures Valid()
      ensures evaluated == old(evaluated) + [ViewChangedScript]
      ensures completions == old(completions) + [ScriptOutcome(webError)]
    {
      Evaluate(ViewChangedScript, webError);
    }

    /** `showThreadList(completion:)`. */
    method ShowThreadList(webError: Option<string>)
      requires Valid()
      modifies this`evaluated, this`completions
      ensures Valid()
      ensures evaluated == old(evaluated) + [ShowThreadListScript]
      ensures completions == old(completions) + [ScriptOutcome(webError)]
    {
      Evaluate(ShowThreadListScript, webError);
    }
  }
}
