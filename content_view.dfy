/** The main window (`ContentView`): the text the user typed, the buttons
    that put an instruction template in front of it, and the request that
    sends the result to the selected provider. Only OpenAI and Grok are
    reachable from here: every provider other than "OpenAI" is sent to Grok
    with the Grok key. */
module ContentView {
  import opened Wrappers
  import Text
  import Http
  import Defaults
  import Prompts
  import PromptFacts
  import OpenAI
  import Grok

  /** `AIError`. */
  datatype AIError = NoApiKey | NoModelSelected | NoInputText | ApiError(message: string) {
    /** `errorDescription`: an API error's text is "API Error: " and the
      service's message; the three checks ask the user to act. */
    function Description(): (r: string)
      ensures ApiError? <==> |r| >= 11 && r[..11] == "API Error: "
      ensures ApiError? ==> r[11..] == message
      ensures !ApiError? ==> |r| > 7 && r[..7] == "Please "
    {
      var r := match this
        case NoApiKey => "Please configure API Key in settings"
        case NoModelSelected => "Please select a model in settings"
        case NoInputText => "Please enter some text"
        case ApiError(m) => "API Error: " + m;
      assert ApiError? ==> r[..11] == "API Error: ";
      assert !ApiError? ==> r[..7] == "Please " && r[0] == 'P';
      assert |r| >= 11 ==> r[..11][0] == r[0];
      r
    }
  }

  /** The triple `getCurrentSettings()` returns. */
  datatype Settings = Settings(provider: string, model: string, apiKey: string)

  /** `getCurrentSettings()`: nothing unless both a provider and a model are
      stored; the key is the OpenAI key for "OpenAI" and the Grok key for
      any other provider, "" when absent. */
  function CurrentSettings(d: Defaults.Store): (r: Option<Settings>)
    ensures r.Some? <==> Defaults.StringFor(d, Defaults.SelectedProvider).Some? && Defaults.StringFor(d, Defaults.SelectedModel).Some?
    ensures r.Some? ==> r.value.provider == Defaults.StringFor(d, Defaults.SelectedProvider).value
    ensures r.Some? ==> r.value.model == Defaults.StringFor(d, Defaults.SelectedModel).value
    ensures r.Some? && r.value.provider == "OpenAI" ==> r.value.apiKey == Defaults.StringOr(d, Defaults.OpenAIKey, "")
    ensures r.Some? && r.value.provider != "OpenAI" ==> r.value.apiKey == Defaults.StringOr(d, Defaults.GrokKey, "")
  {
    match (Defaults.StringFor(d, Defaults.SelectedProvider), Defaults.StringFor(d, Defaults.SelectedModel))
    case (Some(provider), Some(model)) =>
      var apiKey := if provider == "OpenAI" then Defaults.StringOr(d, Defaults.OpenAIKey, "")
                    else Defaults.StringOr(d, Defaults.GrokKey, "");
      Some(Settings(provider, model, apiKey))
    case _ => None
  }

  /** `validateSettings()` followed by the second `getCurrentSettings()`:
      the settings to use, or the first of the three checks that fails, in
      the order the source makes them. (The second read sees the store the
      first one saw, so its failure branch cannot be taken and is not
      written.) */
  function Validate(d: Defaults.Store, inputText: string): (r: Result<Settings, AIError>)
    ensures r == Err(NoModelSelected) <==> CurrentSettings(d).None?
    ensures r == Err(NoApiKey) <==> CurrentSettings(d).Some? && CurrentSettings(d).value.apiKey == ""
    ensures r == Err(NoInputText) <==> CurrentSettings(d).Some? && CurrentSettings(d).value.apiKey != "" && inputText == ""
    ensures r.Ok? <==> CurrentSettings(d).Some? && CurrentSettings(d).value.apiKey != "" && inputText != ""
    ensures r.Ok? ==> r.value == CurrentSettings(d).value
  {
    match CurrentSettings(d)
    case None => Err(NoModelSelected)
    case Some(settings) =>
      if settings.apiKey == "" then Err(NoApiKey)
      else if inputText == "" then Err(NoInputText)
      else Ok(settings)
  }

  /** Different errors show different texts. */
  lemma ErrorMessagesDistinct(e1: AIError, e2: AIError)
    requires e1 != e2
    ensures e1.Description() != e2.Description()
  {
    if e1.ApiError? && e2.ApiError? {
      assert e1.Description()[11..] != e2.Description()[11..];
    }
  }

  /** The adapter call: a fresh `OpenAI` (with the session configured from
      the store) for "OpenAI", a fresh `Grok` otherwise. */
  function Dispatch(d: Defaults.Store, settings: Settings, prompt: string, exchange: Http.Exchange): Result<string, Http.AdapterError> {
    if settings.provider == "OpenAI" then OpenAI.Complete(OpenAI.New(d, settings.apiKey), settings.model, prompt, exchange)
    else Grok.Complete(Grok.Client(settings.apiKey), settings.model, prompt, exchange)
  }

  /** The adapter call as the window makes it, given the settings and the
      prompt. */
  type Completer = (Settings, string) -> Result<string, Http.AdapterError>

  /** The window's adapter call against the store `d` and the network
      `exchange`: `Dispatch`. */
  function Adapters(d: Defaults.Store, exchange: Http.Exchange): Completer {
    (settings: Settings, prompt: string) => Dispatch(d, settings, prompt, exchange)
  }

  /** What ends a request: one of its own checks, or an error the adapter
      threw. */
  datatype Failure = Invalid(error: AIError) | Thrown(failure: Http.AdapterError)

  /** The whole of `processAIRequest(withPrompt:)` as a value: the reply, or
      why there is none. */
  function Process(d: Defaults.Store, inputText: string, prompt: string, complete: Completer): (r: Result<string, Failure>)
    ensures Validate(d, inputText).Err? ==> r == Err(Invalid(Validate(d, inputText).error))
    ensures Validate(d, inputText).Ok? ==> match complete(Validate(d, inputText).value, prompt)
      case Ok(text) => r == Ok(text)
      case Err(e) => r == Err(Thrown(e))
  {
    match Validate(d, inputText)
    case Err(e) => Err(Invalid(e))
    case Ok(settings) =>
      match complete(settings, prompt)
      case Ok(text) => Ok(text)
      case Err(e) => Err(Thrown(e))
  }

  /** The message shown: an `AIError`'s own text, anything else prefixed by
      "Unexpected error: ". The two kinds cannot be mistaken for each
      other. */
  function ErrorText(f: Failure): (r: string)
    ensures f.Thrown? <==> |r| >= 18 && r[..18] == "Unexpected error: "
    ensures f.Thrown? ==> r[18..] == f.failure.Description()
    ensures f.Invalid? ==> r == f.error.Description()
  {
    match f
    case Invalid(e) =>
      var r := e.Description();
      assert r[0] == 'A' || r[0] == 'P' by {
        if e.ApiError? { assert r[..11][0] == r[0]; } else { assert r[..7][0] == r[0]; }
      }
      assert |r| >= 18 ==> r[..18][0] == r[0];
      r
    case Thrown(e) => "Unexpected error: " + e.Description()
  }

  /** The three buttons that send a prompt. */
  datatype Prompted = Proofread | Shorten | Translate

  /** The four buttons: three send their prompt; As Personality's action is
      empty. */
  datatype Button = Send(action: Prompted) | AsPersonality

  /** The instruction a button puts in front of the input. TRANSLATE first
      has its placeholder replaced by the selected language. */
  function Template(action: Prompted, language: string): string {
    match action
    case Proofread => Prompts.Proofread
    case Shorten => Prompts.Shorten
    case Translate => Text.ReplaceAll(Prompts.Translate, Prompts.LanguageToken, language)
  }

  /** The prompt a button sends: the user's text, unaltered, at the end,
      after a template that ends with a blank line; for Translate the
      template names the language where its placeholder was. */
  function PromptFor(action: Prompted, language: string, inputText: string): (prompt: string)
    ensures |prompt| >= |inputText| + 2
    ensures prompt[|prompt| - |inputText|..] == inputText
    ensures prompt[|prompt| - |inputText| - 2..|prompt| - |inputText|] == "\n\n"
    ensures action == Proofread ==> prompt == Prompts.Proofread + inputText
    ensures action == Shorten ==> prompt == Prompts.Shorten + inputText
    ensures action == Translate ==>
      prompt == Prompts.TranslateHead + language + Prompts.TranslateTail + Prompts.BlankLine + inputText
  {
    TemplateEndsWithBlankLine(action, language);
    var template := Template(action, language);
    var prompt := template + inputText;
    assert prompt[|prompt| - |inputText|..] == inputText;
    assert prompt[|prompt| - |inputText| - 2..|prompt| - |inputText|] == template[|template| - 2..];
    prompt
  }

  /** Every template ends with a blank line; Translate's names the
      language. */
  lemma TemplateEndsWithBlankLine(action: Prompted, language: string)
    ensures Text.EndsWith(Template(action, language), "\n\n")
    ensures action == Translate ==>
      Template(action, language) == Prompts.TranslateHead + language + Prompts.TranslateTail + Prompts.BlankLine
  {
    match action {
      case Proofread => PromptFacts.ProofreadEndsWithBlankLine();
      case Shorten => PromptFacts.ShortenEndsWithBlankLine();
      case Translate =>
        TranslatePromptShape(language);
        Text.EndsWithConcat(Prompts.TranslateHead + language + Prompts.TranslateTail, Prompts.BlankLine);
    }
  }

  /** The Translate prompt names the language exactly where the template's
      placeholder was, and nothing else of the template changes. */
  lemma TranslatePromptShape(language: string)
    ensures Text.ReplaceAll(Prompts.Translate, Prompts.LanguageToken, language)
      == Prompts.TranslateHead + language + Prompts.TranslateTail + Prompts.BlankLine
  {
    PromptFacts.TranslateHeadLacksBrace();
    PromptFacts.TranslateTailLacksBrace();
    var tail := Prompts.TranslateTail + Prompts.BlankLine;
    assert '{' !in Prompts.BlankLine;
    assert Prompts.Translate == Prompts.TranslateHead + Prompts.LanguageToken + tail;
    Text.ReplaceSingleToken(Prompts.TranslateHead, Prompts.LanguageToken, tail, language);
  }

  /** A request that fails its checks sends nothing: its outcome is the same
      whatever the adapters, and so the network, would have answered. */
  lemma InvalidSendsNothing(d: Defaults.Store, inputText: string, prompt: string, c1: Completer, c2: Completer)
    requires Validate(d, inputText).Err?
    ensures Process(d, inputText, prompt, c1) == Process(d, inputText, prompt, c2)
  {
  }

  /** Any provider other than "OpenAI" is answered by Grok, with the Grok
      key: selecting DeepSeek with only a DeepSeek key stored fails for want
      of a key. */
  lemma OtherProvidersNeedGrokKey(d: Defaults.Store, provider: string, inputText: string, prompt: string, complete: Completer)
    requires provider != "OpenAI"
    requires Defaults.StringFor(d, Defaults.SelectedProvider) == Some(provider)
    requires Defaults.StringFor(d, Defaults.SelectedModel).Some?
    requires Defaults.StringFor(d, Defaults.GrokKey).None?
    ensures Process(d, inputText, prompt, complete) == Err(Invalid(NoApiKey))
  {
  }

  /** With a usable OpenAI key, "OpenAI" is answered by a fresh `OpenAI`
      built with the stored OpenAI key and the session the store
      configures: its reply is the window's reply, its error the error
      shown. */
  lemma OpenAISendsOpenAIRequest(d: Defaults.Store, inputText: string, prompt: string, exchange: Http.Exchange)
    requires Validate(d, inputText).Ok? && Validate(d, inputText).value.provider == "OpenAI"
    ensures var s := Validate(d, inputText).value;
      && s.apiKey == Defaults.StringOr(d, Defaults.OpenAIKey, "")
      && match OpenAI.Complete(OpenAI.New(d, Defaults.StringOr(d, Defaults.OpenAIKey, "")), s.model, prompt, exchange)
         case Ok(text) => Process(d, inputText, prompt, Adapters(d, exchange)) == Ok(text)
         case Err(e) => Process(d, inputText, prompt, Adapters(d, exchange)) == Err(Thrown(e))
  {
  }

  /** With a usable Grok key, any provider other than "OpenAI" sends Grok's
      request, to Grok's endpoint, authorised by the Grok key: Grok's reply
      is the window's reply, its error the error shown. */
  lemma OtherProvidersSendGrokRequest(d: Defaults.Store, inputText: string, prompt: string, exchange: Http.Exchange)
    requires Validate(d, inputText).Ok? && Validate(d, inputText).value.provider != "OpenAI"
    ensures var s := Validate(d, inputText).value;
      && s.apiKey == Defaults.StringOr(d, Defaults.GrokKey, "")
      && match Grok.Complete(Grok.Client(Defaults.StringOr(d, Defaults.GrokKey, "")), s.model, prompt, exchange)
         case Ok(text) => Process(d, inputText, prompt, Adapters(d, exchange)) == Ok(text)
         case Err(e) => Process(d, inputText, prompt, Adapters(d, exchange)) == Err(Thrown(e))
  {
  }

  /** Only emptiness is checked: a key of blanks passes, and is then sent
      trimmed to nothing. */
  lemma BlankKeyPasses(d: Defaults.Store, model: string, inputText: string)
    requires Defaults.StringFor(d, Defaults.SelectedProvider) == Some("OpenAI")
    requires Defaults.StringFor(d, Defaults.SelectedModel) == Some(model)
    requires Defaults.StringFor(d, Defaults.OpenAIKey) == Some(" ")
    requires inputText != ""
    ensures Validate(d, inputText) == Ok(Settings("OpenAI", model, " "))
    ensures Http.BearerAuthorization(" ").value == "Bearer "
  {
    assert Text.Trim(" ") == "" by {
      assert Text.AllWhitespace(" ");
      Text.TrimStartOfWhitespace(" ");
    }
  }

  /** The window's state. */
  class ContentState {
    var inputText: string
    var outputText: string
    var selectedLanguage: string
    var selectedPersonality: string
    var isProcessing: bool
    var errorMessage: Option<string>

    constructor()
      ensures inputText == "" && outputText == "" && selectedLanguage == "English"
      ensures selectedPersonality == "1920s Gangster" && !isProcessing && errorMessage == None
    {
      inputText := "";
      outputText := "";
      selectedLanguage := "English";
      selectedPersonality := "1920s Gangster";
      isProcessing := false;
      errorMessage := None;
    }

    /** `processAIRequest(withPrompt:)`: a reply replaces the output and
      leaves no error; a failure leaves the output and shows its message;
      processing has ended either way. The adapter call is `complete`; the
      window passes `Adapters(d, exchange)`. */
    method ProcessAIRequest(prompt: string, d: Defaults.Store, complete: Completer)
      modifies this
      ensures inputText == old(inputText) && selectedLanguage == old(selectedLanguage)
      ensures selectedPersonality == old(selectedPersonality) && !isProcessing
      ensures match Process(d, old(inputText), prompt, complete)
        case Ok(text) => outputText == text && errorMessage == None
        case Err(f) => outputText == old(outputText) && errorMessage == Some(ErrorText(f))
    {
      ghost var outcome := Process(d, inputText, prompt, complete);
      var validated := Validate(d, inputText);
      if validated.Err? {
        assert outcome == Err(Invalid(validated.error));
        errorMessage := Some(ErrorText(Invalid(validated.error)));
      } else {
        var settings := validated.value;
        isProcessing := true;
        errorMessage := None;
        var result := complete(settings, prompt);
        assert outcome == if result.Ok? then Ok(result.value) else Err(Thrown(result.error));
        match result {
          case Ok(text) => outputText := text;
          case Err(e) => errorMessage := Some(ErrorText(Thrown(e)));
        }
      }
      isProcessing := false;
    }

    /** A button press: As Personality does nothing; the others send their
      prompt for the current input and language. */
    method Press(button: Button, d: Defaults.Store, complete: Completer)
      modifies this
      ensures button == AsPersonality ==> unchanged(this)
      ensures button.Send? ==>
        && inputText == old(inputText) && selectedLanguage == old(selectedLanguage)
        && selectedPersonality == old(selectedPersonality) && !isProcessing
        && match Process(d, old(inputText), PromptFor(button.action, old(selectedLanguage), old(inputText)), complete)
          case Ok(text) => outputText == text && errorMessage == None
          case Err(f) => outputText == old(outputText) && errorMessage == Some(ErrorText(f))
    {
      if button.Send? {
        ProcessAIRequest(PromptFor(button.action, selectedLanguage, inputText), d, complete);
      }
    }
  }
}
