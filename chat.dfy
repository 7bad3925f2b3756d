/**
 * The floating chat widget: a dialog whose opening resets the transcript to
 * a welcome message, and a send that appends the user's message, clears the
 * input, waits for the chat flow and appends exactly one bot message, the
 * reply or an error text. The chat flow is an abstract input that answers or
 * fails; the welcome and error texts are the widget's `t('welcomeMessage')`
 * and `t('errorMessage')`.
 */
module Chat {
  import opened Wrappers
  import opened JsText

  datatype Sender = FromUser | FromBot

  datatype Message = Message(text: string, sender: Sender)

  /** The input of the chat flow. */
  datatype ChatRequest = ChatRequest(message: string, language: string)

  /** What the chat flow does with a request: answer, or throw. */
  datatype ChatOutcome = Replied(response: string) | Failed

  /** `language === 'hi' ? 'hi' : 'en'`: the flow speaks Hindi or English only. */
  function FlowLanguage(uiLanguage: string): (r: string)
    ensures r == "hi" || r == "en"
    ensures r == "hi" <==> uiLanguage == "hi"
  {
    if uiLanguage == "hi" then "hi" else "en"
  }

  /** `disabled={isLoading || !input.trim()}` on the send button, negated. */
  predicate SendEnabled(isLoading: bool, input: string) {
    !isLoading && !IsBlank(input)
  }

  /** Send is enabled exactly when not loading and the input holds a non-white-space character. */
  lemma SendEnabledIffContent(isLoading: bool, input: string)
    ensures SendEnabled(isLoading, input) <==> !isLoading && exists i :: 0 <= i < |input| && !IsWhitespace(input[i])
  {
    BlankIffAllWhitespace(input);
  }

  /** The bot message a finished request appends. */
  function BotMessage(outcome: ChatOutcome, errorText: string): (m: Message)
    ensures m.sender == FromBot
    ensures outcome.Replied? ==> m.text == outcome.response
    ensures outcome.Failed? ==> m.text == errorText
  {
    match outcome
    case Replied(response) => Message(response, FromBot)
    case Failed => Message(errorText, FromBot)
  }

  class ChatWidget {
    var isOpen: bool
    var messages: seq<Message>
    var input: string
    var isLoading: bool
    /** The UI language from the language context. */
    var language: string

    constructor (language: string)
      ensures !isOpen && messages == [] && input == "" && !isLoading && this.language == language
    {
      isOpen := false;
      messages := [];
      input := "";
      isLoading := false;
      this.language := language;
    }

    /**
     * `setIsOpen(open)` followed by the effect on `[isOpen, t]`: when the
     * dialog goes from closed to open the transcript becomes the welcome
     * message alone; closing keeps it.
     */
    method SetIsOpen(open: bool, welcome: string)
      modifies this`isOpen, this`messages
      ensures isOpen == open
      ensures open && !old(isOpen) ==> messages == [Message(welcome, FromBot)]
      ensures !(open && !old(isOpen)) ==> messages == old(messages)
    {
      var wasOpen := isOpen;
      isOpen := open;
      if isOpen && !wasOpen {
        messages := [Message(welcome, FromBot)];
      }
    }

    /** A language change gives a new `t`, so the effect runs again and an open dialog starts over. */
    method SetLanguage(newLanguage: string, welcome: string)
      modifies this`language, this`messages
      ensures language == newLanguage
      ensures isOpen && newLanguage != old(language) ==> messages == [Message(welcome, FromBot)]
      ensures !(isOpen && newLanguage != old(language)) ==> messages == old(messages)
    {
      var changed := newLanguage != language;
      language := newLanguage;
      if isOpen && changed {
        messages := [Message(welcome, FromBot)];
      }
    }

    method SetInput(text: string)
      modifies this`input
      ensures input == text
    {
      input := text;
    }

    /**
     * The synchronous part of `handleSend`. A blank input changes nothing and
     * sends nothing. Otherwise the raw, untrimmed input is appended as the
     * user's message and sent, the input is cleared and loading starts.
     */
    method BeginSend() returns (request: Option<ChatRequest>)
      modifies this`messages, this`input, this`isLoading
      ensures IsBlank(old(input)) ==>
                request == None && messages == old(messages) && input == old(input) && isLoading == old(isLoading)
      ensures !IsBlank(old(input)) ==>
                && request == Some(ChatRequest(old(input), FlowLanguage(language)))
                && messages == old(messages) + [Message(old(input), FromUser)]
                && input == "" && isLoading
    {
      if IsBlank(input) {
        return None;
      }
      var sent := input;
      messages := messages + [Message(sent, FromUser)];
      input := "";
      isLoading := true;
      request := Some(ChatRequest(sent, FlowLanguage(language)));
    }

    /** The part of `handleSend` after the flow answers: one bot message, and loading ends. */
    method FinishSend(outcome: ChatOutcome, errorText: string)
      modifies this`messages, this`isLoading
      ensures messages == old(messages) + [BotMessage(outcome, errorText)]
      ensures !isLoading
    {
      messages := messages + [BotMessage(outcome, errorText)];
      isLoading := false;
    }

    /**
     * `handleSend` run to the end: a blank input changes nothing; otherwise
     * the transcript grows by exactly the user's message and one bot message,
     * and earlier messages stay where they were.
     */
    method HandleSend(outcome: ChatOutcome, errorText: string) returns (request: Option<ChatRequest>)
      modifies this`messages, this`input, this`isLoading
      ensures IsBlank(old(input)) ==>
                request == None && messages == old(messages) && input == old(input) && isLoading == old(isLoading)
      ensures !IsBlank(old(input)) ==>
                && request == Some(ChatRequest(old(input), FlowLanguage(language)))
                && messages == old(messages) + [Message(old(input), FromUser), BotMessage(outcome, errorText)]
                && input == "" && !isLoading
      ensures old(messages) <= messages && |messages| <= |old(messages)| + 2
    {
      request := BeginSend();
      if request.Some? {
        FinishSend(outcome, errorText);
      }
    }
  }

  /** Opening a closed widget and sending a real message leaves the welcome, the message and the answer. */
  method OpenThenSend(widget: ChatWidget, welcome: string, text: string, outcome: ChatOutcome, errorText: string)
    requires !widget.isOpen && !IsBlank(text)
    modifies widget
    ensures widget.messages == [Message(welcome, FromBot), Message(text, FromUser), BotMessage(outcome, errorText)]
    ensures widget.input == "" && !widget.isLoading
  {
    widget.SetIsOpen(true, welcome);
    widget.SetInput(text);
    var _ := widget.HandleSend(outcome, errorText);
  }
}
