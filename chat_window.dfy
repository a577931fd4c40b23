/**
 * The dashboard chat window about an uploaded report: a header with the
 * file name and a help panel, the transcript, and an input whose trimmed,
 * non-blank text is handed to the page. The transcript shown is the
 * `messages` prop, or a fixed sample conversation when that is empty; with
 * no file name the window shows only a prompt to upload a report.
 */
module ChatWindow {
  import opened Wrappers
  import opened Text

  datatype Sender = User | Ai

  /** One transcript entry; AI answers may cite pages of the report. */
  datatype Message = Message(
    id: string, sender: Sender, content: string, timestamp: string,
    pageReferences: Option<seq<string>>)

  /** The three texts of the sample conversation. */
  datatype Sample = Greeting | Question | Answer

  /** The sample texts, written in short pieces so that the verifier handles them cheaply. */
  function SampleText(s: Sample): string {
    match s
    case Greeting =>
      "Hello! I've analyzed your "
      + "financial report. I can help you "
      + "understand key metrics, trends, "
      + "and specific details. What would "
      + "you like to know?"
    case Question => "What were the main revenue drivers in Q4?"
    case Answer =>
      "Based on the Q4 report, the main "
      + "revenue drivers were:\n\n1. "
      + "**Steel Production**: 25% "
      + "increase in crude steel "
      + "production reaching 4.2 million "
      + "tonnes\n2. **Export Sales**: "
      + "Strong demand from European "
      + "markets contributed "
      + "\U{20B9}2,400 crores\n3. "
      + "**Mining Operations**: Iron ore "
      + "sales increased by 18% "
      + "year-over-year\n\nThese details "
      + "can be found on pages 12-15 of "
      + "your report."
  }

  /** The sample conversation shown when the page passes no messages. */
  function MockMessages(): (r: seq<Message>)
    ensures |r| == 3
  {
    [
      Message("1", Ai, SampleText(Greeting), "10:30 AM", None),
      Message("2", User, SampleText(Question), "10:31 AM", None),
      Message("3", Ai, SampleText(Answer), "10:31 AM", Some(["Page 12", "Page 13", "Page 14", "Page 15"]))
    ]
  }

  /** The transcript the window renders for a `messages` prop. */
  function DisplayedMessages(messages: seq<Message>): (r: seq<Message>)
    ensures r != []
    ensures messages != [] ==> r == messages
    ensures messages == [] ==> |r| == 3
  {
    if |messages| > 0 then messages else MockMessages()
  }

  /**
   * The fallback transcript is AI, user, AI with ids "1", "2", "3", sent at
   * 10:30, 10:31 and 10:31, and only the last entry cites pages, 12 to 15.
   */
  lemma FallbackShape()
    ensures var r := DisplayedMessages([]);
      && r[0].id == "1" && r[1].id == "2" && r[2].id == "3"
      && r[0].sender == Ai && r[1].sender == User && r[2].sender == Ai
      && r[0].timestamp == "10:30 AM" && r[1].timestamp == "10:31 AM" && r[2].timestamp == "10:31 AM"
      && r[0].pageReferences == None && r[1].pageReferences == None
      && r[2].pageReferences == Some(["Page 12", "Page 13", "Page 14", "Page 15"])
  {
  }

  /** What the window renders: the upload prompt, or the report's chat. */
  datatype View =
    | UploadPrompt
    | Chat(title: string, helpShown: bool, transcript: seq<Message>, loading: bool)

  /** `!fileName` holds for a missing and for an empty file name alike. */
  function Render(fileName: Option<string>, messages: seq<Message>, isLoading: bool, showHelp: bool): (v: View)
    ensures v == UploadPrompt <==> fileName == None || fileName == Some("")
    ensures v.Chat? ==> v.title == fileName.value && v.transcript != []
    ensures v.Chat? && messages != [] ==> v.transcript == messages
  {
    if fileName == None || fileName.value == "" then UploadPrompt
    else Chat(fileName.value, showHelp, DisplayedMessages(messages), isLoading)
  }

  class ChatWindow {
    const fileName: Option<string>
    const messages: seq<Message>
    const isLoading: bool
    /** Whether the page passed `onSendMessage`. */
    const hasOnSendMessage: bool

    var inputMessage: string
    var showHelp: bool
    /** The texts handed to `onSendMessage`, in order. */
    var sentMessages: seq<string>

    /** Every text handed on is non-empty and already trimmed; no callback, no calls. */
    ghost predicate Valid()
      reads this
    {
      && (!hasOnSendMessage ==> sentMessages == [])
      && (forall i :: 0 <= i < |sentMessages| ==> sentMessages[i] != [] && Trim(sentMessages[i]) == sentMessages[i])
    }

    function View(): (v: View)
      reads this
      ensures v.Chat? ==> v.helpShown == showHelp && v.loading == isLoading
    {
      Render(fileName, messages, isLoading, showHelp)
    }

    constructor (fileName: Option<string>, messages: seq<Message>, isLoading: bool, hasOnSendMessage: bool)
      ensures Valid()
      ensures this.fileName == fileName && this.messages == messages
      ensures this.isLoading == isLoading && this.hasOnSendMessage == hasOnSendMessage
      ensures inputMessage == "" && !showHelp && sentMessages == []
    {
      this.fileName := fileName;
      this.messages := messages;
      this.isLoading := isLoading;
      this.hasOnSendMessage := hasOnSendMessage;
      inputMessage := "";
      showHelp := false;
      sentMessages := [];
    }

    /** The input field's change handler. */
    method SetInputMessage(text: string)
      requires Valid()
      modifies this`inputMessage
      ensures Valid() && inputMessage == text
    {
      inputMessage := text;
    }

    /**
     * `handleSendMessage`: a blank input changes nothing; otherwise the
     * trimmed input is handed to `onSendMessage` once, when the page passed
     * one, and the field is cleared.
     */
    method SendMessage() returns (sent: bool)
      requires Valid()
      modifies this`inputMessage, this`sentMessages
      ensures Valid()
      ensures sent <==> !IsBlank(old(inputMessage))
      ensures !sent ==> inputMessage == old(inputMessage) && sentMessages == old(sentMessages)
      ensures sent ==> (inputMessage == "" && sentMessages == old(sentMessages)
        + (if hasOnSendMessage then [Trim(old(inputMessage))] else []))
    {
      if IsBlank(inputMessage) {
        return false;
      }
      if hasOnSendMessage {
        var text := Trim(inputMessage);
        TrimIdempotent(inputMessage);
        sentMessages := sentMessages + [text];
      }
      inputMessage := "";
      sent := true;
    }

    /** Either help button: shows or hides the help panel and nothing else. */
    method ToggleHelp()
      requires Valid()
      modifies this`showHelp
      ensures Valid() && showHelp == !old(showHelp)
    {
      showHelp := !showHelp;
    }
  }
}
