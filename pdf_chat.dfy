/**
 * The PDF chat controller: an API-key dialog backed by local storage, a PDF upload
 * read into a data URI, and a question form that issues one chatbot call at a time.
 *
 * The controller's state is `ChatState`; each handler is a transition function on it
 * (`KeyLoaded`, `KeySaved`, `FileChosen`, `FileRead`, `SubmitBegun`, `SubmitCompleted`),
 * and the class `PdfChatClient` performs the same steps on mutable fields.
 * The chatbot call is asynchronous: a submit is split into `SubmitBegun`, which returns
 * the call to issue, and `SubmitCompleted`, which receives its outcome.
 */
module PdfChat {
  import opened Wrappers
  import opened JsStrings

  /** The local-storage key holding the API key. */
  const ApiKeyStorageKey := "geminiApiKey"
  /** The only file type the upload accepts. */
  const PdfMediaType := "application/pdf"
  /** Prefix of the bot message shown when the call fails. */
  const ErrorPrefix := "Error: "
  /** Shown after the prefix when the thrown value is not an Error object. */
  const UnknownErrorMessage := "An unknown error occurred."

  datatype Role = User | Bot

  datatype ChatMessage = ChatMessage(role: Role, content: string)

  /** The parts of a browser `File` the controller looks at; the bytes are left to the reader. */
  datatype File = File(name: string, mediaType: string)

  /** The arguments of one chatbot call. */
  datatype ChatbotInput = ChatbotInput(pdfDataUri: string, question: string, geminiApiKey: string)

  /** What a failed call throws: an `Error` with its message, or any other value. */
  datatype Thrown = ErrorInstance(message: string) | NonErrorValue

  /** How the chatbot call settles. */
  datatype ChatbotOutcome = Answered(answer: string) | Threw(error: Thrown)

  /**
   * The component's state fields, plus `pendingReads` (file reads started and not yet
   * finished) and `storage` (the browser's local storage).
   */
  datatype ChatState = ChatState(
    apiKey: Option<string>,
    keyModalOpen: bool,
    pdfFile: Option<File>,
    pdfDataUri: Option<string>,
    history: seq<ChatMessage>,
    loading: bool,
    pendingReads: nat,
    storage: map<string, string>)

  /** JavaScript truthiness of a nullable string: neither null nor empty. */
  predicate Truthy(v: Option<string>) {
    v.Some? && v.value != ""
  }

  /** The key form's schema: at least one character. */
  predicate IsValidApiKey(key: string) {
    |key| >= 1
  }

  /** `localStorage.getItem("geminiApiKey")`. */
  function StoredKey(storage: map<string, string>): Option<string> {
    if ApiKeyStorageKey in storage then Some(storage[ApiKeyStorageKey]) else None
  }

  /** The upload handler accepts a chosen file whose type is the PDF media type. */
  predicate AcceptsFile(file: Option<File>) {
    file.Some? && file.value.mediaType == PdfMediaType
  }

  /** The submit guard: a document has been read, no call is in flight, a key is set. */
  predicate CanSubmit(s: ChatState) {
    Truthy(s.pdfDataUri) && !s.loading && Truthy(s.apiKey)
  }

  /** The initial field values of a freshly mounted component over the given storage. */
  function Mounted(storage: map<string, string>): ChatState {
    ChatState(None, false, None, None, [], false, 0, storage)
  }

  /** The mount effect: a stored non-empty key becomes the key, otherwise the key dialog opens. */
  function KeyLoaded(s: ChatState): (r: ChatState)
    ensures Truthy(StoredKey(s.storage)) ==> r.apiKey == StoredKey(s.storage) && r.keyModalOpen == s.keyModalOpen
    ensures !Truthy(StoredKey(s.storage)) ==> r.keyModalOpen && r.apiKey == s.apiKey
    ensures r == s.(apiKey := r.apiKey, keyModalOpen := r.keyModalOpen)
  {
    var stored := StoredKey(s.storage);
    if Truthy(stored) then s.(apiKey := stored) else s.(keyModalOpen := true)
  }

  /** The key form: a valid key is stored, becomes the key and closes the dialog; an invalid one changes nothing. */
  function KeySaved(s: ChatState, key: string): (r: ChatState)
    ensures IsValidApiKey(key) ==> StoredKey(r.storage) == Some(key) && r.apiKey == Some(key) && !r.keyModalOpen
    ensures IsValidApiKey(key) ==> forall k :: k != ApiKeyStorageKey ==> (k in r.storage <==> k in s.storage)
    ensures IsValidApiKey(key) ==> forall k :: k != ApiKeyStorageKey && k in s.storage ==> r.storage[k] == s.storage[k]
    ensures !IsValidApiKey(key) ==> r == s
    ensures r == s.(storage := r.storage, apiKey := r.apiKey, keyModalOpen := r.keyModalOpen)
  {
    if IsValidApiKey(key) then
      s.(storage := s.storage[ApiKeyStorageKey := key], apiKey := Some(key), keyModalOpen := false)
    else
      s
  }

  /** Opening the dialog with the "Update API Key" button, or closing it. */
  function KeyDialogSet(s: ChatState, open: bool): (r: ChatState)
    ensures r.keyModalOpen == open && r == s.(keyModalOpen := open)
  {
    s.(keyModalOpen := open)
  }

  /** The upload handler: an accepted PDF becomes the file and starts a read; anything else changes nothing. */
  function FileChosen(s: ChatState, file: Option<File>): (r: ChatState)
    ensures AcceptsFile(file) ==> r == s.(pdfFile := file, pendingReads := s.pendingReads + 1)
    ensures !AcceptsFile(file) ==> r == s
  {
    if AcceptsFile(file) then s.(pdfFile := file, pendingReads := s.pendingReads + 1) else s
  }

  /** A started read finishes: its data URI becomes the document and the transcript starts over. */
  function FileRead(s: ChatState, dataUri: string): (r: ChatState)
    requires s.pendingReads > 0
    ensures r.pdfDataUri == Some(dataUri) && r.history == []
    ensures r == s.(pdfDataUri := r.pdfDataUri, history := [], pendingReads := s.pendingReads - 1)
  {
    s.(pdfDataUri := Some(dataUri), history := [], pendingReads := s.pendingReads - 1)
  }

  /**
   * The first half of the submit handler. A call is issued exactly when the guard holds
   * and the question is not blank; then the question is appended verbatim as a user
   * message and the loading flag is set. Otherwise nothing changes.
   */
  function SubmitBegun(s: ChatState, question: string): (r: (ChatState, Option<ChatbotInput>))
    ensures r.1.Some? <==> CanSubmit(s) && !IsBlank(question)
    ensures r.1.None? ==> r.0 == s
    ensures r.1.Some? ==> r.0 == s.(loading := true, history := s.history + [ChatMessage(User, question)])
    ensures r.1.Some? ==> r.1.value == ChatbotInput(s.pdfDataUri.value, question, s.apiKey.value)
  {
    if !Truthy(s.pdfDataUri) || s.loading || !Truthy(s.apiKey) then (s, None)
    else if Trim(question) == "" then (s, None)
    else
      (s.(loading := true, history := s.history + [ChatMessage(User, question)]),
       Some(ChatbotInput(s.pdfDataUri.value, question, s.apiKey.value)))
  }

  /** The bot message for an outcome: the answer, or the error prefix followed by the error's message. */
  function BotReply(outcome: ChatbotOutcome): (content: string)
    ensures outcome.Answered? ==> content == outcome.answer
    ensures outcome.Threw? ==> |ErrorPrefix| <= |content| && content[..|ErrorPrefix|] == ErrorPrefix
    ensures outcome.Threw? ==>
              content[|ErrorPrefix|..] == (if outcome.error.ErrorInstance? then outcome.error.message else UnknownErrorMessage)
  {
    match outcome
    case Answered(answer) => answer
    case Threw(ErrorInstance(message)) => ErrorPrefix + message
    case Threw(NonErrorValue) => ErrorPrefix + UnknownErrorMessage
  }

  /** The second half of the submit handler: exactly one bot message is appended and loading ends. */
  function SubmitCompleted(s: ChatState, outcome: ChatbotOutcome): (r: ChatState)
    requires s.loading
    ensures !r.loading && r.history == s.history + [ChatMessage(Bot, BotReply(outcome))]
    ensures r == s.(history := r.history, loading := false)
  {
    s.(history := s.history + [ChatMessage(Bot, BotReply(outcome))], loading := false)
  }

  /**
   * A completed submit grows the transcript by exactly two messages, the question and
   * then its reply, whether the call succeeded or failed; afterwards every other field
   * is back to what it was, so the session accepts the next question.
   */
  lemma SubmitRoundTrip(s: ChatState, question: string, outcome: ChatbotOutcome)
    requires CanSubmit(s) && !IsBlank(question)
    ensures SubmitBegun(s, question).1.Some? && SubmitBegun(s, question).0.loading
    ensures var done := SubmitCompleted(SubmitBegun(s, question).0, outcome);
      && done.history == s.history + [ChatMessage(User, question), ChatMessage(Bot, BotReply(outcome))]
      && done == s.(history := done.history)
      && CanSubmit(done)
  {
  }

  /** While a call is in flight, further submits issue no call and change nothing. */
  lemma SingleFlight(s: ChatState, question: string, another: string)
    requires CanSubmit(s) && !IsBlank(question)
    ensures SubmitBegun(SubmitBegun(s, question).0, another) == (SubmitBegun(s, question).0, None)
  {
  }

  /** A saved key is found by the mount effect of the next visit, which then keeps the dialog closed. */
  lemma KeySurvivesReload(s: ChatState, key: string)
    requires IsValidApiKey(key)
    ensures KeyLoaded(Mounted(KeySaved(s, key).storage)).apiKey == Some(key)
    ensures !KeyLoaded(Mounted(KeySaved(s, key).storage)).keyModalOpen
  {
  }

  /** Without a stored key the dialog opens, and even after a PDF is read no question is sent. */
  lemma NoKeyNoCall(storage: map<string, string>, file: File, dataUri: string, question: string)
    requires !Truthy(StoredKey(storage)) && AcceptsFile(Some(file))
    ensures KeyLoaded(Mounted(storage)).keyModalOpen
    ensures var s := FileRead(FileChosen(KeyLoaded(Mounted(storage)), Some(file)), dataUri);
      SubmitBegun(s, question) == (s, None)
  {
  }

  /** An accepted PDF, once read, is the document and the transcript is empty. */
  lemma NewDocumentResetsTranscript(s: ChatState, file: File, dataUri: string)
    requires AcceptsFile(Some(file))
    ensures var r := FileRead(FileChosen(s, Some(file)), dataUri);
      r.pdfFile == Some(file) && r.pdfDataUri == Some(dataUri) && r.history == []
  {
  }

  /**
   * The upload button stays enabled while a call is in flight, and the reply is appended
   * to whatever the transcript is when it arrives: if a new PDF is read meanwhile, the
   * reply to the old question is the only message of the new transcript.
   */
  lemma ReplyAfterNewDocument(s: ChatState, question: string, file: File, dataUri: string, outcome: ChatbotOutcome)
    requires CanSubmit(s) && !IsBlank(question) && AcceptsFile(Some(file))
    ensures var begun := SubmitBegun(s, question).0;
      var reset := FileRead(FileChosen(begun, Some(file)), dataUri);
      reset.loading && SubmitCompleted(reset, outcome).history == [ChatMessage(Bot, BotReply(outcome))]
  {
  }

  /** The component: its state fields and the browser storage it reads and writes. */
  class PdfChatClient {
    var apiKey: Option<string>
    var isApiKeyModalOpen: bool
    var pdfFile: Option<File>
    var pdfDataUri: Option<string>
    var chatHistory: seq<ChatMessage>
    var isLoading: bool
    var pendingReads: nat
    var storage: map<string, string>

    function State(): ChatState
      reads this
    {
      ChatState(apiKey, isApiKeyModalOpen, pdfFile, pdfDataUri, chatHistory, isLoading, pendingReads, storage)
    }

    /** Mounting over the given storage: the initial field values, then the key-load effect. */
    constructor (storage: map<string, string>)
      ensures State() == KeyLoaded(Mounted(storage))
    {
      apiKey := None;
      isApiKeyModalOpen := false;
      pdfFile := None;
      pdfDataUri := None;
      chatHistory := [];
      isLoading := false;
      pendingReads := 0;
      this.storage := storage;
      new;
      var storedKey := if ApiKeyStorageKey in storage then Some(storage[ApiKeyStorageKey]) else None;
      if Truthy(storedKey) {
        apiKey := storedKey;
      } else {
        isApiKeyModalOpen := true;
      }
    }

    /** The key form's submit; `saved` is false when the schema rejects the key. */
    method SaveKey(key: string) returns (saved: bool)
      modifies this
      ensures saved == IsValidApiKey(key)
      ensures State() == KeySaved(old(State()), key)
    {
      saved := |key| >= 1;
      if saved {
        storage := storage[ApiKeyStorageKey := key];
        apiKey := Some(key);
        isApiKeyModalOpen := false;
      }
    }

    /** The dialog's open state, set by the "Update API Key" button or by dismissing the dialog. */
    method SetKeyModalOpen(open: bool)
      modifies this
      ensures State() == KeyDialogSet(old(State()), open)
    {
      isApiKeyModalOpen := open;
    }

    /** The file input's change handler; `accepted` is false when the "Invalid File Type" notice is shown. */
    method FileChange(file: Option<File>) returns (accepted: bool)
      modifies this
      ensures accepted == AcceptsFile(file)
      ensures State() == FileChosen(old(State()), file)
    {
      accepted := file.Some? && file.value.mediaType == PdfMediaType;
      if accepted {
        pdfFile := file;
        pendingReads := pendingReads + 1;
      }
    }

    /** The file reader's load callback, with the data URI it produced. */
    method FileLoaded(dataUri: string)
      requires pendingReads > 0
      modifies this
      ensures State() == FileRead(old(State()), dataUri)
    {
      pdfDataUri := Some(dataUri);
      chatHistory := [];
      pendingReads := pendingReads - 1;
    }

    /** The submit handler up to the chatbot call; `call` is the call it issues, if any. */
    method BeginSubmit(question: string) returns (call: Option<ChatbotInput>)
      modifies this
      ensures (State(), call) == SubmitBegun(old(State()), question)
    {
      ghost var before := State();
      if !Truthy(pdfDataUri) || isLoading || !Truthy(apiKey) {
        assert SubmitBegun(before, question) == (before, None);
        return None;
      }
      if Trim(question) == "" {
        assert SubmitBegun(before, question) == (before, None);
        return None;
      }
      isLoading := true;
      chatHistory := chatHistory + [ChatMessage(User, question)];
      call := Some(ChatbotInput(pdfDataUri.value, question, apiKey.value));
      assert State() == before.(loading := true, history := before.history + [ChatMessage(User, question)]);
    }

    /** The rest of the submit handler, once the call has settled with `outcome`. */
    method CompleteSubmit(outcome: ChatbotOutcome)
      requires isLoading
      modifies this
      ensures State() == SubmitCompleted(old(State()), outcome)
    {
      var content := match outcome
        case Answered(answer) => answer
        case Threw(error) =>
          var message := if error.ErrorInstance? then error.message else UnknownErrorMessage;
          ErrorPrefix + message;
      chatHistory := chatHistory + [ChatMessage(Bot, content)];
      isLoading := false;
    }
  }

  /** A key is stored, a PDF is read, and a question is answered. */
  method AnsweredQuestionScenario() returns (transcript: seq<ChatMessage>, loading: bool)
    ensures transcript == [ChatMessage(User, "What is covered in Module 2?"), ChatMessage(Bot, "Core Concepts")]
    ensures !loading
  {
    var client := new PdfChatClient(map[ApiKeyStorageKey := "key-1"]);
    var accepted := client.FileChange(Some(File("syllabus.pdf", PdfMediaType)));
    client.FileLoaded("data:application/pdf;base64,JVBERi0=");
    assert !IsBlank("What is covered in Module 2?") by {
      assert !IsWhitespace("What is covered in Module 2?"[0]);
    }
    var call := client.BeginSubmit("What is covered in Module 2?");
    client.CompleteSubmit(Answered("Core Concepts"));
    transcript, loading := client.chatHistory, client.isLoading;
  }

  /** The call fails with "quota exceeded": one error message is appended and loading ends. */
  method QuotaFailureScenario() returns (transcript: seq<ChatMessage>, loading: bool)
    ensures transcript == [ChatMessage(User, "Summarise"), ChatMessage(Bot, ErrorPrefix + "quota exceeded")]
    ensures !loading
  {
    var client := new PdfChatClient(map[ApiKeyStorageKey := "key-1"]);
    var accepted := client.FileChange(Some(File("notes.pdf", PdfMediaType)));
    client.FileLoaded("data:application/pdf;base64,JVBERi0=");
    assert !IsBlank("Summarise") by {
      assert !IsWhitespace("Summarise"[0]);
    }
    var call := client.BeginSubmit("Summarise");
    client.CompleteSubmit(Threw(ErrorInstance("quota exceeded")));
    transcript, loading := client.chatHistory, client.isLoading;
  }

  /** Without a stored key the dialog opens and a question about a read PDF is not sent. */
  method MissingKeyScenario() returns (dialogOpen: bool, call: Option<ChatbotInput>, transcript: seq<ChatMessage>)
    ensures dialogOpen && call.None? && transcript == []
  {
    var client := new PdfChatClient(map[]);
    var accepted := client.FileChange(Some(File("notes.pdf", PdfMediaType)));
    client.FileLoaded("data:application/pdf;base64,JVBERi0=");
    call := client.BeginSubmit("anything");
    dialogOpen, transcript := client.isApiKeyModalOpen, client.chatHistory;
  }

  /** A PNG is refused: the earlier document and transcript stay as they were. */
  method PngUploadScenario() returns (accepted: bool, document: Option<string>, transcript: seq<ChatMessage>)
    ensures !accepted
    ensures document == Some("data:application/pdf;base64,JVBERi0=")
    ensures transcript == [ChatMessage(User, "Hi"), ChatMessage(Bot, "Hello")]
  {
    var client := new PdfChatClient(map[ApiKeyStorageKey := "key-1"]);
    accepted := client.FileChange(Some(File("notes.pdf", PdfMediaType)));
    client.FileLoaded("data:application/pdf;base64,JVBERi0=");
    assert !IsBlank("Hi") by {
      assert !IsWhitespace("Hi"[0]);
    }
    var call := client.BeginSubmit("Hi");
    client.CompleteSubmit(Answered("Hello"));
    assert !AcceptsFile(Some(File("photo.png", "image/png"))) by {
      assert "image/png"[0] != PdfMediaType[0];
    }
    accepted := client.FileChange(Some(File("photo.png", "image/png")));
    document, transcript := client.pdfDataUri, client.chatHistory;
  }
}
