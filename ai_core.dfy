/**
 * The dialogue engine of ai_core.py: the fixed system prompt, and the routine
 * `get_ai_response`, which seeds and extends a caller-owned conversation
 * history, caps the turn list it sends to the language model at 21 turns,
 * assembles the streamed reply, and falls back to fixed texts when the reply
 * is blank or the model call fails.
 *
 * The model client is foreign: its streamed answer is an input value of type
 * `LlmStream`.
 */
module AiCore {

  import opened Wrappers

  // ---------------------------------------------------------------------------
  // Data model
  // ---------------------------------------------------------------------------

  datatype Role = System | User | Assistant

  /** One chat message. The source wraps the text in a one-element list. */
  datatype Turn = Turn(role: Role, content: string)

  /** The `delta` of a streamed chunk, whose `content` may be missing. */
  datatype Delta = Delta(content: Option<string>)

  /** One streamed chunk, whose `delta` may be missing. */
  datatype Chunk = Chunk(delta: Option<Delta>)

  /**
   * What the model client delivers: either a stream that runs to completion,
   * or one that raises after delivering `chunks` (possibly none, when the
   * request itself fails).
   */
  datatype LlmStream = Ok(chunks: seq<Chunk>) | Err(chunks: seq<Chunk>)

  // ---------------------------------------------------------------------------
  // Constants
  // ---------------------------------------------------------------------------

  /** The most turns the routine sends to the model. */
  const MaxHistoryLength: nat := 21

  /** The contents of knowledge_base.txt when present, "" otherwise; read once at import. */
  const KnowledgeBase: string

  const PersonaInstructions: string :=
    "आप एक महिला स्मार्ट AI सहायक हैं जिसका नाम दर्शिनी है। आप नासिक में आगामी कुंभ मेले में आने वाले श्रद्धालुओं और यात्रियों की सहायता के लिए बनाई गई हैं। " +
    "आपका उद्देश्य सटीक, वास्तविक समय, और संदर्भ-आधारित सहायता प्रदान करना है ताकि एक सुगम, सुरक्षित, और आध्यात्मिक रूप से संतुष्ट करने वाला अनुभव सुनिश्चित हो सके।\n\n" +
    "मुख्य कार्य जो आपको संभालने हैं:\n\n" +
    "नेवीगेशन और स्थान सहायता:\n" +
    "• मुख्य घाटों, मंदिरों, पंडालों, अखाड़ों और कार्यक्रम स्थलों का मार्गदर्शन करें।\n" +
    "• निकटतम शौचालय, पानी के स्टेशन, चिकित्सा शिविर, और खाने की दुकानों का सुझाव दें।\n" +
    "• भीड़ की घनत्व और प्रवेश प्रतिबंधों के आधार पर दिशा और यात्रा समय साझा करें।\n\n" +
    "खो गया और मिला:\n" +
    "• उपयोगकर्ताओं को खोए हुए व्यक्ति या वस्तु की रिपोर्ट करने में मदद करें।\n" +
    "• आधिकारिक खो गया और मिला केंद्रों से अपडेट साझा करें।\n" +
    "• रिपोर्ट करने वाले उपयोगकर्ताओं और अधिकारियों के बीच वास्तविक समय संचार में सहायता करें।\n\n" +
    "आपातकालीन सेवाएं:\n" +
    "• आपातकालीन संपर्क नंबर प्रदान करें (पुलिस, एम्बुलेंस, अग्निशमन)।\n" +
    "• निकटतम सहायता केंद्र, प्राथमिक चिकित्सा तंबू, या पुलिस बूथ तक मार्गदर्शन करें।\n" +
    "• बुनियादी प्राथमिक चिकित्सा, अग्नि सुरक्षा, या भीड़ प्रबंधन के निर्देश दें।\n\n" +
    "आध्यात्मिक और सांस्कृतिक जानकारी:\n" +
    "• सिंहस्थ का महत्व, इसके अनुष्ठान, और स्नान के दिनों की व्याख्या करें।\n" +
    "• प्रत्येक दिन होने वाले कार्यक्रम, आध्यात्मिक प्रवचन, और जुलूसों की सूची दें।\n" +
    "• आरती, शाही स्नान, और भंडारे का समय और स्थान प्रदान करें।\n\n" +
    "स्थानीय सेवाएं और आवास:\n" +
    "• होटल, धर्मशाला, या तंबू सुविधाओं का सुझाव दें।\n" +
    "• सार्वजनिक परिवहन, ई-रिक्शा, और पार्किंग क्षेत्रों का सत्यापित विवरण दें।\n" +
    "• क्लोकरूम या सामान भंडारण खोजने में मदद करें।\n\n" +
    "महत्वपूर्ण अधिसूचनाएं:\n" +
    "• भीड़ की भीड़, मौसम अपडेट, और सुरक्षा सलाह के बारे में अलर्ट करें।\n" +
    "• सड़क अवरोधों, वीआईपी आंदोलनों, या प्रतिबंधित क्षेत्रों के बारे में सूचित करें।\n\n" +
    "आपकी बोलचाल का तरीका: विनम्र, शांत, सहायक, और आध्यात्मिक रूप से सम्मानजनक हो। " +
    "आप मुख्यतः हिंदी में जवाब दें, लेकिन जरूरत पड़ने पर अंग्रेजी या अन्य भारतीय भाषाओं में भी सहायता कर सकती हैं। " +
    "संक्षिप्त और स्पष्ट उत्तर दें। बातचीत के इतिहास से संदर्भ बनाए रखें।"

  /** The persona followed by the knowledge base, framed by blank lines. */
  const SystemPrompt: string := "\n" + PersonaInstructions + "\n\n" + KnowledgeBase + "\n\n"

  // The two fallback literals are written in two pieces (same value as the source's single
  // literal) because the verifier does not unfold the characters of a long literal.

  /** Returned, and recorded, when the model produced only whitespace. */
  const NoAnswerFallback: string := "मुझे खुशी है, " + "मैंने उचित उत्तर नहीं दिया। कृपया फिर से कोशिश करें।"

  /** Returned, and not recorded, when the model call raised. */
  const ErrorFallback: string := "मुझे खुशी है, " + "मुझे एक त्रुटि का सामना करना पड़ा और अभी मैं जवाब नहीं दे सकती।"

  // ---------------------------------------------------------------------------
  // Blank text, as tested by `not s.strip()`
  // ---------------------------------------------------------------------------

  /** The characters Python's `str.isspace` accepts, which `str.strip()` removes. */
  predicate IsSpace(c: char) {
    || '\t' <= c <= '\r'
    || '\U{1C}' <= c <= ' '
    || c == '\U{85}' || c == '\U{A0}' || c == '\U{1680}'
    || '\U{2000}' <= c <= '\U{200A}'
    || c == '\U{2028}' || c == '\U{2029}' || c == '\U{202F}' || c == '\U{205F}' || c == '\U{3000}'
  }

  /** Every character of `s` is whitespace. */
  predicate IsBlank(s: string) {
    forall i :: 0 <= i < |s| ==> IsSpace(s[i])
  }

  /** `lstrip()`: drops leading whitespace. */
  function StripLeading(s: string): (r: string)
    ensures r != "" ==> !IsSpace(r[0])
    ensures r == "" <==> IsBlank(s)
    decreases |s|
  {
    if s != "" && IsSpace(s[0]) then
      assert forall i :: 1 <= i < |s| ==> s[i] == s[1..][i - 1];
      StripLeading(s[1..])
    else s
  }

  /** `rstrip()`: drops trailing whitespace. */
  function StripTrailing(s: string): (r: string)
    ensures r != "" ==> !IsSpace(r[|r| - 1])
    ensures r == "" <==> IsBlank(s)
    decreases |s|
  {
    if s != "" && IsSpace(s[|s| - 1]) then StripTrailing(s[..|s| - 1]) else s
  }

  /** `strip()`: drops leading and trailing whitespace. */
  function Strip(s: string): string {
    StripTrailing(StripLeading(s))
  }

  /** `not s.strip()` holds exactly when `s` is blank. */
  lemma StripEmptyIffBlank(s: string)
    ensures Strip(s) == "" <==> IsBlank(s)
  {
    var l := StripLeading(s);
    if l != "" {
      assert !IsBlank(l) by { assert !IsSpace(l[0]); }
    }
  }

  /** Both fallback texts are speakable: neither strips to nothing. */
  lemma FallbacksAreNotBlank()
    ensures !IsBlank(NoAnswerFallback) && !IsBlank(ErrorFallback)
  {
    assert NoAnswerFallback[0] == 'म' && !IsSpace(NoAnswerFallback[0]);
    assert ErrorFallback[0] == 'म' && !IsSpace(ErrorFallback[0]);
  }

  // ---------------------------------------------------------------------------
  // Specification functions
  // ---------------------------------------------------------------------------

  /** The text a chunk contributes: its delta's content when both are present. */
  function ContentOf(c: Chunk): (r: string)
    ensures r != "" ==> c.delta.Some? && c.delta.value.content.Some? && r == c.delta.value.content.value
  {
    if c.delta.Some? && c.delta.value.content.Some? then c.delta.value.content.value else ""
  }

  /** The text the streaming loop accumulates over `cs`, in stream order. */
  function StreamText(cs: seq<Chunk>): string {
    if cs == [] then "" else StreamText(cs[..|cs| - 1]) + ContentOf(cs[|cs| - 1])
  }

  /** The history after the optional system turn and the user turn are appended. */
  function Prepared(h: seq<Turn>, userInput: string): seq<Turn> {
    (if h == [] then [Turn(System, SystemPrompt)] else h) + [Turn(User, userInput)]
  }

  /**
   * The list the local name refers to after the cap: the first turn and the
   * last MaxHistoryLength - 1 turns once there are more than MaxHistoryLength.
   */
  function Capped(h: seq<Turn>): (r: seq<Turn>)
    ensures |r| == if |h| <= MaxHistoryLength then |h| else MaxHistoryLength
    ensures h != [] ==> r != [] && r[0] == h[0]
    ensures forall i :: 1 <= i < |r| ==> r[i] == h[|h| - |r| + i]
    ensures multiset(r) <= multiset(h)
    ensures |h| <= MaxHistoryLength ==> r == h
  {
    if |h| <= MaxHistoryLength then h
    else
      var r := [h[0]] + h[|h| - (MaxHistoryLength - 1)..];
      assert h == [h[0]] + h[1..|h| - (MaxHistoryLength - 1)] + h[|h| - (MaxHistoryLength - 1)..];
      r
  }

  /** Whether the cap fires, so that the local name is rebound to a new list. */
  predicate Truncates(h: seq<Turn>, userInput: string) {
    |Prepared(h, userInput)| > MaxHistoryLength
  }

  /** The turn sequence sent to the model. */
  function Context(h: seq<Turn>, userInput: string): seq<Turn> {
    Capped(Prepared(h, userInput))
  }

  /** The assembled text, or the no-answer fallback when it is blank. */
  function FinalText(text: string): (r: string)
    ensures !IsBlank(r)
    ensures !IsBlank(text) ==> r == text
  {
    if IsBlank(text) then
      FallbacksAreNotBlank();
      NoAnswerFallback
    else text
  }

  /** The text the routine returns for a given model outcome. */
  function ReplyFor(stream: LlmStream): (r: string)
    ensures !IsBlank(r)
    ensures stream.Err? ==> r == ErrorFallback
    ensures stream.Ok? && !IsBlank(StreamText(stream.chunks)) ==> r == StreamText(stream.chunks)
    ensures stream.Ok? && IsBlank(StreamText(stream.chunks)) ==> r == NoAnswerFallback
  {
    match stream
    case Ok(cs) => FinalText(StreamText(cs))
    case Err(_) =>
      FallbacksAreNotBlank();
      ErrorFallback
  }

  /** The final contents of the list the local name ends up referring to. */
  function LocalAfter(h: seq<Turn>, userInput: string, stream: LlmStream): seq<Turn> {
    Context(h, userInput) + (if stream.Ok? then [Turn(Assistant, ReplyFor(stream))] else [])
  }

  /** The final contents of the caller's list. */
  function CallerAfter(h: seq<Turn>, userInput: string, stream: LlmStream): seq<Turn> {
    if Truncates(h, userInput) then Prepared(h, userInput) else LocalAfter(h, userInput, stream)
  }

  // ---------------------------------------------------------------------------
  // The caller-owned history list
  // ---------------------------------------------------------------------------

  /** A mutable list of turns, shared by reference like a Python list. */
  class History {
    var turns: seq<Turn>

    constructor (initial: seq<Turn>)
      ensures turns == initial
    {
      turns := initial;
    }

    method Append(t: Turn)
      modifies this
      ensures turns == old(turns) + [t]
    {
      turns := turns + [t];
    }
  }

  // ---------------------------------------------------------------------------
  // Operations
  // ---------------------------------------------------------------------------

  /**
   * The streaming loop: concatenates the content of every chunk whose delta
   * and content are present; `None` when the stream raised.
   */
  method ConsumeStream(stream: LlmStream) returns (text: Option<string>)
    ensures stream.Ok? ==> text == Some(StreamText(stream.chunks))
    ensures stream.Err? ==> text == None
  {
    var responseText := "";
    var i := 0;
    while i < |stream.chunks|
      invariant 0 <= i <= |stream.chunks|
      invariant responseText == StreamText(stream.chunks[..i])
    {
      var chunk := stream.chunks[i];
      if chunk.delta.Some? {
        if chunk.delta.value.content.Some? {
          responseText := responseText + chunk.delta.value.content.value;
        }
      }
      assert stream.chunks[..i + 1][..i] == stream.chunks[..i];
      i := i + 1;
    }
    assert stream.chunks[..i] == stream.chunks;
    text := if stream.Ok? then Some(responseText) else None;
  }

  /**
   * `get_ai_response`. Returns the reply and the object the routine's local
   * name refers to at the end: the caller's own list, unless the cap fired and
   * rebound it to a fresh one.
   */
  method GetAiResponse(userInput: string, conversationHistory: History, stream: LlmStream)
    returns (reply: string, local: History)
    modifies conversationHistory
    ensures reply == ReplyFor(stream)
    ensures conversationHistory.turns == CallerAfter(old(conversationHistory.turns), userInput, stream)
    ensures local.turns == LocalAfter(old(conversationHistory.turns), userInput, stream)
    ensures Truncates(old(conversationHistory.turns), userInput) ==> fresh(local)
    ensures !Truncates(old(conversationHistory.turns), userInput) ==> local == conversationHistory
  {
    ghost var h := conversationHistory.turns;
    if conversationHistory.turns == [] {
      conversationHistory.Append(Turn(System, SystemPrompt));
    }
    conversationHistory.Append(Turn(User, userInput));
    assert conversationHistory.turns == Prepared(h, userInput);

    local := conversationHistory;
    if |local.turns| > MaxHistoryLength {
      local := new History([local.turns[0]] + local.turns[|local.turns| - (MaxHistoryLength - 1)..]);
    }
    assert local.turns == Context(h, userInput);
    assert conversationHistory.turns == Prepared(h, userInput);

    var text := ConsumeStream(stream);
    match text {
      case None =>
        reply := ErrorFallback;
      case Some(t) =>
        var responseText := t;
        StripEmptyIffBlank(responseText);
        if Strip(responseText) == "" {
          responseText := NoAnswerFallback;
        }
        assert responseText == ReplyFor(stream);
        local.Append(Turn(Assistant, responseText));
        reply := responseText;
    }
  }

  // ---------------------------------------------------------------------------
  // Properties
  // ---------------------------------------------------------------------------

  /** The loop's text over two stream segments is the text of each, in order. */
  lemma {:induction false} StreamTextConcat(a: seq<Chunk>, b: seq<Chunk>)
    ensures StreamText(a + b) == StreamText(a) + StreamText(b)
    decreases |b|
  {
    if b == [] {
      assert a + b == a;
    } else {
      var b', last := b[..|b| - 1], b[|b| - 1];
      assert (a + b)[..|a + b| - 1] == a + b';
      assert (a + b)[|a + b| - 1] == last;
      assert StreamText(a + b) == StreamText(a + b') + ContentOf(last);
      StreamTextConcat(a, b');
      assert StreamText(b) == StreamText(b') + ContentOf(last);
    }
  }

  /** A chunk with a content contributes exactly that content. */
  lemma StreamTextOne(c: Chunk)
    ensures StreamText([c]) == ContentOf(c)
    ensures c.delta.Some? && c.delta.value.content.Some? ==> StreamText([c]) == c.delta.value.content.value
  {
    assert [c][..0] == [];
  }

  /** A chunk missing its delta or its content changes nothing, wherever it occurs. */
  lemma StreamTextSkipsEmptyChunk(a: seq<Chunk>, c: Chunk, b: seq<Chunk>)
    requires c.delta.None? || c.delta.value.content.None?
    ensures StreamText(a + [c] + b) == StreamText(a + b)
  {
    StreamTextConcat(a + [c], b);
    StreamTextConcat(a, [c]);
    StreamTextOne(c);
    StreamTextConcat(a, b);
  }

  /** The system prompt is a newline, the persona, a blank line, the knowledge base and a blank line. */
  lemma SystemPromptFramesPersonaAndKnowledge()
    ensures Framed(SystemPrompt, PersonaInstructions, KnowledgeBase)
  {
    FramedLayout(PersonaInstructions, KnowledgeBase);
  }

  /** `s` is `p` and `k` laid out as the system prompt's template lays them out. */
  predicate Framed(s: string, p: string, k: string) {
    && |s| == |p| + |k| + 5
    && s[..1] == "\n"
    && s[1..|p| + 1] == p
    && s[|p| + 1..|p| + 3] == "\n\n"
    && s[|p| + 3..|p| + |k| + 3] == k
    && s[|p| + |k| + 3..] == "\n\n"
  }

  lemma FramedLayout(p: string, k: string)
    ensures Framed("\n" + p + "\n\n" + k + "\n\n", p, k)
  {
    var s0 := "\n" + p;
    var s1 := s0 + "\n\n";
    var s2 := s1 + k;
    assert s2[..|p| + 3] == s1;
    assert s1[..|p| + 1] == s0;
  }

  /** An empty history gets the system prompt as its first turn; a non-empty one keeps its turns and gets no system turn. */
  lemma SystemTurnSeededOnlyWhenEmpty(h: seq<Turn>, userInput: string, stream: LlmStream)
    ensures var after := CallerAfter(h, userInput, stream);
      && (h == [] ==> after[0] == Turn(System, SystemPrompt))
      && (h != [] ==> |after| > |h| && after[..|h|] == h
                      && forall i :: |h| <= i < |after| ==> after[i].role != System)
  {
  }

  /** The user turn reaches the caller's list on every outcome of the model call. */
  lemma UserTurnAlwaysRecorded(h: seq<Turn>, userInput: string, stream: LlmStream)
    ensures var after := CallerAfter(h, userInput, stream);
      var n := if h == [] then 1 else |h|;
      |after| > n && after[n] == Turn(User, userInput)
  {
  }

  /** The turns sent to the model: at most 21, the first turn kept, and exactly the first plus the last 20 once over the cap. */
  lemma ContextIsCapped(h: seq<Turn>, userInput: string)
    ensures var p := Prepared(h, userInput);
      var ctx := Context(h, userInput);
      && |ctx| <= MaxHistoryLength
      && ctx[0] == p[0]
      && ctx[|ctx| - 1] == Turn(User, userInput)
      && (Truncates(h, userInput) ==> ctx == [p[0]] + p[|p| - 20..] && |ctx| == 21)
      && (!Truncates(h, userInput) ==> ctx == p)
  {
  }

  /** The caller's list is never shortened: its old turns stay as a prefix and it grows. */
  lemma CallerListNeverShortened(h: seq<Turn>, userInput: string, stream: LlmStream)
    ensures var after := CallerAfter(h, userInput, stream);
      |after| > |h| && after[..|h|] == h
  {
  }

  /** When the cap fires, the caller's list gains only the user turn; the reply goes to the local copy. */
  lemma TruncationDropsAssistantTurnFromCaller(h: seq<Turn>, userInput: string, stream: LlmStream)
    requires Truncates(h, userInput)
    ensures CallerAfter(h, userInput, stream) == h + [Turn(User, userInput)]
    ensures stream.Ok? ==> LocalAfter(h, userInput, stream)[MaxHistoryLength] == Turn(Assistant, ReplyFor(stream))
  {
  }

  /** Once the caller's list holds 21 turns, every later call appends only the user turn. */
  lemma {:induction false} CallerListGrowsByUserTurnsOnly(h: seq<Turn>, inputs: seq<string>, streams: seq<LlmStream>)
    requires |h| >= MaxHistoryLength
    requires |inputs| == |streams|
    ensures CallerAfterAll(h, inputs, streams) == h + UserTurns(inputs)
    decreases |inputs|
  {
    if inputs != [] {
      var h' := CallerAfter(h, inputs[0], streams[0]);
      assert Truncates(h, inputs[0]);
      CallerListGrowsByUserTurnsOnly(h', inputs[1..], streams[1..]);
      assert UserTurns(inputs) == [Turn(User, inputs[0])] + UserTurns(inputs[1..]);
    }
  }

  /** The caller's list after one call per input, in order. */
  function CallerAfterAll(h: seq<Turn>, inputs: seq<string>, streams: seq<LlmStream>): seq<Turn>
    requires |inputs| == |streams|
    decreases |inputs|
  {
    if inputs == [] then h
    else CallerAfterAll(CallerAfter(h, inputs[0], streams[0]), inputs[1..], streams[1..])
  }

  /** User turns for each input, in order. */
  function UserTurns(inputs: seq<string>): seq<Turn>
    decreases |inputs|
  {
    if inputs == [] then [] else [Turn(User, inputs[0])] + UserTurns(inputs[1..])
  }

  /** On success the reply is the last turn of the local list, as an assistant turn; on failure no assistant turn is added anywhere. */
  lemma ReplyIsLastAssistantTurn(h: seq<Turn>, userInput: string, stream: LlmStream)
    ensures var local := LocalAfter(h, userInput, stream);
      stream.Ok? ==> local[|local| - 1] == Turn(Assistant, ReplyFor(stream))
    ensures stream.Err? ==>
      && LocalAfter(h, userInput, stream) == Context(h, userInput)
      && CallerAfter(h, userInput, stream) == Prepared(h, userInput)
  {
  }

  /** The returned text is never blank, and without truncation the caller's list ends with it on success. */
  lemma ReplyRecordedForCallerWithoutTruncation(h: seq<Turn>, userInput: string, stream: LlmStream)
    requires !Truncates(h, userInput) && stream.Ok?
    ensures CallerAfter(h, userInput, stream) == Prepared(h, userInput) + [Turn(Assistant, ReplyFor(stream))]
    ensures !IsBlank(CallerAfter(h, userInput, stream)[|Prepared(h, userInput)|].content)
  {
  }
}
