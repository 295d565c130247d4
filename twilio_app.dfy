/**
 * The call-session controller of twilio_app.py: the process-wide
 * `conversations` table from call id to history, and the two webhook
 * handlers `incoming_call` and `handle_speech`, which update that table and
 * build the voice instructions returned to the telephony provider.
 *
 * Instructions are values of `Verb` rather than XML markup.
 */
module TwilioApp {

  import opened Wrappers
  import opened AiCore

  // ---------------------------------------------------------------------------
  // Data model
  // ---------------------------------------------------------------------------

  /** The `CallSid` form field, which may be absent; an absent id is a key like any other. */
  type CallSid = Option<string>

  /** One voice instruction. A `Gather` listens for speech and posts it to `action`, after speaking `says`. */
  datatype Verb =
    | Say(text: string)
    | Gather(action: string, says: seq<string>)
    | Redirect(url: string)
    | Hangup

  /** The abstract session table: each call id's history contents. */
  type Table = map<CallSid, seq<Turn>>

  const IncomingPath: string := "/voice/incoming"
  const HandleSpeechPath: string := "/voice/handle-speech"

  const Greeting: string := "नमस्ते, आपका स्वागत है आज मैं आपकी कैसे सहायता कर सकती हूं?"
  const SessionProblem: string := "मुझे खुशी है, हमारे सत्र में कोई समस्या थी। कृपया वापस कॉल करें।"
  const NothingHeard: string := "मुझे कुछ सुनाई नहीं दिया। कृपया दोहराएं।"

  /** Python truthiness of the `SpeechResult` field: present and not the empty string. */
  predicate HasSpeech(speech: Option<string>): (r: bool)
    ensures speech.None? ==> !r
    ensures !r ==> speech == None || speech == Some("")
    ensures speech.Some? && speech.value != "" && IsBlank(speech.value) ==> r
  {
    speech.Some? && speech.value != ""
  }

  // ---------------------------------------------------------------------------
  // Specification functions
  // ---------------------------------------------------------------------------

  /** The instructions `incoming_call` returns. */
  function IncomingReply(): (r: seq<Verb>)
    ensures |r| == 2 && Hangup !in r
    ensures r[0].Gather? && r[0].action == HandleSpeechPath && r[0].says == [Greeting]
    ensures r[|r| - 1] == Redirect(IncomingPath)
  {
    [Gather(HandleSpeechPath, [Greeting]), Redirect(IncomingPath)]
  }

  /** The table after a call-started event. */
  function AfterIncoming(t: Table, sid: CallSid): (r: Table)
    ensures r.Keys == t.Keys + {sid}
    ensures forall k :: k in t ==> r[k] == t[k]
    ensures sid !in t ==> r[sid] == []
  {
    if sid in t then t else t[sid := []]
  }

  datatype SpeechStep = SpeechStep(table: Table, reply: seq<Verb>)

  /** The table and the instructions after a speech-recognized event. */
  function AfterSpeech(t: Table, sid: CallSid, speech: Option<string>, stream: LlmStream): (r: SpeechStep)
    ensures r.table.Keys == t.Keys
    ensures forall k :: k in t && k != sid ==> r.table[k] == t[k]
    ensures |r.reply| >= 2
    ensures r.reply[|r.reply| - 1] == Hangup <==> sid !in t
    ensures sid in t ==> r.reply[|r.reply| - 1] == Redirect(HandleSpeechPath)
    ensures sid in t ==> r.reply[|r.reply| - 2].Gather? && r.reply[|r.reply| - 2].action == HandleSpeechPath
  {
    if sid !in t then
      SpeechStep(t, [Say(SessionProblem), Hangup])
    else if HasSpeech(speech) then
      var aiText := ReplyFor(stream);
      SpeechStep(t[sid := CallerAfter(t[sid], speech.value, stream)],
                 [Gather(HandleSpeechPath, [aiText]), Redirect(HandleSpeechPath)])
    else
      SpeechStep(t, [Say(NothingHeard), Gather(HandleSpeechPath, []), Redirect(HandleSpeechPath)])
  }

  // ---------------------------------------------------------------------------
  // The session table and the handlers
  // ---------------------------------------------------------------------------

  /** The process-wide `conversations` dictionary and the two handlers that use it. */
  class CallSessions {
    var conversations: map<CallSid, History>

    /** No two calls share a history object. */
    ghost predicate Valid()
      reads this
    {
      forall a, b :: a in conversations && b in conversations && a != b ==> conversations[a] != conversations[b]
    }

    ghost function Contents(): Table
      reads this, conversations.Values
    {
      map k | k in conversations :: conversations[k].turns
    }

    constructor ()
      ensures Valid() && Contents() == map[]
    {
      conversations := map[];
    }

    /** `incoming_call`: registers an unseen call with an empty history and greets the caller. */
    method IncomingCall(callSid: CallSid) returns (document: seq<Verb>)
      requires Valid()
      modifies this
      ensures Valid()
      ensures Contents() == AfterIncoming(old(Contents()), callSid)
      ensures callSid in old(conversations) ==> conversations == old(conversations)
      ensures forall k :: k in old(conversations) ==> k in conversations && conversations[k] == old(conversations)[k]
      ensures callSid !in old(conversations) ==> fresh(conversations[callSid])
      ensures document == IncomingReply()
    {
      ghost var t := Contents();
      var twiml: seq<Verb> := [];
      if callSid !in conversations {
        var history := new History([]);
        conversations := conversations[callSid := history];
        forall k | k in conversations
          ensures conversations[k].turns == t[callSid := []][k]
        {
        }
      }
      ghost var table := Contents();
      assert table == AfterIncoming(t, callSid);
      twiml := twiml + [Gather(HandleSpeechPath, [Greeting])];
      twiml := twiml + [Redirect(IncomingPath)];
      document := twiml;
      assert Contents() == table;
    }

    /** Lines 100-102 of `handle_speech`: runs the dialogue routine on the call's own history and stores that object back. */
    method Converse(callSid: CallSid, userSpeech: string, stream: LlmStream) returns (aiTextResponse: string)
      requires Valid() && callSid in conversations
      modifies this, conversations[callSid]
      ensures Valid() && conversations == old(conversations)
      ensures aiTextResponse == ReplyFor(stream)
      ensures Contents() == old(Contents())[callSid := CallerAfter(old(conversations[callSid].turns), userSpeech, stream)]
    {
      ghost var t := Contents();
      var history := conversations[callSid];
      ghost var h := history.turns;
      var reply, _ := GetAiResponse(userSpeech, history, stream);
      aiTextResponse := reply;
      conversations := conversations[callSid := history];
      assert conversations == old(conversations);
      forall k | k in conversations
        ensures conversations[k].turns == t[callSid := CallerAfter(h, userSpeech, stream)][k]
      {
        if k != callSid {
          assert conversations[k] != history;
        }
      }
    }

    /** `handle_speech`: hangs up on an unknown call, re-prompts on empty speech, and otherwise speaks the assistant's reply. */
    method HandleSpeech(callSid: CallSid, userSpeech: Option<string>, stream: LlmStream)
      returns (document: seq<Verb>)
      requires Valid()
      modifies this, conversations.Values
      ensures Valid() && conversations == old(conversations)
      ensures SpeechStep(Contents(), document) == AfterSpeech(old(Contents()), callSid, userSpeech, stream)
    {
      ghost var t := Contents();
      var twiml: seq<Verb> := [];
      if callSid !in conversations {
        twiml := twiml + [Say(SessionProblem)];
        twiml := twiml + [Hangup];
        document := twiml;
        assert Contents() == t;
        return;
      }
      ghost var table;
      if HasSpeech(userSpeech) {
        var aiTextResponse := Converse(callSid, userSpeech.value, stream);
        table := Contents();
        twiml := twiml + [Gather(HandleSpeechPath, [aiTextResponse])];
      } else {
        twiml := twiml + [Say(NothingHeard)];
        twiml := twiml + [Gather(HandleSpeechPath, [])];
        table := Contents();
        assert table == t;
      }
      twiml := twiml + [Redirect(HandleSpeechPath)];
      document := twiml;
      assert Contents() == table;
    }
  }

  // ---------------------------------------------------------------------------
  // Properties of single events
  // ---------------------------------------------------------------------------

  /** Speech for an unknown id: session-problem message then hang up, table unchanged. */
  lemma UnknownSessionHangsUp(t: Table, sid: CallSid, speech: Option<string>, stream: LlmStream)
    requires sid !in t
    ensures AfterSpeech(t, sid, speech, stream) == SpeechStep(t, [Say(SessionProblem), Hangup])
  {
  }

  /** Empty or absent speech for a known id: nothing-heard message, listen again, redirect; history unchanged. */
  lemma EmptySpeechReprompts(t: Table, sid: CallSid, speech: Option<string>, stream: LlmStream)
    requires sid in t && !HasSpeech(speech)
    ensures AfterSpeech(t, sid, speech, stream)
      == SpeechStep(t, [Say(NothingHeard), Gather(HandleSpeechPath, []), Redirect(HandleSpeechPath)])
  {
  }

  /** Non-empty speech for a known id runs the dialogue routine on that text and that history, and speaks its reply inside a gather. */
  lemma SpeechInvokesDialogue(t: Table, sid: CallSid, speech: Option<string>, stream: LlmStream)
    requires sid in t && HasSpeech(speech)
    ensures var r := AfterSpeech(t, sid, speech, stream);
      && r.table == t[sid := CallerAfter(t[sid], speech.value, stream)]
      && r.reply == [Gather(HandleSpeechPath, [ReplyFor(stream)]), Redirect(HandleSpeechPath)]
      && !IsBlank(r.reply[0].says[0])
  {
  }

  /** The dialogue routine is not consulted on the unknown-id and no-speech paths: the outcome is the same for every model answer. */
  lemma NoDialogueWithoutSpeech(t: Table, sid: CallSid, speech: Option<string>, s1: LlmStream, s2: LlmStream)
    requires sid !in t || !HasSpeech(speech)
    ensures AfterSpeech(t, sid, speech, s1) == AfterSpeech(t, sid, speech, s2)
  {
  }

  // ---------------------------------------------------------------------------
  // Properties of event sequences
  // ---------------------------------------------------------------------------

  datatype Event =
    | CallStarted(sid: CallSid)
    | SpeechRecognized(sid: CallSid, speech: Option<string>, stream: LlmStream)

  /** The table after one event. */
  function Step(t: Table, e: Event): Table {
    match e
    case CallStarted(sid) => AfterIncoming(t, sid)
    case SpeechRecognized(sid, speech, stream) => AfterSpeech(t, sid, speech, stream).table
  }

  /** The table after a sequence of events, in delivery order. */
  function Run(t: Table, es: seq<Event>): Table
    decreases |es|
  {
    if es == [] then t else Run(Step(t, es[0]), es[1..])
  }

  /** No event removes an entry: the key set only grows. */
  lemma {:induction false} KeysOnlyGrow(t: Table, es: seq<Event>)
    ensures t.Keys <= Run(t, es).Keys
    decreases |es|
  {
    if es != [] {
      KeysOnlyGrow(Step(t, es[0]), es[1..]);
    }
  }

  /** A call id that no event names keeps its entry, or its absence, unchanged. */
  lemma {:induction false} OtherSessionsUntouched(t: Table, es: seq<Event>, k: CallSid)
    requires forall i :: 0 <= i < |es| ==> es[i].sid != k
    ensures k in Run(t, es) <==> k in t
    ensures k in t ==> Run(t, es)[k] == t[k]
    decreases |es|
  {
    if es != [] {
      OtherSessionsUntouched(Step(t, es[0]), es[1..], k);
    }
  }

  /** Only call-started creates a session: an id absent at the start and never started stays absent, so its speech always hangs up. */
  lemma {:induction false} OnlyCallStartedCreatesSessions(t: Table, es: seq<Event>, k: CallSid)
    requires k !in t
    requires forall i :: 0 <= i < |es| ==> es[i] != CallStarted(k)
    ensures k !in Run(t, es)
    decreases |es|
  {
    if es != [] {
      OnlyCallStartedCreatesSessions(Step(t, es[0]), es[1..], k);
    }
  }

  /** Speech for an id absent at the start and never named by a call-started event always gets the session-problem message and a hang-up. */
  lemma NeverStartedSpeechHangsUp(t: Table, es: seq<Event>, k: CallSid)
    requires k !in t
    requires forall i :: 0 <= i < |es| ==> es[i] != CallStarted(k)
    ensures forall i | 0 <= i < |es| && es[i].SpeechRecognized? && es[i].sid == k ::
      AfterSpeech(Run(t, es[..i]), k, es[i].speech, es[i].stream).reply == [Say(SessionProblem), Hangup]
  {
    forall i | 0 <= i < |es| && es[i].SpeechRecognized? && es[i].sid == k
      ensures AfterSpeech(Run(t, es[..i]), k, es[i].speech, es[i].stream).reply == [Say(SessionProblem), Hangup]
    {
      OnlyCallStartedCreatesSessions(t, es[..i], k);
    }
  }

  /** A call is started, asked a question, and then hears nothing. */
  lemma EndToEndScenario(stream: LlmStream, unused: LlmStream)
    ensures var a1: CallSid := Some("A1");
      var t1 := AfterIncoming(map[], a1);
      var s2 := AfterSpeech(t1, a1, Some("Where is the medical camp?"), stream);
      var s3 := AfterSpeech(s2.table, a1, Some(""), unused);
      && t1 == map[a1 := []]
      && s2.table[a1][0] == Turn(System, SystemPrompt)
      && s2.table[a1][1] == Turn(User, "Where is the medical camp?")
      && s2.reply == [Gather(HandleSpeechPath, [ReplyFor(stream)]), Redirect(HandleSpeechPath)]
      && !IsBlank(ReplyFor(stream))
      && s3 == SpeechStep(s2.table, [Say(NothingHeard), Gather(HandleSpeechPath, []), Redirect(HandleSpeechPath)])
  {
  }
}
