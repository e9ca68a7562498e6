/**
  The per-user session and the request handlers that change it: lazy
  initialisation before every request, the profile update, the chat and
  symptom-analysis exchanges that append to the conversation history, and
  clearing the history. The text generator is a parameter.
*/
module Session {
  import opened Wrappers
  import opened Profile
  import opened Context
  import opened Extractor

  /** One exchange in the conversation history. The timestamp is the caller's wall-clock text. */
  datatype Entry = Entry(timestamp: string, user: string, assistant: string, category: string)

  /** What a prompt is built from; the surrounding wording is fixed text. */
  datatype Prompt = ChatPrompt(context: string, message: string) | SymptomPrompt(symptoms: string)

  /** What the text generator does with a prompt: returns text, or raises with an error message. */
  datatype Generation = Generated(text: string) | Failed(error: string)

  /** The JSON a handler answers with; `Success` carries the optional `message` that goes with `'success': True`. */
  datatype Reply =
    | Answer(response: string, suggestProfileUpdate: bool, extractedInfo: Option<map<string, string>>)
    | Analysis(analysis: string)
    | Success(note: Option<string>)
    | Error(status: nat, message: string)

  /** The fields `chat` reads from the request body, absent keys already replaced by their defaults. */
  datatype ChatRequest = ChatRequest(message: string, category: string, updateProfile: bool, profileData: Option<Patch>)

  /** The two session keys; `None` is a key the session does not hold. */
  datatype SessionData = SessionData(history: Option<seq<Entry>>, profile: Option<Profile>)

  const NoMessage: string := "No message provided"
  const SymptomPrefix: string := "Symptom analysis request: "
  const ProfileSaved: string := "Profile updated successfully"

  predicate Ready(s: SessionData) {
    s.history.Some? && s.profile.Some?
  }

  /** The request's profile data, when present, holds values of the right kinds. */
  predicate TypedRequest(req: ChatRequest) {
    req.profileData.Some? ==> WellTyped(req.profileData.value)
  }

  /** `initialize_session`: each missing key gets its default, present keys are kept. */
  function Initialized(s: SessionData): (r: SessionData)
    ensures Ready(r)
  {
    SessionData(Some(s.history.GetOr([])), Some(s.profile.GetOr(DefaultProfile)))
  }

  /** `update_user_profile` on the session. */
  function ProfileUpdated(s: SessionData, patch: Patch): (r: SessionData)
    requires s.profile.Some? && WellTyped(patch)
  {
    s.(profile := Some(Merged(s.profile.value, patch)))
  }

  /** The session after `chat` has applied the request's profile data, if it asked to. */
  function Patched(s: SessionData, req: ChatRequest): SessionData
    requires s.profile.Some? && TypedRequest(req)
  {
    if req.updateProfile && req.profileData.Some? then ProfileUpdated(s, req.profileData.value) else s
  }

  /** `chat`: the new session and the reply. */
  function ChatOutcome(s: SessionData, req: ChatRequest, timestamp: string, generate: Prompt -> Generation): (r: (SessionData, Reply))
    requires Ready(s) && TypedRequest(req)
  {
    if req.message == "" then (s, Error(400, NoMessage))
    else
      var p := Patched(s, req);
      match generate(ChatPrompt(PrepareContext(p.profile, req.category), req.message))
      case Failed(e) => (p, Error(500, e))
      case Generated(text) =>
        var extracted := Extraction(req.message);
        (p.(history := Some(p.history.value + [Entry(timestamp, req.message, text, req.category)])),
         Answer(text, extracted.Some?, extracted))
  }

  /** `analyze_symptoms`: the new session and the reply. */
  function SymptomOutcome(s: SessionData, symptoms: string, timestamp: string, generate: Prompt -> Generation): (r: (SessionData, Reply))
    requires Ready(s)
  {
    match generate(SymptomPrompt(symptoms))
    case Failed(e) => (s, Error(500, e))
    case Generated(text) =>
      (s.(history := Some(s.history.value + [Entry(timestamp, SymptomPrefix + symptoms, text, "symptoms")])), Analysis(text))
  }

  /** `clear_history`. */
  function Cleared(s: SessionData): (r: SessionData) {
    s.(history := Some([]))
  }

  /**
    Initialisation fills in the defaults (an empty history, the default
    profile), keeps what is present, and a second run changes nothing.
  */
  lemma InitializeDefaults(s: SessionData)
    ensures Initialized(SessionData(None, None)) == SessionData(Some([]), Some(DefaultProfile))
    ensures s.history.None? ==> Initialized(s).history == Some([])
    ensures s.profile.None? ==> Initialized(s).profile == Some(DefaultProfile)
    ensures s.history.Some? ==> Initialized(s).history == s.history
    ensures s.profile.Some? ==> Initialized(s).profile == s.profile
    ensures Initialized(Initialized(s)) == Initialized(s)
    ensures Ready(s) ==> Initialized(s) == s
  {
  }

  /** An empty message is refused with status 400 before anything changes. */
  lemma ChatRejectsEmpty(s: SessionData, req: ChatRequest, timestamp: string, generate: Prompt -> Generation)
    requires Ready(s) && TypedRequest(req)
    ensures ChatOutcome(s, req, timestamp, generate).1 == Error(400, NoMessage) <==> req.message == ""
    ensures req.message == "" ==> ChatOutcome(s, req, timestamp, generate).0 == s
  {
  }

  /**
    A chat appends at most one entry, at the end, leaving earlier entries as
    they were; it appends exactly when the message is non-empty and the
    generator returned text, and the entry records the message, the
    generated text, the category and the timestamp.
  */
  lemma ChatAppendsOne(s: SessionData, req: ChatRequest, timestamp: string, generate: Prompt -> Generation)
    requires Ready(s) && TypedRequest(req)
    ensures var r := ChatOutcome(s, req, timestamp, generate);
      Ready(r.0) && |s.history.value| <= |r.0.history.value| <= |s.history.value| + 1 &&
      r.0.history.value[..|s.history.value|] == s.history.value
    ensures var r := ChatOutcome(s, req, timestamp, generate);
      |r.0.history.value| == |s.history.value| + 1 <==> r.1.Answer?
    ensures var r := ChatOutcome(s, req, timestamp, generate);
      r.1.Answer? ==>
        r.0.history.value[|s.history.value|] == Entry(timestamp, req.message, r.1.response, req.category)
  {
    var r := ChatOutcome(s, req, timestamp, generate);
    if r.1.Answer? {
      assert r.0.history.value[..|s.history.value|] == s.history.value;
    }
  }

  /**
    The reply suggests a profile update exactly when extraction found
    something, and then carries what it found; the profile changes only
    through the request's own profile data, never through extraction: a
    non-empty message leaves the patched profile stored, whatever the
    generator and the extraction do.
  */
  lemma ChatDetectsWithoutCommitting(s: SessionData, req: ChatRequest, timestamp: string, generate: Prompt -> Generation)
    requires Ready(s) && TypedRequest(req)
    ensures var r := ChatOutcome(s, req, timestamp, generate);
      r.1.Answer? ==>
        (r.1.suggestProfileUpdate <==> Extraction(req.message).Some?) &&
        r.1.extractedInfo == Extraction(req.message)
    ensures var r := ChatOutcome(s, req, timestamp, generate);
      !(req.updateProfile && req.profileData.Some?) ==> r.0.profile == s.profile
    ensures ChatOutcome(s, req, timestamp, generate).0.profile ==
      if req.message == "" then s.profile else Patched(s, req).profile
  {
  }

  /**
    The profile data is applied before the generator runs and is not undone
    when it fails: a failed chat keeps the history but not the old profile.
  */
  lemma ChatFailureKeepsPatch(s: SessionData, req: ChatRequest, timestamp: string, generate: Prompt -> Generation)
    requires Ready(s) && TypedRequest(req) && req.message != ""
    requires generate(ChatPrompt(PrepareContext(Patched(s, req).profile, req.category), req.message)).Failed?
    ensures var r := ChatOutcome(s, req, timestamp, generate);
      var gen := generate(ChatPrompt(PrepareContext(Patched(s, req).profile, req.category), req.message));
      r.1 == Error(500, gen.error) && r.0.history == s.history && r.0.profile == Patched(s, req).profile
    ensures req.updateProfile && req.profileData.Some? ==>
      ChatOutcome(s, req, timestamp, generate).0.profile == Some(Merged(s.profile.value, req.profileData.value))
  {
  }

  /**
    The prompt's context is rendered from the profile after the request's
    profile data has been applied.
  */
  lemma ChatContextSeesPatch(s: SessionData, req: ChatRequest, timestamp: string, generate: Prompt -> Generation)
    requires Ready(s) && TypedRequest(req) && req.message != ""
    ensures var r := ChatOutcome(s, req, timestamp, generate);
      var gen := generate(ChatPrompt(PrepareContext(Patched(s, req).profile, req.category), req.message));
      (gen.Generated? <==> r.1.Answer?) && (gen.Generated? ==> r.1.response == gen.text)
  {
  }

  /**
    A symptom analysis appends exactly one entry, tagged with the `symptoms`
    category and the prefixed request text, when the generator returns text,
    and nothing otherwise; the profile is never touched.
  */
  lemma SymptomAppends(s: SessionData, symptoms: string, timestamp: string, generate: Prompt -> Generation)
    requires Ready(s)
    ensures var r := SymptomOutcome(s, symptoms, timestamp, generate);
      r.0.profile == s.profile && Ready(r.0)
    ensures var r := SymptomOutcome(s, symptoms, timestamp, generate);
      match generate(SymptomPrompt(symptoms))
      case Failed(e) => r.0 == s && r.1 == Error(500, e)
      case Generated(text) =>
        r.1 == Analysis(text) && |r.0.history.value| == |s.history.value| + 1 &&
        r.0.history.value[..|s.history.value|] == s.history.value &&
        r.0.history.value[|s.history.value|] == Entry(timestamp, SymptomPrefix + symptoms, text, "symptoms")
  {
    var r := SymptomOutcome(s, symptoms, timestamp, generate);
    if generate(SymptomPrompt(symptoms)).Generated? {
      assert r.0.history.value[..|s.history.value|] == s.history.value;
    }
  }

  /** Clearing empties the history, keeps the profile, and clearing twice is clearing once. */
  lemma ClearKeepsProfile(s: SessionData)
    ensures Cleared(s).history == Some([]) && Cleared(s).profile == s.profile
    ensures Cleared(Cleared(s)) == Cleared(s)
  {
  }

  /** The session of one user: the two keys the handlers read and write. */
  class SessionState {
    var conversationHistory: Option<seq<Entry>>
    var userProfile: Option<Profile>

    function Data(): SessionData
      reads this
    {
      SessionData(conversationHistory, userProfile)
    }

    /** A new session holds neither key. */
    constructor()
      ensures Data() == SessionData(None, None)
    {
      conversationHistory := None;
      userProfile := None;
    }

    /** `initialize_session`, run before every request. */
    method InitializeSession()
      modifies this
      ensures Data() == Initialized(old(Data()))
    {
      if conversationHistory.None? {
        conversationHistory := Some([]);
      }
      if userProfile.None? {
        userProfile := Some(DefaultProfile);
      }
    }

    /** `update_user_profile`: the stored profile is updated in place from the patch. */
    method UpdateUserProfile(patch: Patch)
      requires userProfile.Some? && WellTyped(patch)
      modifies this
      ensures Data() == ProfileUpdated(old(Data()), patch)
    {
      var current := userProfile.value;
      userProfile := Some(Merged(current, patch));
    }

    /** `save_profile`: updates the profile and reports success. */
    method SaveProfile(patch: Patch) returns (reply: Reply)
      requires userProfile.Some? && WellTyped(patch)
      modifies this
      ensures Data() == ProfileUpdated(old(Data()), patch) && reply == Success(Some(ProfileSaved))
    {
      UpdateUserProfile(patch);
      reply := Success(Some(ProfileSaved));
    }

    /** `get_conversation_history`: the stored history, or the empty list. */
    method GetConversationHistory() returns (h: seq<Entry>)
      ensures conversationHistory.Some? ==> h == conversationHistory.value
      ensures conversationHistory.None? ==> h == []
    {
      h := conversationHistory.GetOr([]);
    }

    /** `clear_history`. */
    method ClearHistory() returns (reply: Reply)
      modifies this
      ensures Data() == Cleared(old(Data())) && reply == Success(None)
    {
      conversationHistory := Some([]);
      reply := Success(None);
    }

    /**
      `chat`: refuse an empty message; apply the profile data if asked; render
      the context; generate; append the exchange; report what extraction found.
    */
    method Chat(req: ChatRequest, timestamp: string, generate: Prompt -> Generation) returns (reply: Reply)
      requires Ready(Data()) && TypedRequest(req)
      modifies this
      ensures (Data(), reply) == ChatOutcome(old(Data()), req, timestamp, generate)
    {
      if req.message == "" {
        return Error(400, NoMessage);
      }
      if req.updateProfile && req.profileData.Some? {
        UpdateUserProfile(req.profileData.value);
      }
      var context := PrepareContext(userProfile, req.category);
      var generated := generate(ChatPrompt(context, req.message));
      if generated.Failed? {
        return Error(500, generated.error);
      }
      var entry := Entry(timestamp, req.message, generated.text, req.category);
      conversationHistory := Some(conversationHistory.value + [entry]);
      var extracted := ExtractProfileInfo(req.message);
      reply := Answer(generated.text, extracted.Some?, extracted);
    }

    /** `analyze_symptoms`: generate an analysis and append the exchange. */
    method AnalyzeSymptoms(symptoms: string, timestamp: string, generate: Prompt -> Generation) returns (reply: Reply)
      requires Ready(Data())
      modifies this
      ensures (Data(), reply) == SymptomOutcome(old(Data()), symptoms, timestamp, generate)
    {
      var generated := generate(SymptomPrompt(symptoms));
      if generated.Failed? {
        return Error(500, generated.error);
      }
      var entry := Entry(timestamp, SymptomPrefix + symptoms, generated.text, "symptoms");
      conversationHistory := Some(conversationHistory.value + [entry]);
      reply := Analysis(generated.text);
    }
  }
}
