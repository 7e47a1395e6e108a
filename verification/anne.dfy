/**
 * Dr. Anne Rosental's coach: the session record and `get_response`, the routing step that
 * answers one message with a safety script, a canned reply or a generated one, counts the
 * reply, learns the user's first name and now and then addresses the user by it.
 */
module Anne {
  import opened Wrappers
  import opened Text
  import opened Safety
  import opened Scenarios
  import opened Conversation
  import opened Routing
  import opened AnneNames

  /** The mutable fields of an `AnneRosental` instance. */
  datatype Session = Session(
    history: seq<Turn>,
    sessionStarted: bool,
    responsePatternCounter: int,
    redZoneTriggered: bool,
    responseCount: nat,
    userName: Option<string>)

  /** The fixed configuration: system prompt and this coach's catalog. */
  datatype Persona = Persona(systemPrompt: string, catalog: Catalog)

  /** The state a freshly constructed coach starts in. */
  const Initial: Session := Session([], false, 0, false, 0, None)

  const RedScript: string :=
    "Oh, I can hear how much pain you're in right now. I'm really sorry that you're going through this. What you're describing sounds very serious, and I'm deeply concerned for your safety.\n\n"
    + "I want you to know that you don't have to face this alone \U{2014} there are people who can help you right now.\n\n"
    + "If you are in danger or thinking about hurting yourself, please reach out immediately for professional support or emergency services. If you're in Germany, you can contact TelefonSeelsorge at 0800 111 0 111 (24 hours, free, confidential). If you're outside Germany, you can find international helplines here: findahelpline.com, or call your local emergency number.\n\n"
    + "You deserve real care and support. Please reach out now \U{2014} you matter very much.\n\n"
    + "I'll stop here so you can focus on getting the support you need. You're not alone."

  const AmberScript: string :=
    "I can hear how empty and exhausted this feels for you right now. It sounds like you've been carrying a lot on your own, and that can be so isolating.\n\n"
    + "Even though it may not feel urgent, this is still something that deserves gentle care. Sometimes talking with a therapist or counselor can help you find new lightness \U{2014} you don't have to do it alone.\n\n"
    + "If you'd like to talk to someone, you can reach out to TelefonSeelsorge at 0800 111 0 111 (free, 24/7 in Germany), or visit findahelpline.com for other options in your country.\n\n"
    + "Let's take this as a reminder that your feelings matter and that help is available."

  /** `get_safety_response`: the crisis script for red, the warning script for amber, nothing for green. */
  function GetSafetyResponse(level: Tier): (r: Option<string>)
    ensures r.Some? <==> level != Green
    ensures level == Red ==> r == Some(RedScript)
    ensures level == Amber ==> r == Some(AmberScript)
  {
    match level
    case Red => Some(RedScript)
    case Amber => Some(AmberScript)
    case Green => None
  }

  /** What `get_response` hands back: the reply, or the `IndexError` the name splice can raise. */
  datatype Outcome = Reply(text: string) | IndexError

  /** The session after one call together with its outcome. */
  datatype Step = Step(session: Session, outcome: Outcome)

  /** Python truthiness of `self.user_name`. */
  predicate HasName(s: Session) {
    s.userName.Some? && s.userName.value != ""
  }

  /** Reply cadence: every third counted reply on the safety path, every sixth otherwise. */
  function Cadence(src: Source): nat {
    if src.SafetyScript? then 3 else 6
  }

  /** The decoration step at the end of each branch of `get_response`. */
  function Decorate(text: string, s: Session, cadence: nat, trailing: bool): Outcome
    requires cadence > 0
  {
    if HasName(s) && s.responseCount % cadence == 0 then
      match AddNameNaturally(text, s.userName.value, trailing)
      case Some(t) => Reply(t)
      case None => IndexError
    else Reply(text)
  }

  /** The name-extraction step that opens `get_response`. */
  function LearnName(s: Session, msg: string): (r: Session)
    ensures r == s.(userName := r.userName)
    ensures s.userName.None? && !s.sessionStarted ==> r.userName == ExtractUserName(msg)
    ensures !(s.userName.None? && !s.sessionStarted) ==> r.userName == s.userName
    // A consequence of the clauses above and of `ExtractUserName`'s contract:
    ensures r.userName.Some? ==> s.userName.Some? || IsCapitalisedName(r.userName.value)
  {
    if s.userName.None? && !s.sessionStarted then
      match ExtractUserName(msg)
      case Some(name) => s.(userName := Some(name))
      case None => s
    else s
  }

  /** The undecorated text `get_response` logs as the assistant turn. */
  function LoggedReply(s: Session, p: Persona, msg: string, sim: Similarity, complete: Completion): string {
    match Route(p.catalog, sim, msg)
    case SafetyScript(tier) => GetSafetyResponse(tier).value
    case Canned(_, reply) => reply
    case Generate => GetCreativeResponse(p.systemPrompt, s.history, msg, complete).text
  }

  /**
   * `get_response`. Every call logs the user turn and then the undecorated reply, counts
   * one reply, keeps or sets the crisis flag, and starts the session unless a safety
   * script answered. The returned text differs from the logged one only by the name
   * splice, which happens exactly when a name is known and the new count is a multiple of
   * the branch's cadence.
   */
  function GetResponse(s: Session, p: Persona, msg: string, sim: Similarity, complete: Completion, trailing: bool): (r: Step)
    ensures |r.session.history| == |s.history| + 2
    ensures r.session.history[..|s.history|] == s.history
    ensures r.session.history[|s.history|] == Turn(User, msg)
    ensures r.session.history[|s.history| + 1] == Turn(Assistant, LoggedReply(s, p, msg, sim, complete))
    ensures r.session.responseCount == s.responseCount + 1
    ensures r.session.redZoneTriggered <==> s.redZoneTriggered || DetectSafetyLevel(msg) == Red
    ensures r.session.sessionStarted <==> s.sessionStarted || DetectSafetyLevel(msg) == Green
    ensures r.session.responsePatternCounter == s.responsePatternCounter
    ensures r.session.userName == LearnName(s, msg).userName
    ensures !(HasName(r.session) && r.session.responseCount % Cadence(Route(p.catalog, sim, msg)) == 0) ==>
              r.outcome == Reply(LoggedReply(s, p, msg, sim, complete))
    ensures HasName(r.session) && r.session.responseCount % Cadence(Route(p.catalog, sim, msg)) == 0 ==>
              r.outcome == match AddNameNaturally(LoggedReply(s, p, msg, sim, complete), r.session.userName.value, trailing)
                           case Some(t) => Reply(t)
                           case None => IndexError
    ensures r.outcome.Reply? && r.outcome.text != LoggedReply(s, p, msg, sim, complete) ==>
              r.session.userName.Some? && IsSubstring(r.session.userName.value, r.outcome.text)
  {
    var s1 := LearnName(s, msg);
    match Route(p.catalog, sim, msg)
    case SafetyScript(tier) =>
      var text := GetSafetyResponse(tier).value;
      var s2 := s1.(history := s1.history + [Turn(User, msg), Turn(Assistant, text)],
                    redZoneTriggered := s1.redZoneTriggered || tier == Red,
                    responseCount := s1.responseCount + 1);
      Step(s2, Decorate(text, s2, 3, trailing))
    case Canned(_, reply) =>
      var s2 := s1.(history := s1.history + [Turn(User, msg), Turn(Assistant, reply)],
                    sessionStarted := true,
                    responseCount := s1.responseCount + 1);
      Step(s2, Decorate(reply, s2, 6, trailing))
    case Generate =>
      var g := GetCreativeResponse(p.systemPrompt, s1.history, msg, complete);
      var s2 := s1.(history := g.history, sessionStarted := true, responseCount := s1.responseCount + 1);
      Step(s2, Decorate(g.text, s2, 6, trailing))
  }

  /** `is_session_terminated`. */
  function IsSessionTerminated(s: Session): bool {
    s.redZoneTriggered
  }

  /**
   * `reset_conversation`: back to the state of a fresh coach, except that the learned
   * name is kept.
   */
  function ResetConversation(s: Session): (r: Session)
    ensures r == Initial.(userName := s.userName)
  {
    s.(history := [], sessionStarted := false, responsePatternCounter := 0,
       redZoneTriggered := false, responseCount := 0)
  }

  /** The random placement only changes the returned text, never the session. */
  lemma PlacementOnlyDecorates(s: Session, p: Persona, msg: string, sim: Similarity, complete: Completion)
    ensures GetResponse(s, p, msg, sim, complete, true).session == GetResponse(s, p, msg, sim, complete, false).session
  {
  }

  /**
   * `get_response` never reads the crisis flag: a terminated session is answered exactly
   * like a live one. Blocking after a crisis is left to the callers.
   */
  lemma FlagNotConsulted(s: Session, p: Persona, msg: string, sim: Similarity, complete: Completion, trailing: bool)
    ensures var live := GetResponse(s.(redZoneTriggered := false), p, msg, sim, complete, trailing);
            var done := GetResponse(s.(redZoneTriggered := true), p, msg, sim, complete, trailing);
            live.outcome == done.outcome && live.session.(redZoneTriggered := true) == done.session
  {
  }

  /** A failed completion call is answered, and logged, with the fixed apology. */
  lemma ApologyOnFailure(s: Session, p: Persona, msg: string, sim: Similarity, complete: Completion, trailing: bool)
    requires Route(p.catalog, sim, msg) == Generate
    requires complete(Request(p.systemPrompt, s.history + [Turn(User, msg)])).None?
    ensures var r := GetResponse(s, p, msg, sim, complete, trailing);
            r.session.history == s.history + [Turn(User, msg), Turn(Assistant, Apology)]
            && (r.outcome == Reply(Apology) || IsSubstring(r.session.userName.value, r.outcome.text))
  {
  }

  /**
   * The only way `get_response` raises: a generated reply that is empty, a known name, a
   * count that is a multiple of six, and the leading placement drawn.
   */
  lemma IndexErrorOnlyOnEmptyGeneratedReply(s: Session, p: Persona, msg: string, sim: Similarity, complete: Completion, trailing: bool)
    ensures var r := GetResponse(s, p, msg, sim, complete, trailing);
            r.outcome.IndexError? <==>
              && Route(p.catalog, sim, msg) == Generate
              && GetCreativeResponse(p.systemPrompt, s.history, msg, complete).text == ""
              && HasName(r.session) && r.session.responseCount % 6 == 0 && !trailing
  {
  }

  /** One user action in a session: a message (with its placement draw) or a reset. */
  datatype Action = Say(msg: string, trailing: bool) | Clear

  /** The session after a run of actions. */
  function Replay(s: Session, p: Persona, sim: Similarity, complete: Completion, actions: seq<Action>): Session
    decreases |actions|
  {
    if actions == [] then s
    else
      var next := match actions[0]
        case Say(msg, trailing) => GetResponse(s, p, msg, sim, complete, trailing).session
        case Clear => ResetConversation(s);
      Replay(next, p, sim, complete, actions[1..])
  }

  predicate NoReset(actions: seq<Action>) {
    forall i :: 0 <= i < |actions| ==> actions[i].Say?
  }

  /** Once terminated, a session stays terminated until it is reset. */
  lemma {:induction false} TerminationIsSticky(s: Session, p: Persona, sim: Similarity, complete: Completion, actions: seq<Action>)
    requires IsSessionTerminated(s)
    requires NoReset(actions)
    ensures IsSessionTerminated(Replay(s, p, sim, complete, actions))
    decreases |actions|
  {
    if actions != [] {
      var next := GetResponse(s, p, actions[0].msg, sim, complete, actions[0].trailing).session;
      assert NoReset(actions[1..]) by {
        forall i | 0 <= i < |actions[1..]| ensures actions[1..][i].Say? {
          assert actions[1..][i] == actions[i + 1];
        }
      }
      TerminationIsSticky(next, p, sim, complete, actions[1..]);
    }
  }

  /** Without a reset, every message adds one to the count and two turns to the log. */
  lemma {:induction false} EveryMessageCounted(s: Session, p: Persona, sim: Similarity, complete: Completion, actions: seq<Action>)
    requires NoReset(actions)
    ensures Replay(s, p, sim, complete, actions).responseCount == s.responseCount + |actions|
    ensures |Replay(s, p, sim, complete, actions).history| == |s.history| + 2 * |actions|
    ensures Replay(s, p, sim, complete, actions).history[..|s.history|] == s.history
    decreases |actions|
  {
    if actions != [] {
      var next := GetResponse(s, p, actions[0].msg, sim, complete, actions[0].trailing).session;
      assert NoReset(actions[1..]) by {
        forall i | 0 <= i < |actions[1..]| ensures actions[1..][i].Say? {
          assert actions[1..][i] == actions[i + 1];
        }
      }
      EveryMessageCounted(next, p, sim, complete, actions[1..]);
    }
  }

  /** A learned name survives every later message and every reset. */
  lemma {:induction false} NameIsKept(s: Session, p: Persona, sim: Similarity, complete: Completion, actions: seq<Action>)
    requires s.userName.Some?
    ensures Replay(s, p, sim, complete, actions).userName == s.userName
    decreases |actions|
  {
    if actions != [] {
      var next := match actions[0]
        case Say(msg, trailing) => GetResponse(s, p, msg, sim, complete, trailing).session
        case Clear => ResetConversation(s);
      NameIsKept(next, p, sim, complete, actions[1..]);
    }
  }

  /** Resetting twice is resetting once. */
  lemma ResetIsIdempotent(s: Session)
    ensures ResetConversation(ResetConversation(s)) == ResetConversation(s)
  {
  }

  /**
   * The crisis example: "I want to kill myself" terminates the session and logs the
   * crisis script after the user's message, whatever the session looked like before.
   */
  lemma CrisisExample(s: Session, p: Persona, sim: Similarity, complete: Completion, trailing: bool)
    ensures var r := GetResponse(s, p, "I want to kill myself", sim, complete, trailing).session;
            IsSessionTerminated(r) && r.history == s.history + [Turn(User, "I want to kill myself"), Turn(Assistant, RedScript)]
  {
    KillMyselfIsRed();
    var r := GetResponse(s, p, "I want to kill myself", sim, complete, trailing).session;
    assert r.history == r.history[..|s.history|] + [r.history[|s.history|], r.history[|s.history| + 1]];
  }
}
