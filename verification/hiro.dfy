/**
 * Hiro Lin's coach: the same routing as Anne's without the name handling or the reply
 * count. A crisis is answered with a three-part record the presentation layer delivers in
 * stages; the log keeps only its first part.
 */
module Hiro {
  import opened Wrappers
  import opened Text
  import opened Safety
  import opened Scenarios
  import opened Conversation
  import opened Routing

  /** The mutable fields of a `HiroLin` instance. */
  datatype Session = Session(history: seq<Turn>, sessionStarted: bool, redZoneTriggered: bool)

  datatype Persona = Persona(systemPrompt: string, catalog: Catalog)

  const Initial: Session := Session([], false, false)

  /** The dictionary returned for a crisis; `kind` is its `"type"` entry. */
  datatype CrisisRecord = CrisisRecord(kind: string, initial: string, careMessage: string, stopMessage: string)

  const RedRecord: CrisisRecord := CrisisRecord(
    "red",
    "Hey, I can tell this situation feels really heavy \U{2014} and I take that seriously. I'm worried about you, and from what you're describing, this goes beyond what I can safely support you with here.\n\n"
    + "Please connect with professional help immediately. If you're in Germany, please contact TelefonSeelsorge at 0800 111 0 111 (free, 24/7, confidential). If you're in another country, visit findahelpline.com for local numbers, or call your local emergency service.",
    "You deserve real care and support. Please reach out to someone now. You matter very much.",
    "Let us please stop here so you can focus on getting the support you need. You're not alone.")

  const AmberScript: string :=
    "I can tell you're running on empty right now \U{2014} that kind of exhaustion can sneak up on anyone. It's a sign that you've been pushing too hard for too long.\n\n"
    + "You don't have to wait until things get worse to ask for help. Talking with a professional can give you the tools and space to recharge before this turns into something heavier.\n\n"
    + "If you're in Germany, you can contact TelefonSeelsorge at 0800 111 0 111 (free, 24/7), or check findahelpline.com for other options in your region.\n\n"
    + "It's a smart move to get extra support early \U{2014} that's what resilience really means."

  const TerminationWarning: string :=
    "I'm so sorry but this goes beyond coaching. I can't keep talking to you, because this would play down the gravity of your situation. That's why I'll stop here so you can focus on getting the support you need. But you're not alone, you have my full support on this. I believe in you. Please reach out."

  /** What `get_response` returns: the crisis record, or a text. */
  datatype Reply = Crisis(record: CrisisRecord) | Plain(text: string)

  /** `get_safety_response`: the crisis record for red, the warning text for amber, nothing for green. */
  function GetSafetyResponse(level: Tier): (r: Option<Reply>)
    ensures r.Some? <==> level != Green
    ensures level == Red ==> r == Some(Crisis(RedRecord)) && r.value.record.kind == "red"
    ensures level == Amber ==> r == Some(Plain(AmberScript))
  {
    match level
    case Red => Some(Crisis(RedRecord))
    case Amber => Some(Plain(AmberScript))
    case Green => None
  }

  /** `get_termination_warning`: the fixed text callers show once a session is terminated. */
  function GetTerminationWarning(): string {
    TerminationWarning
  }

  const ProfessionalHelpKeywords: seq<string> := [
    "call", "calling", "hotline", "therapist", "counselor", "counsellor",
    "psychologist", "psychiatrist", "doctor", "professional", "help",
    "telefonseelsorge", "helpline", "emergency", "hospital",
    "how do i", "how can i", "where can i", "what should i",
    "reach out", "get help", "find help", "seek help",
    "appointment", "talk to someone", "contact", "number"
  ]

  /** `is_asking_about_professional_help`: some listed keyword occurs in the lower-cased message. */
  function IsAskingAboutProfessionalHelp(msg: string): (r: bool)
    ensures r <==> MentionsAny(ProfessionalHelpKeywords, Lower(msg))
  {
    ContainsAny(Lower(msg), ProfessionalHelpKeywords)
  }

  /** The text `get_response` logs as the assistant turn: for a crisis, the first part only. */
  function LoggedReply(s: Session, p: Persona, msg: string, sim: Similarity, complete: Completion): string {
    match Route(p.catalog, sim, msg)
    case SafetyScript(tier) =>
      (match GetSafetyResponse(tier).value
       case Crisis(record) => record.initial
       case Plain(text) => text)
    case Canned(_, reply) => reply
    case Generate => GetCreativeResponse(p.systemPrompt, s.history, msg, complete).text
  }

  datatype Step = Step(session: Session, reply: Reply)

  /**
   * `get_response`. Every call logs the user turn and one assistant turn; a crisis sets
   * the flag and returns the record, a warning returns its text, a canned hit returns the
   * catalog reply verbatim, and anything else goes to the completion service.
   */
  function GetResponse(s: Session, p: Persona, msg: string, sim: Similarity, complete: Completion): (r: Step)
    ensures r.session.history == s.history + [Turn(User, msg), Turn(Assistant, LoggedReply(s, p, msg, sim, complete))]
    ensures r.session.redZoneTriggered <==> s.redZoneTriggered || DetectSafetyLevel(msg) == Red
    ensures r.session.sessionStarted <==> s.sessionStarted || DetectSafetyLevel(msg) == Green
    ensures r.reply.Crisis? <==> DetectSafetyLevel(msg) == Red
    ensures r.reply.Crisis? ==> r.reply.record == RedRecord && LoggedReply(s, p, msg, sim, complete) == RedRecord.initial
    ensures r.reply.Plain? ==> r.reply.text == LoggedReply(s, p, msg, sim, complete)
    ensures DetectSafetyLevel(msg) == Amber ==> r.reply == Plain(AmberScript)
    ensures Route(p.catalog, sim, msg).Canned? ==> r.reply == Plain(Route(p.catalog, sim, msg).reply)
  {
    match Route(p.catalog, sim, msg)
    case SafetyScript(tier) =>
      var response := GetSafetyResponse(tier).value;
      var logged := match response
        case Crisis(record) => record.initial
        case Plain(text) => text;
      Step(s.(history := s.history + [Turn(User, msg), Turn(Assistant, logged)],
              redZoneTriggered := s.redZoneTriggered || tier == Red),
           response)
    case Canned(_, reply) =>
      Step(s.(history := s.history + [Turn(User, msg), Turn(Assistant, reply)], sessionStarted := true),
           Plain(reply))
    case Generate =>
      var g := GetCreativeResponse(p.systemPrompt, s.history, msg, complete);
      Step(s.(history := g.history, sessionStarted := true), Plain(g.text))
  }

  /** `is_session_terminated`. */
  function IsSessionTerminated(s: Session): bool {
    s.redZoneTriggered
  }

  /** `reset_conversation`: empty log, session not started, flag cleared -- a fresh coach. */
  function ResetConversation(s: Session): (r: Session)
    ensures r == Initial
  {
    s.(history := [], sessionStarted := false, redZoneTriggered := false)
  }

  /** A failed completion call is answered, and logged, with the fixed apology. */
  lemma ApologyOnFailure(s: Session, p: Persona, msg: string, sim: Similarity, complete: Completion)
    requires Route(p.catalog, sim, msg) == Generate
    requires complete(Request(p.systemPrompt, s.history + [Turn(User, msg)])).None?
    ensures GetResponse(s, p, msg, sim, complete) ==
              Step(s.(history := s.history + [Turn(User, msg), Turn(Assistant, Apology)], sessionStarted := true),
                   Plain(Apology))
  {
  }

  /**
   * The exact-phrase example: a green message equal to the phrase of catalog entry `i`,
   * with a similarity that never exceeds 1.0 and rates identical text 1.0, is answered
   * with that entry's reply, provided no earlier entry also reaches 1.0.
   */
  lemma ExactPhraseGetsCannedReply(s: Session, p: Persona, msg: string, sim: Similarity, complete: Completion, i: nat)
    requires i < |p.catalog| && DistinctKeys(p.catalog)
    requires p.catalog[i].user == Some(msg)
    requires p.catalog[i].key != "" && p.catalog[i].reply.Some? && p.catalog[i].reply.value != ""
    requires forall x, y :: sim(x, y) <= 1.0
    requires sim(Lower(msg), Lower(msg)) == 1.0
    requires forall j :: 0 <= j < i && p.catalog[j].user.Some? ==> Ratio(p.catalog, sim, msg, j) < 1.0
    requires DetectSafetyLevel(msg) == Green
    ensures GetResponse(s, p, msg, sim, complete).reply == Plain(p.catalog[i].reply.value)
  {
    var cat := p.catalog;
    assert Qualifies(cat, sim, msg, i);
    assert IsFirstBest(cat, sim, msg, i);
    FirstBestIsUnique(cat, sim, msg, FindMatchIndex(cat, sim, msg).value, i);
    ExactResponseOfEntry(cat, i);
  }

  /** `get_response` never reads the crisis flag; blocking after a crisis is left to the callers. */
  lemma FlagNotConsulted(s: Session, p: Persona, msg: string, sim: Similarity, complete: Completion)
    ensures GetResponse(s.(redZoneTriggered := true), p, msg, sim, complete).reply
            == GetResponse(s.(redZoneTriggered := false), p, msg, sim, complete).reply
  {
  }

  /** One user action: a message or a reset. */
  datatype Action = Say(msg: string) | Clear

  function Replay(s: Session, p: Persona, sim: Similarity, complete: Completion, actions: seq<Action>): Session
    decreases |actions|
  {
    if actions == [] then s
    else
      var next := match actions[0]
        case Say(msg) => GetResponse(s, p, msg, sim, complete).session
        case Clear => ResetConversation(s);
      Replay(next, p, sim, complete, actions[1..])
  }

  /**
   * After a run of actions the session is terminated exactly when it was terminated (or a
   * red message arrived) after the last reset -- only a reset clears the flag.
   */
  lemma {:induction false} TerminationUntilReset(s: Session, p: Persona, sim: Similarity, complete: Completion, actions: seq<Action>)
    ensures IsSessionTerminated(Replay(s, p, sim, complete, actions)) <==>
              TerminatedAfter(IsSessionTerminated(s), actions)
    decreases |actions|
  {
    if actions != [] {
      var next := match actions[0]
        case Say(msg) => GetResponse(s, p, msg, sim, complete).session
        case Clear => ResetConversation(s);
      TerminationUntilReset(next, p, sim, complete, actions[1..]);
    }
  }

  /** Reference meaning of the crisis flag after `actions`, starting from flag `start`. */
  function TerminatedAfter(start: bool, actions: seq<Action>): bool
    decreases |actions|
  {
    if actions == [] then start
    else match actions[0]
      case Say(msg) => TerminatedAfter(start || DetectSafetyLevel(msg) == Red, actions[1..])
      case Clear => TerminatedAfter(false, actions[1..])
  }

  predicate NoReset(actions: seq<Action>) {
    forall i :: 0 <= i < |actions| ==> actions[i].Say?
  }

  /** Without a reset, every message adds exactly two turns to the log. */
  lemma {:induction false} TwoTurnsPerMessage(s: Session, p: Persona, sim: Similarity, complete: Completion, actions: seq<Action>)
    requires NoReset(actions)
    ensures |Replay(s, p, sim, complete, actions).history| == |s.history| + 2 * |actions|
    decreases |actions|
  {
    if actions != [] {
      assert NoReset(actions[1..]) by {
        assert forall i :: 0 <= i < |actions[1..]| ==> actions[1..][i] == actions[i + 1];
      }
      TwoTurnsPerMessage(GetResponse(s, p, actions[0].msg, sim, complete).session, p, sim, complete, actions[1..]);
    }
  }
}
