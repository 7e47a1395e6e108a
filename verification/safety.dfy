/**
 * The safety classifier both coaches run first on every message. Their two
 * `detect_safety_level` methods are character-for-character the same, so the tier and
 * the phrase lists are defined once here.
 */
module Safety {
  import opened Text

  /** Risk tier of one message: crisis, early warning, or normal. */
  datatype Tier = Red | Amber | Green

  /** Severity order red > amber > green. */
  function Severity(t: Tier): nat {
    match t
    case Red => 2
    case Amber => 1
    case Green => 0
  }

  /** Crisis phrases, in the order `detect_safety_level` checks them. */
  const RedKeywords: seq<string> := [
    "want to die", "kill myself", "end it", "suicide",
    "hurt myself", "harm myself", "plan to hurt",
    "no reason to live", "can't go on", "hear voices",
    "harm someone", "attack someone", "planning how to kill",
    "everyone would be better off without me", "don't want to live"
  ]

  /** Warning phrases, checked only when no crisis phrase occurs. */
  const AmberKeywords: seq<string> := [
    "feel numb", "tired of everything", "wish i could disappear",
    "nothing matters", "can't handle this", "completely empty",
    "can't function", "can't get out of bed", "no point in trying"
  ]

  /**
   * `detect_safety_level`: red when a crisis phrase occurs anywhere in the lower-cased
   * message, otherwise amber when a warning phrase does, otherwise green.
   */
  function DetectSafetyLevel(msg: string): (r: Tier)
    ensures r == Red <==> MentionsAny(RedKeywords, Lower(msg))
    ensures r == Amber <==> !MentionsAny(RedKeywords, Lower(msg)) && MentionsAny(AmberKeywords, Lower(msg))
    ensures r == Green <==> !MentionsAny(RedKeywords, Lower(msg)) && !MentionsAny(AmberKeywords, Lower(msg))
  {
    var lowered := Lower(msg);
    if ContainsAny(lowered, RedKeywords) then Red
    else if ContainsAny(lowered, AmberKeywords) then Amber
    else Green
  }

  /** A crisis phrase wins whatever else the message says, warning phrases included. */
  lemma RedTakesPrecedence(msg: string, phrase: string)
    requires phrase in RedKeywords
    requires IsSubstring(phrase, Lower(msg))
    ensures DetectSafetyLevel(msg) == Red
  {
  }

  /** A warning phrase without any crisis phrase gives amber. */
  lemma AmberWithoutRed(msg: string, phrase: string)
    requires phrase in AmberKeywords
    requires IsSubstring(phrase, Lower(msg))
    requires forall p :: p in RedKeywords ==> !IsSubstring(p, Lower(msg))
    ensures DetectSafetyLevel(msg) == Amber
  {
  }

  /** The classifier ignores ASCII case: a message and its lower-cased form get the same tier. */
  lemma CaseInsensitive(msg: string)
    ensures DetectSafetyLevel(msg) == DetectSafetyLevel(Lower(msg))
  {
    LowerIdempotent(msg);
  }

  /** The empty message is green: every listed phrase is non-empty. */
  lemma EmptyIsGreen()
    ensures DetectSafetyLevel("") == Green
  {
    assert Lower("") == "";
    assert forall k :: 0 <= k < |RedKeywords| ==> |RedKeywords[k]| > 0;
    assert forall k :: 0 <= k < |AmberKeywords| ==> |AmberKeywords[k]| > 0;
    NothingOccursInEmpty(RedKeywords);
    NothingOccursInEmpty(AmberKeywords);
  }

  lemma NothingOccursInEmpty(phrases: seq<string>)
    requires forall k :: 0 <= k < |phrases| ==> |phrases[k]| > 0
    ensures !MentionsAny(phrases, "")
  {
    forall p, i | p in phrases
      ensures !OccursAt(p, "", i)
    {
    }
  }

  /** Adding text before or after a message can never lower its tier. */
  lemma {:induction false} ExtendingNeverLowersTier(a: string, msg: string, b: string)
    ensures Severity(DetectSafetyLevel(a + msg + b)) >= Severity(DetectSafetyLevel(msg))
  {
    var whole := a + msg + b;
    LowerAppend(a, msg);
    LowerAppend(a + msg, b);
    assert Lower(whole) == Lower(a) + Lower(msg) + Lower(b);
    forall p | IsSubstring(p, Lower(msg))
      ensures IsSubstring(p, Lower(whole))
    {
      SubstringOfSuffix(p, Lower(a), Lower(msg));
      SubstringOfPrefix(p, Lower(a) + Lower(msg), Lower(b));
    }
  }

  /** The crisis example: "I want to kill myself" is red. */
  lemma KillMyselfIsRed()
    ensures DetectSafetyLevel("I want to kill myself") == Red
  {
    var msg := "I want to kill myself";
    assert msg[10..21] == "kill myself";
    LowerSlice(msg, 10, 21);
    LowerOfLowerCase("kill myself");
    assert OccursAt("kill myself", Lower(msg), 10);
    RedTakesPrecedence(msg, "kill myself");
  }
}
