/**
 * Anne's two name helpers: `_extract_user_name`, which searches a self-introduction for a
 * first name, and `_add_name_naturally`, which splices that name into a reply. The regular
 * expressions are modelled on ASCII text: with `re.IGNORECASE` both `[A-Z]` and `[a-z]`
 * match any ASCII letter, and `\s` matches ASCII whitespace.
 */
module AnneNames {
  import opened Wrappers
  import opened Text

  /** The `name` run of letters occurs at `a` in `s`. */
  predicate LetterRunAt(s: string, a: int, name: string) {
    && 0 <= a && a + |name| <= |s| && s[a..a + |name|] == name
    && |name| >= 2
    && forall k :: 0 <= k < |name| ==> IsLetter(name[k])
  }

  /** The group `([A-Z][a-z]+)` starting at `a`: the maximal run of letters there, if at least two long. */
  function NameGroupAt(s: string, a: nat): (r: Option<string>)
    ensures r.Some? <==> SpanFrom(s, a, IsLetter) >= 2
    ensures r.Some? ==> LetterRunAt(s, a, r.value)
    ensures r.Some? ==> a + |r.value| == |s| || !IsLetter(s[a + |r.value|])
  {
    var n := SpanFrom(s, a, IsLetter);
    if n >= 2 then Some(s[a..a + n]) else None
  }

  /** End of the lead-in `(?:i'm|i am|my name is|this is)` at `p`, if one is there. */
  function IntroLeadAt(s: string, p: nat): Option<nat> {
    if OccursAtIgnoringCase(s, p, "i'm") then Some(p + 3)
    else if OccursAtIgnoringCase(s, p, "i am") then Some(p + 4)
    else if OccursAtIgnoringCase(s, p, "my name is") then Some(p + 10)
    else if OccursAtIgnoringCase(s, p, "this is") then Some(p + 7)
    else None
  }

  /** Pattern 1, `(?:i'm|i am|my name is|this is)\s+([A-Z][a-z]+)`, tried at `p`. */
  function IntroAt(s: string, p: nat): (r: Option<string>)
    ensures r.Some? ==> exists a :: LetterRunAt(s, a, r.value)
  {
    match IntroLeadAt(s, p)
    case None => None
    case Some(q) =>
      var w := SpanFrom(s, q, IsSpace);
      if w >= 1 then NameGroupAt(s, q + w) else None
  }

  /** `([A-Z][a-z]+)\s+here` with the name starting at `a`. */
  function NameHereAt(s: string, a: nat): (r: Option<string>)
    ensures r.Some? ==> LetterRunAt(s, a, r.value)
  {
    match NameGroupAt(s, a)
    case None => None
    case Some(name) =>
      var b := a + |name|;
      var w := SpanFrom(s, b, IsSpace);
      if w >= 1 && OccursAtIgnoringCase(s, b + w, "here") then Some(name) else None
  }

  /**
   * Pattern 2, `(?:hi,?\s+)?([A-Z][a-z]+)\s+here`, tried at `p`: first with the optional
   * greeting consumed, then, when that fails, without it.
   */
  function GreetingAt(s: string, p: nat): (r: Option<string>)
    ensures r.Some? ==> exists a :: LetterRunAt(s, a, r.value)
  {
    var greeted :=
      if OccursAtIgnoringCase(s, p, "hi") then
        var q := if p + 2 < |s| && s[p + 2] == ',' then p + 3 else p + 2;
        var w := SpanFrom(s, q, IsSpace);
        if w >= 1 then NameHereAt(s, q + w) else None
      else None;
    if greeted.Some? then greeted else NameHereAt(s, p)
  }

  /** `re.search(pattern1, s)` from position `p` on: the leftmost position where pattern 1 matches. */
  function SearchIntro(s: string, p: nat): (r: Option<string>)
    ensures r.Some? ==> exists a :: LetterRunAt(s, a, r.value)
    decreases |s| - p
  {
    if p > |s| then None
    else match IntroAt(s, p)
      case Some(name) => Some(name)
      case None => SearchIntro(s, p + 1)
  }

  /** `re.search(pattern2, s)` from position `p` on. */
  function SearchGreeting(s: string, p: nat): (r: Option<string>)
    ensures r.Some? ==> exists a :: LetterRunAt(s, a, r.value)
    decreases |s| - p
  {
    if p > |s| then None
    else match GreetingAt(s, p)
      case Some(name) => Some(name)
      case None => SearchGreeting(s, p + 1)
  }

  /** `str.capitalize` on ASCII: first character upper-cased, the rest lower-cased. */
  function Capitalize(w: string): string {
    if w == [] then [] else [UpperChar(w[0])] + Lower(w[1..])
  }

  /** A first name as the extractor returns it: a capital followed by at least one small letter. */
  predicate IsCapitalisedName(name: string) {
    && |name| >= 2
    && 'A' <= name[0] <= 'Z'
    && forall k :: 1 <= k < |name| ==> 'a' <= name[k] <= 'z'
  }

  /** `name` occurs at `a` in `s`, ignoring ASCII case. */
  predicate NameAt(s: string, a: int, name: string) {
    0 <= a && a + |name| <= |s| && Lower(s[a..a + |name|]) == Lower(name)
  }

  lemma CapitalizeRun(s: string, a: int, w: string)
    requires LetterRunAt(s, a, w)
    ensures IsCapitalisedName(Capitalize(w))
    ensures NameAt(s, a, Capitalize(w))
  {
    var c := Capitalize(w);
    assert |c| == |w|;
    assert Lower(c) == Lower(w) by {
      forall k | 0 <= k < |w|
        ensures Lower(c)[k] == Lower(w)[k]
      {
        if k > 0 {
          assert c[k] == Lower(w[1..])[k - 1];
        }
      }
    }
  }

  /**
   * `_extract_user_name`: the first name from the leftmost match of pattern 1, or -- only
   * when pattern 1 matches nowhere -- of pattern 2, capitalised; `None` when neither matches.
   * The name always appears in the message (up to case) and is a capitalised letter run.
   */
  function ExtractUserName(msg: string): (r: Option<string>)
    ensures r.Some? ==> IsCapitalisedName(r.value)
    ensures r.Some? ==> exists a :: NameAt(msg, a, r.value)
    ensures SearchIntro(msg, 0).Some? ==> r == Some(Capitalize(SearchIntro(msg, 0).value))
  {
    match SearchIntro(msg, 0)
    case Some(name) =>
      var a :| LetterRunAt(msg, a, name);
      CapitalizeRun(msg, a, name);
      Some(Capitalize(name))
    case None =>
      match SearchGreeting(msg, 0)
      case Some(name) =>
        var a :| LetterRunAt(msg, a, name);
        CapitalizeRun(msg, a, name);
        Some(Capitalize(name))
      case None => None
  }

  /** A worked self-introduction: "I'm sarah" yields "Sarah". */
  lemma IntroductionExample()
    ensures ExtractUserName("I'm sarah") == Some("Sarah")
  {
    var s := "I'm sarah";
    assert s[0..3] == "I'm";
    assert Lower("I'm") == "i'm";
    assert IntroLeadAt(s, 0) == Some(3);
    assert SpanFrom(s, 4, IsSpace) == 0;
    assert SpanFrom(s, 3, IsSpace) == 1;
    assert SpanFrom(s, 9, IsLetter) == 0;
    assert SpanFrom(s, 4, IsLetter) == 5;
    assert s[4..9] == "sarah";
    assert SearchIntro(s, 0) == Some("sarah");
    assert Lower("arah") == "arah";
    assert UpperChar('s') == 'S';
    assert "Sarah" == ['S'] + "arah";
  }

  predicate IsTerminalMark(c: char) {
    c == '.' || c == '?' || c == '!'
  }

  /** `s.rstrip('.?!')`: the longest prefix of `s` that does not end in one of those marks. */
  function StripTerminalMarks(s: string): (r: string)
    ensures |r| <= |s| && r == s[..|r|]
    ensures forall k :: |r| <= k < |s| ==> IsTerminalMark(s[k])
    ensures r == [] || !IsTerminalMark(r[|r| - 1])
  {
    if s != [] && IsTerminalMark(s[|s| - 1]) then StripTerminalMarks(s[..|s| - 1]) else s
  }

  /**
   * `_add_name_naturally` with the 60/40 draw given as `trailing` (true when
   * `random.random() < 0.6`). Trailing: before a final `.`, `?` or `!`; inside a final
   * quote, after stripping marks; otherwise appended with a full stop. Leading: the name
   * and a comma, then the reply with its first character lower-cased. The leading branch
   * reads `response[0]`, so on an empty reply it raises `IndexError`, modelled as `None`.
   */
  function AddNameNaturally(response: string, name: string, trailing: bool): (r: Option<string>)
    ensures r.None? <==> !trailing && response == ""
    ensures r.Some? ==> IsSubstring(name, r.value)
    ensures trailing && response != [] && IsTerminalMark(response[|response| - 1]) ==>
              && r.Some?
              && |r.value| == |response| + |name| + 2
              && r.value[..|response| - 1] == response[..|response| - 1]
              && r.value[|response| - 1..|r.value| - 1] == ", " + name
              && r.value[|r.value| - 1] == response[|response| - 1]
    ensures trailing && response != [] && response[|response| - 1] == '"' ==>
              var kept := StripTerminalMarks(response[..|response| - 1]);
              && r.Some?
              && |r.value| == |kept| + |name| + 4
              && r.value[..|kept|] == response[..|kept|]
              && r.value[|kept|..] == ", " + name + ".\""
    ensures trailing && (response == [] || (!IsTerminalMark(response[|response| - 1]) && response[|response| - 1] != '"')) ==>
              r.Some? && |r.value| == |response| + |name| + 3 && r.value[..|response|] == response && r.value[|response|..] == ", " + name + "."
    ensures !trailing && response != [] ==>
              && r.Some?
              && |r.value| == |response| + |name| + 2
              && r.value[..|name| + 2] == name + ", "
              && Lower(r.value[|name| + 2..]) == Lower(response)
              && r.value[|name| + 2] == LowerChar(response[0])
              && r.value[|name| + 3..] == response[1..]
  {
    var n := |response|;
    if trailing then
      if n > 0 && IsTerminalMark(response[n - 1]) then Some(NameBeforeMark(response, name))
      else if n > 0 && response[n - 1] == '"' then Some(NameInsideQuote(response, name))
      else Some(NameAppended(response, name))
    else if response == [] then None
    else Some(NameLeading(response, name))
  }

  /** Trailing placement before a final `.`, `?` or `!`. */
  function NameBeforeMark(response: string, name: string): (t: string)
    requires response != [] && IsTerminalMark(response[|response| - 1])
    ensures IsSubstring(name, t)
    ensures |t| == |response| + |name| + 2
    ensures t[..|response| - 1] == response[..|response| - 1]
    ensures t[|response| - 1..|t| - 1] == ", " + name
    ensures t[|t| - 1] == response[|response| - 1]
  {
    var t := response[..|response| - 1] + ", " + name + [response[|response| - 1]];
    assert OccursAt(name, t, |response| + 1);
    t
  }

  /** Trailing placement inside a final quote, after stripping marks before it. */
  function NameInsideQuote(response: string, name: string): (t: string)
    requires response != [] && response[|response| - 1] == '"'
    ensures IsSubstring(name, t)
    ensures var kept := StripTerminalMarks(response[..|response| - 1]);
            && |t| == |kept| + |name| + 4
            && t[..|kept|] == response[..|kept|]
            && t[|kept|..] == ", " + name + ".\""
  {
    var kept := StripTerminalMarks(response[..|response| - 1]);
    var t := kept + ", " + name + ".\"";
    assert OccursAt(name, t, |kept| + 2);
    t
  }

  /** Trailing placement on any other ending: the name and a full stop are appended. */
  function NameAppended(response: string, name: string): (t: string)
    ensures IsSubstring(name, t)
    ensures |t| == |response| + |name| + 3
    ensures t[..|response|] == response && t[|response|..] == ", " + name + "."
  {
    var t := response + ", " + name + ".";
    assert OccursAt(name, t, |response| + 2);
    t
  }

  /** Leading placement: the name and a comma, then the reply with its first character lower-cased. */
  function NameLeading(response: string, name: string): (t: string)
    requires response != []
    ensures IsSubstring(name, t)
    ensures |t| == |response| + |name| + 2
    ensures t[..|name| + 2] == name + ", "
    ensures Lower(t[|name| + 2..]) == Lower(response)
    ensures t[|name| + 2] == LowerChar(response[0])
    ensures t[|name| + 3..] == response[1..]
  {
    var t := name + ", " + [LowerChar(response[0])] + response[1..];
    assert OccursAt(name, t, 0);
    assert t[|name| + 2..] == [LowerChar(response[0])] + response[1..];
    t
  }
}
