/** Classification of a visitor beacon (server/index.js:434-446). The three
    case-insensitive regular expressions over the reported URL become substring
    tests on its ASCII-lower-cased text. */
module Beacon {
  import opened Common

  function LowerChar(c: char): char
  {
    if 'A' <= c <= 'Z' then (c as int + 32) as char else c
  }

  /** ASCII lower-casing, the case folding of a regular expression's `i` flag. */
  function Lower(s: string): (r: string)
    ensures |r| == |s|
    ensures forall i :: 0 <= i < |s| ==> r[i] == LowerChar(s[i])
  {
    seq(|s|, i requires 0 <= i < |s| => LowerChar(s[i]))
  }

  predicate MatchesAt(s: string, pat: string, i: int)
  {
    0 <= i <= |s| - |pat| && s[i..i + |pat|] == pat
  }

  predicate Contains(s: string, pat: string)
  {
    exists i | 0 <= i <= |s| - |pat| :: MatchesAt(s, pat, i)
  }

  /** `re.test(url)` turns an absent url into the text "undefined". */
  function TestedText(url: Option<string>): string
  {
    if url.Some? then url.value else "undefined"
  }

  /** `/script/i`, `/eval|exec|alert/i` and `/<|>|javascript:/i`, any of them. */
  predicate SuspiciousUrl(url: Option<string>)
  {
    var t := Lower(TestedText(url));
    Contains(t, "script") || Contains(t, "eval") || Contains(t, "exec") || Contains(t, "alert")
      || Contains(t, "<") || Contains(t, ">") || Contains(t, "javascript:")
  }

  datatype VisitVerdict = VisitVerdict(attack: bool, eventType: Kind, severity: Severity, alertMsg: Option<string>)

  const SuspiciousVisitMessage := "Suspicious URL pattern in visitor request"

  function ClassifyVisit(url: Option<string>): (v: VisitVerdict)
    ensures v.attack <==> SuspiciousUrl(url)
    ensures v.attack ==> v == VisitVerdict(true, Alert, High, Some(SuspiciousVisitMessage))
    ensures !v.attack ==> v == VisitVerdict(false, Http, Info, None)
  {
    if SuspiciousUrl(url) then VisitVerdict(true, Alert, High, Some(SuspiciousVisitMessage))
    else VisitVerdict(false, Http, Info, None)
  }

  /** The tests ignore ASCII case: a url and its lower-cased form are classified alike. */
  lemma CaseInsensitive(u: string)
    ensures SuspiciousUrl(Some(Lower(u))) == SuspiciousUrl(Some(u))
  {
    assert Lower(Lower(u)) == Lower(u);
  }

  /** No two consecutive characters of `s` start `pat`, so `pat` does not occur. */
  lemma NoLeadingPair(s: string, pat: string)
    requires |pat| >= 2
    requires forall i :: 0 <= i < |s| - 1 ==> !(s[i] == pat[0] && s[i + 1] == pat[1])
    ensures !Contains(s, pat)
  {
    forall i | 0 <= i <= |s| - |pat| ensures !MatchesAt(s, pat, i) {
      assert s[i..i + |pat|][0] == s[i] && s[i..i + |pat|][1] == s[i + 1];
    }
  }

  /** No character of `s` starts `pat`, so `pat` does not occur. */
  lemma NoLeadingChar(s: string, pat: string)
    requires |pat| >= 1
    requires forall i :: 0 <= i < |s| ==> s[i] != pat[0]
    ensures !Contains(s, pat)
  {
    forall i | 0 <= i <= |s| - |pat| ensures !MatchesAt(s, pat, i) {
      assert s[i..i + |pat|][0] == s[i];
    }
  }

  /** An absent url is never suspicious: "undefined" matches none of the patterns. */
  lemma AbsentUrlIsClean()
    ensures !SuspiciousUrl(None)
  {
    var t := "undefined";
    assert Lower(t) == t;
    NoLeadingChar(t, "script");
    NoLeadingPair(t, "eval");
    NoLeadingPair(t, "exec");
    NoLeadingChar(t, "alert");
    NoLeadingChar(t, "<");
    NoLeadingChar(t, ">");
    NoLeadingChar(t, "javascript:");
  }

  /** A url carrying an angle bracket anywhere is suspicious. */
  lemma AngleBracketIsSuspicious(u: string, k: nat)
    requires k < |u| && u[k] == '<'
    ensures SuspiciousUrl(Some(u))
  {
    var t := Lower(u);
    assert t[k..k + 1] == "<";
    assert MatchesAt(t, "<", k);
  }
}
