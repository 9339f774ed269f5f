/** The decisions of backend/internal/security/audit.go: ValidateInput's
    injection-pattern test, SecureCompare and the CheckRateLimit decision over the
    security-event rows. Each injection pattern is a literal or a chain of literals
    joined by `.*`; `.` does not match a newline, as in Go's regexp package. */
module Audit {
  import opened Wrappers
  import opened Strings

  /** A pattern `p0.*p1.*...`: its literal pieces in order. */
  type Pattern = seq<string>

  /** The patterns ValidateInput lists, in order. */
  const Patterns: seq<Pattern> := [
    ["<script"], ["javascript:"], ["onload="], ["onerror="],
    ["'", "OR", "'"], ["\"", "OR", "\""], ["UNION", "SELECT"], ["DROP", "TABLE"]
  ]

  predicate NoNewline(s: string, i: nat, j: nat) {
    forall k :: i <= k < j && k < |s| ==> s[k] != '\n'
  }

  /** The pieces occur in order from `start`; `anchored` pieces must follow the previous
      piece across a gap with no newline. */
  predicate MatchFrom(s: string, pieces: Pattern, start: nat, anchored: bool)
    decreases |pieces|
  {
    pieces == [] ||
    exists i :: start <= i <= |s| && OccursAt(s, pieces[0], i) && (!anchored || NoNewline(s, start, i))
                && MatchFrom(s, pieces[1..], i + |pieces[0]|, true)
  }

  /** `regexp.MatchString(pattern, s)`: some substring of `s` matches. */
  predicate Matches(s: string, p: Pattern) {
    MatchFrom(s, p, 0, false)
  }

  /** ValidateInput: the input is accepted when no pattern matches its lower-cased form. */
  function ValidateInput(input: string): (ok: bool)
    ensures ok <==> forall k :: 0 <= k < |Patterns| ==> !Matches(ToLower(input), Patterns[k])
  {
    var lowered := ToLower(input);
    !exists k :: 0 <= k < |Patterns| && Matches(lowered, Patterns[k])
  }

  /** Every piece of a matched pattern occurs in the input. */
  lemma {:induction false} MatchedPiecesOccur(s: string, pieces: Pattern, start: nat, anchored: bool, k: nat)
    requires MatchFrom(s, pieces, start, anchored) && k < |pieces|
    ensures Contains(s, pieces[k])
    decreases |pieces|
  {
    var i :| start <= i <= |s| && OccursAt(s, pieces[0], i) && (!anchored || NoNewline(s, start, i))
             && MatchFrom(s, pieces[1..], i + |pieces[0]|, true);
    if k == 0 {
      OccursAtContains(s, pieces[0], i);
    } else {
      MatchedPiecesOccur(s, pieces[1..], i + |pieces[0]|, true, k - 1);
    }
  }

  /** A pattern with an upper-case letter in one of its pieces never matches a lower-cased string. */
  lemma UpperPatternNeverMatches(input: string, p: Pattern, k: nat, c: char)
    requires k < |p| && c in p[k] && IsUpper(c)
    ensures !Matches(ToLower(input), p)
  {
    if Matches(ToLower(input), p) {
      MatchedPiecesOccur(ToLower(input), p, 0, false, k);
      ContainedChar(ToLower(input), p[k], c);
      ToLowerHasNoUpper(input, c);
    }
  }

  /** The last four patterns (quote/OR, UNION/SELECT, DROP/TABLE) are written in upper
      case and are tested against the lower-cased input, so none of them can ever match. */
  lemma UppercasePatternsDead(input: string)
    ensures forall k :: 4 <= k < |Patterns| ==> !Matches(ToLower(input), Patterns[k])
  {
    UpperPatternNeverMatches(input, Patterns[4], 1, 'O');
    UpperPatternNeverMatches(input, Patterns[5], 1, 'O');
    UpperPatternNeverMatches(input, Patterns[6], 0, 'U');
    UpperPatternNeverMatches(input, Patterns[7], 0, 'D');
  }

  /** So ValidateInput is exactly the four literal tests. */
  lemma ValidateInputLiteralOnly(input: string)
    ensures ValidateInput(input) <==>
      !Contains(ToLower(input), "<script") && !Contains(ToLower(input), "javascript:")
      && !Contains(ToLower(input), "onload=") && !Contains(ToLower(input), "onerror=")
  {
    UppercasePatternsDead(input);
    var s := ToLower(input);
    LiteralMatch(s, "<script");
    LiteralMatch(s, "javascript:");
    LiteralMatch(s, "onload=");
    LiteralMatch(s, "onerror=");
    assert Patterns[0] == ["<script"] && Patterns[1] == ["javascript:"];
    assert Patterns[2] == ["onload="] && Patterns[3] == ["onerror="];
    if !ValidateInput(input) {
      var k :| 0 <= k < |Patterns| && Matches(s, Patterns[k]);
      assert k < 4;
    }
  }

  /** A one-piece pattern matches iff its literal occurs. */
  lemma LiteralMatch(s: string, lit: string)
    ensures Matches(s, [lit]) <==> Contains(s, lit)
  {
    if Contains(s, lit) {
      var i := IndexOf(s, lit);
      assert [lit][0] == lit && [lit][1..] == [];
      assert 0 <= i <= |s| && OccursAt(s, [lit][0], i) && MatchFrom(s, [lit][1..], i + |lit|, true);
    }
    if Matches(s, [lit]) {
      MatchedPiecesOccur(s, [lit], 0, false, 0);
    }
  }

  /** The outcome depends only on the input's lower-cased form. */
  lemma ValidateInputCaseInvariant(a: string, b: string)
    requires ToLower(a) == ToLower(b)
    ensures ValidateInput(a) == ValidateInput(b)
  {
  }

  lemma ValidateInputOfLowered(input: string)
    ensures ValidateInput(ToLower(input)) == ValidateInput(input)
  {
    ToLowerIdempotent(input);
  }

  const ScriptProbe := "<script>alert(\"test\")</script>"
  const SqlProbe := "' OR '1'='1"

  /** A script tag is refused. */
  lemma ScriptTagRejected()
    ensures !ValidateInput(ScriptProbe)
  {
    var s := ToLower(ScriptProbe);
    LoweredScriptPrefix();
    assert OccursAt(s, "<script", 0);
    LiteralMatch(s, "<script");
    assert Patterns[0] == ["<script"];
  }

  /** The script probe lower-cased starts with the first pattern's literal. */
  lemma LoweredScriptPrefix()
    ensures ToLower(ScriptProbe)[..7] == "<script"
  {
    var prefix := ScriptProbe[..7];
    assert prefix == "<script";
    ToLowerPrefix(ScriptProbe, 7);
    var lowered := ToLower(prefix);
    assert lowered[0] == '<' && lowered[1] == 's' && lowered[2] == 'c' && lowered[3] == 'r';
    assert lowered[4] == 'i' && lowered[5] == 'p' && lowered[6] == 't';
  }

  /** The lower-cased SQL probe, position by position. */
  lemma LoweredSqlProbe()
    ensures ToLower(SqlProbe) == "' or '1'='1"
  {
    var s := ToLower(SqlProbe);
    assert s[0] == '\'' && s[1] == ' ' && s[2] == 'o' && s[3] == 'r' && s[4] == ' ' && s[5] == '\'';
    assert s[6] == '1' && s[7] == '\'' && s[8] == '=' && s[9] == '\'' && s[10] == '1';
  }

  /** The classic SQL probe passes, because its only candidate patterns are the dead
      upper-case ones. */
  lemma SqlProbeAccepted()
    ensures ValidateInput(SqlProbe)
  {
    LoweredSqlProbe();
    var s := ToLower(SqlProbe);
    ValidateInputLiteralOnly(SqlProbe);
    assert '<' !in s && ':' !in s && 'n' !in s;
    if Contains(s, "<script") {
      ContainedChar(s, "<script", '<');
    }
    if Contains(s, "javascript:") {
      ContainedChar(s, "javascript:", ':');
    }
    if Contains(s, "onload=") {
      ContainedChar(s, "onload=", 'n');
    }
    if Contains(s, "onerror=") {
      ContainedChar(s, "onerror=", 'n');
    }
  }

  /** The case-insensitive test the pattern list evidently intends: patterns are lowered too. */
  function ValidateInputIntended(input: string): (ok: bool)
    ensures ok <==> forall k :: 0 <= k < |Patterns| ==> !Matches(ToLower(input), LowerPattern(Patterns[k]))
  {
    var lowered := ToLower(input);
    !exists k :: 0 <= k < |Patterns| && Matches(lowered, LowerPattern(Patterns[k]))
  }

  function LowerPattern(p: Pattern): (r: Pattern)
    ensures |r| == |p| && forall k :: 0 <= k < |p| ==> r[k] == ToLower(p[k])
  {
    if p == [] then [] else [ToLower(p[0])] + LowerPattern(p[1..])
  }

  /** The intended test refuses the SQL probe through the quote/OR pattern. */
  lemma SqlProbeRejectedWhenIntended()
    ensures !ValidateInputIntended(SqlProbe)
  {
    LoweredSqlProbe();
    LoweredQuoteOrPattern();
    QuoteOrMatchesProbe();
    assert Matches(ToLower(SqlProbe), LowerPattern(Patterns[4]));
  }

  /** The fifth pattern, lowered. */
  lemma LoweredQuoteOrPattern()
    ensures LowerPattern(Patterns[4]) == ["'", "or", "'"]
  {
    var lowerOr := ToLower("OR");
    assert lowerOr[0] == 'o' && lowerOr[1] == 'r';
    assert lowerOr == "or";
    assert ToLower("'") == "'";
  }

  /** The lowered quote/OR pattern occurs in the lowered probe: quote at 0, `or` at 2
      and quote at 5, with no newline between. */
  lemma QuoteOrMatchesProbe()
    ensures MatchFrom("' or '1'='1", ["'", "or", "'"], 0, false)
  {
    var s := "' or '1'='1";
    var p: Pattern := ["'", "or", "'"];
    var q1: Pattern := ["or", "'"];
    assert p[1..] == q1;
    OrQuoteMatchesProbe();
    assert OccursAt(s, "'", 0);
  }

  lemma OrQuoteMatchesProbe()
    ensures MatchFrom("' or '1'='1", ["or", "'"], 1, true)
  {
    var s := "' or '1'='1";
    var q1: Pattern := ["or", "'"];
    var q2: Pattern := ["'"];
    assert q1[1..] == q2;
    ClosingQuoteMatchesProbe();
    assert OccursAt(s, "or", 2) && NoNewline(s, 1, 2);
  }

  lemma ClosingQuoteMatchesProbe()
    ensures MatchFrom("' or '1'='1", ["'"], 4, true)
  {
    var s := "' or '1'='1";
    var q2: Pattern := ["'"];
    assert q2[1..] == [];
    assert OccursAt(s, "'", 5) && NoNewline(s, 4, 5) && MatchFrom(s, q2[1..], 6, true);
  }

  /** The intended test still refuses everything the written one refuses. */
  lemma IntendedIsStricter(input: string)
    ensures ValidateInputIntended(input) ==> ValidateInput(input)
  {
    var s := ToLower(input);
    forall k | 0 <= k < 4 ensures LowerPattern(Patterns[k]) == Patterns[k] {
      ToLowerUnchanged(Patterns[k][0]);
    }
    UppercasePatternsDead(input);
  }

  // ---------------------------------------------------------------------------
  // SecureCompare and CheckRateLimit

  /** SecureCompare: `subtle.ConstantTimeCompare` is 1 exactly when lengths agree and every
      position agrees. */
  function SecureCompare(a: string, b: string): (eq: bool)
    ensures eq <==> a == b
  {
    |a| == |b| && forall i :: 0 <= i < |a| ==> a[i] == b[i]
  }

  datatype SecurityEvent = SecurityEvent(id: string, typ: string, userID: string, ipAddress: string,
                                         userAgent: string, details: string, createdAt: int)

  /** The rows the COUNT(*) of CheckRateLimit selects: the user's events whose details
      contain the endpoint, newer than `now - window`. */
  predicate Counted(e: SecurityEvent, userID: string, endpoint: string, cutoff: int) {
    e.userID == userID && Contains(e.details, endpoint) && e.createdAt > cutoff
  }

  function CountMatching(events: seq<SecurityEvent>, userID: string, endpoint: string, cutoff: int): (n: nat)
    ensures n <= |events|
  {
    if events == [] then 0
    else CountMatching(events[..|events| - 1], userID, endpoint, cutoff)
         + (if Counted(events[|events| - 1], userID, endpoint, cutoff) then 1 else 0)
  }

  /** CheckRateLimit at `now`. A failing query leaves the count at 0, so it allows. */
  function CheckRateLimit(events: seq<SecurityEvent>, userID: string, endpoint: string, limit: int,
                          window: int, now: int, queryFails: bool): (allowed: bool)
    ensures queryFails ==> (allowed <==> 0 < limit)
    ensures !queryFails ==> (allowed <==> CountMatching(events, userID, endpoint, now - window) < limit)
    ensures !queryFails && |events| < limit ==> allowed
  {
    var count := if queryFails then 0 else CountMatching(events, userID, endpoint, now - window);
    count < limit
  }

  /** Events of other users never change the decision. */
  lemma {:induction false} OtherUsersIrrelevant(events: seq<SecurityEvent>, e: SecurityEvent,
                                                 userID: string, endpoint: string, cutoff: int)
    requires e.userID != userID
    ensures CountMatching(events + [e], userID, endpoint, cutoff) == CountMatching(events, userID, endpoint, cutoff)
  {
    assert (events + [e])[..|events + [e]| - 1] == events;
  }
}
