/** The rewards service of backend/internal/services/rewards.go over its own view
    of the `rewards`, `user_points` and `content` tables. The clock (nanoseconds)
    and failing statements are parameters. */
module Rewards {
  import opened Wrappers
  import opened Strings

  const Day: int := 24 * 60 * 60 * 1_000_000_000
  const QualityThreshold := 20
  const QualityType := "quality_content"
  const QualityDescription := "High-quality content reward"

  datatype Reward = Reward(id: string, userID: string, typ: string, points: int, description: string,
                           eventID: string, contentID: string, status: string, createdAt: int)

  /** A content row with the engagement the quality query reads (`likes` is the count
      the sub-select computes). */
  datatype Content = Content(id: string, userID: string, eventID: string, createdAt: int,
                             views: int, shares: int, likes: int)

  /** calculateLevel. */
  function CalculateLevel(points: int): (level: int)
    ensures 1 <= level <= 5
    ensures level == 1 <==> points < 100
    ensures level == 5 <==> points >= 2500
    ensures level == 2 <==> 100 <= points < 500
    ensures level == 3 <==> 500 <= points < 1000
    ensures level == 4 <==> 1000 <= points < 2500
  {
    if points < 100 then 1
    else if points < 500 then 2
    else if points < 1000 then 3
    else if points < 2500 then 4
    else 5
  }

  lemma LevelMonotone(p: int, q: int)
    requires p <= q
    ensures CalculateLevel(p) <= CalculateLevel(q)
  {
  }

  /** The engagement score of EvaluateContentQuality: 10 for more than 100 views, 20 for
      more than 5 shares, 15 for more than 10 likes. */
  function Score(views: int, shares: int, likes: int): (score: int)
    ensures 0 <= score <= 45
    ensures score > QualityThreshold <==>
      (views > 100 && shares > 5) || (views > 100 && likes > 10) || (shares > 5 && likes > 10)
  {
    (if views > 100 then 10 else 0) + (if shares > 5 then 20 else 0) + (if likes > 10 then 15 else 0)
  }

  /** The score EvaluateContentQuality accumulates, one condition at a time. */
  method QualityScore(views: int, shares: int, likes: int) returns (score: int)
    ensures score == Score(views, shares, likes)
  {
    score := 0;
    if views > 100 {
      score := score + 10;
    }
    if shares > 5 {
      score := score + 20;
    }
    if likes > 10 {
      score := score + 15;
    }
  }

  function ContentScore(c: Content): int {
    Score(c.views, c.shares, c.likes)
  }

  /** The first content row with the id (QueryRow takes one). */
  function FindContent(content: seq<Content>, id: string): (r: Option<Content>)
    ensures r.Some? ==> r.value in content && r.value.id == id
    ensures r.Some? ==> exists j :: 0 <= j < |content| && content[j] == r.value
                                   && forall k :: 0 <= k < j ==> content[k].id != id
    ensures r.None? <==> forall k :: 0 <= k < |content| ==> content[k].id != id
  {
    if content == [] then None
    else if content[0].id == id then Some(content[0])
    else
      var r := FindContent(content[1..], id);
      assert forall k :: 1 <= k < |content| ==> content[k] == content[1..][k - 1];
      r
  }

  function RewardedContent(rewards: seq<Reward>): set<string> {
    set k | 0 <= k < |rewards| :: rewards[k].contentID
  }

  /** The rows ProcessQualityRewards selects: content of the last day with no reward yet. */
  function Candidates(content: seq<Content>, rewarded: set<string>, now: int): (r: seq<Content>)
    ensures forall k :: 0 <= k < |r| ==> r[k] in content && r[k].id !in rewarded && r[k].createdAt > now - Day
  {
    if content == [] then []
    else
      var last := content[|content| - 1];
      Candidates(content[..|content| - 1], rewarded, now)
      + (if last.createdAt > now - Day && last.id !in rewarded then [last] else [])
  }

  function QualityReward(c: Content, score: int, now: nat): Reward {
    Reward("reward_" + NatToString(now), c.userID, QualityType, score, QualityDescription, c.eventID, c.id,
           "pending", now)
  }

  /** A candidate the pass rewards: its evaluation succeeds (the query does not fail with
      `evalError` and finds the row), scores above the threshold, and its insert does
      not fail. A failed evaluation skips the candidate. */
  predicate Qualifies(c: Content, content: seq<Content>, evalError: string -> Option<string>, awardFails: string -> bool) {
    evalError(c.id).None? && FindContent(content, c.id).Some?
    && ContentScore(FindContent(content, c.id).value) > QualityThreshold && !awardFails(c.id)
  }

  /** The rewards a pass over `cands` awards: one for each candidate that Qualifies, in
      order. */
  function QualityAwards(cands: seq<Content>, content: seq<Content>, now: nat, evalError: string -> Option<string>, awardFails: string -> bool): (r: seq<Reward>)
    ensures forall k :: 0 <= k < |r| ==> r[k].points > QualityThreshold && r[k].status == "pending"
  {
    if cands == [] then []
    else
      var init := QualityAwards(cands[..|cands| - 1], content, now, evalError, awardFails);
      var c := cands[|cands| - 1];
      var found := FindContent(content, c.id);
      if Qualifies(c, content, evalError, awardFails)
      then init + [QualityReward(c, ContentScore(found.value), now)]
      else init
  }

  /** The `user_points` upsert: the user's total, 0 when there is no row, plus `amount`. */
  function Credit(points: map<string, int>, userID: string, amount: int): (r: map<string, int>)
    ensures r.Keys == points.Keys + {userID}
    ensures r[userID] == (if userID in points then points[userID] else 0) + amount
    ensures forall u :: u in points && u != userID ==> r[u] == points[u]
  {
    points[userID := (if userID in points then points[userID] else 0) + amount]
  }

  /** `user_points` after crediting each reward to its user, except the rewards whose
      points upsert fails (AwardReward ignores that error, so the reward stays stored). */
  function Credited(points: map<string, int>, awarded: seq<Reward>, pointsFail: string -> bool): (r: map<string, int>)
    ensures forall u :: u in points ==> u in r
  {
    if awarded == [] then points
    else
      var init := Credited(points, awarded[..|awarded| - 1], pointsFail);
      var w := awarded[|awarded| - 1];
      if pointsFail(w.contentID) then init else Credit(init, w.userID, w.points)
  }

  function DeliveredTotal(rewards: seq<Reward>, userID: string): int {
    if rewards == [] then 0
    else
      var last := rewards[|rewards| - 1];
      DeliveredTotal(rewards[..|rewards| - 1], userID) + (if last.userID == userID && last.status == "delivered" then last.points else 0)
  }

  datatype UserRewards = UserRewards(userID: string, totalPoints: int, level: int, badges: seq<string>)

  class RewardsService {
    var rewards: seq<Reward>
    var userPoints: map<string, int>
    var content: seq<Content>

    constructor (content: seq<Content>)
      ensures rewards == [] && userPoints == map[] && this.content == content
    {
      rewards := [];
      userPoints := map[];
      this.content := content;
    }

    /** AwardReward at `now`: a pending reward, and the points credited to the user unless
        that upsert fails (its error is ignored). */
    method AwardReward(userID: string, rewardType: string, description: string, eventID: string, contentID: string,
                       points: int, now: nat, insertError: Option<string>, pointsFail: bool) returns (r: Result<Reward>)
      modifies this
      ensures content == old(content)
      ensures insertError.Some? ==> (r == Err("failed to award reward: " + insertError.value)
        && rewards == old(rewards) && userPoints == old(userPoints))
      ensures insertError.None? ==> (r.Ok? && r.value.status == "pending" && r.value.points == points
        && r.value == Reward("reward_" + NatToString(now), userID, rewardType, points, description, eventID, contentID, "pending", now)
        && rewards == old(rewards) + [r.value]
        && userPoints == if pointsFail then old(userPoints) else Credit(old(userPoints), userID, points))
    {
      if insertError.Some? {
        return Err("failed to award reward: " + insertError.value);
      }
      var reward := Reward("reward_" + NatToString(now), userID, rewardType, points, description, eventID, contentID, "pending", now);
      rewards := rewards + [reward];
      if !pointsFail {
        UpdateUserPoints(userID, points);
      }
      return Ok(reward);
    }

    method UpdateUserPoints(userID: string, points: int)
      modifies this
      ensures rewards == old(rewards) && content == old(content)
      ensures userPoints == Credit(old(userPoints), userID, points)
    {
      var current := if userID in userPoints then userPoints[userID] else 0;
      userPoints := userPoints[userID := current + points];
    }

    /** GetUserRewards: only delivered rewards count. */
    method GetUserRewards(userID: string, queryError: Option<string>, badges: Result<seq<string>>) returns (r: Result<UserRewards>)
      ensures queryError.Some? ==> r == Err("failed to get user rewards: " + queryError.value)
      ensures queryError.None? ==> (r.Ok? && r.value.userID == userID
        && r.value.totalPoints == DeliveredTotal(rewards, userID)
        && r.value.level == CalculateLevel(r.value.totalPoints)
        && r.value.badges == (if badges.Ok? then badges.value else []))
    {
      if queryError.Some? {
        return Err("failed to get user rewards: " + queryError.value);
      }
      var total := DeliveredTotal(rewards, userID);
      var list := if badges.Ok? then badges.value else [];
      return Ok(UserRewards(userID, total, CalculateLevel(total), list));
    }

    /** EvaluateContentQuality: a query or scan failure (`queryError`) is wrapped, a
        missing row is the wrapped no-rows error, and a found row gives its score. */
    method EvaluateContentQuality(contentID: string, queryError: Option<string>) returns (r: Result<int>)
      ensures queryError.Some? ==> r == Err("failed to evaluate content quality: " + queryError.value)
      ensures queryError.None? && FindContent(content, contentID).None? ==>
        r == Err("failed to evaluate content quality: sql: no rows in result set")
      ensures queryError.None? && FindContent(content, contentID).Some? ==>
        r == Ok(ContentScore(FindContent(content, contentID).value))
    {
      if queryError.Some? {
        return Err("failed to evaluate content quality: " + queryError.value);
      }
      var found := FindContent(content, contentID);
      if found.None? {
        return Err("failed to evaluate content quality: sql: no rows in result set");
      }
      var c := found.value;
      var score := QualityScore(c.views, c.shares, c.likes);
      return Ok(score);
    }

    /** ProcessQualityRewards at `now`: every candidate scoring above 20 gets a reward of
        its score, unless its evaluation fails (`evalError`, then it is skipped) or its
        insert fails (`awardFails`); a stored reward is credited unless its points upsert
        fails (`pointsFail`). All three are keyed by content id. */
    method ProcessQualityRewards(now: nat, queryError: Option<string>, evalError: string -> Option<string>, awardFails: string -> bool,
                                 pointsFail: string -> bool) returns (err: Option<string>)
      modifies this
      ensures content == old(content)
      ensures queryError.Some? ==> (err == Some("failed to get content for quality evaluation: " + queryError.value)
        && rewards == old(rewards) && userPoints == old(userPoints))
      ensures queryError.None? ==> (err.None?
        && var awarded := QualityAwards(Candidates(content, RewardedContent(old(rewards)), now), content, now, evalError, awardFails);
           rewards == old(rewards) + awarded && userPoints == Credited(old(userPoints), awarded, pointsFail))
    {
      if queryError.Some? {
        return Some("failed to get content for quality evaluation: " + queryError.value);
      }
      var cands := Candidates(content, RewardedContent(rewards), now);
      AwardCandidates(cands, now, evalError, awardFails, pointsFail);
      return None;
    }

    /** The loop of ProcessQualityRewards: each candidate evaluated, and rewarded when it
        scores above the threshold. */
    method AwardCandidates(cands: seq<Content>, now: nat, evalError: string -> Option<string>, awardFails: string -> bool, pointsFail: string -> bool)
      modifies this
      ensures content == old(content)
      ensures rewards == old(rewards) + QualityAwards(cands, content, now, evalError, awardFails)
      ensures userPoints == Credited(old(userPoints), QualityAwards(cands, content, now, evalError, awardFails), pointsFail)
    {
      ghost var awarded: seq<Reward> := [];
      assert cands[..0] == [];
      var i := 0;
      while i < |cands|
        invariant 0 <= i <= |cands| && content == old(content)
        invariant awarded == QualityAwards(cands[..i], content, now, evalError, awardFails)
        invariant rewards == old(rewards) + awarded
        invariant userPoints == Credited(old(userPoints), awarded, pointsFail)
      {
        AwardsStep(cands, i, content, now, evalError, awardFails);
        ghost var before := rewards;
        var step := AwardQuality(cands[i], now, evalError, awardFails, pointsFail);
        CreditedConcat(old(userPoints), awarded, step, pointsFail);
        assert old(rewards) + (awarded + step) == before + step;
        awarded := awarded + step;
        i := i + 1;
      }
      assert cands[..i] == cands;
    }

    /** One pass of that loop: the candidate's score, and its reward when it is above the
        threshold and the insert succeeds. */
    method AwardQuality(c: Content, now: nat, evalError: string -> Option<string>, awardFails: string -> bool, pointsFail: string -> bool) returns (step: seq<Reward>)
      modifies this
      ensures content == old(content)
      ensures step == QualityStep(c, content, now, evalError, awardFails)
      ensures rewards == old(rewards) + step && userPoints == Credited(old(userPoints), step, pointsFail)
    {
      ghost var expected := QualityStep(c, content, now, evalError, awardFails);
      var score := EvaluateContentQuality(c.id, evalError(c.id));
      if score.Ok? && score.value > QualityThreshold && !awardFails(c.id) {
        var w := QualityReward(c, score.value, now);
        assert expected == [w];
        var res := AwardReward(c.userID, QualityType, QualityDescription, c.eventID, c.id,
                               score.value, now, None, pointsFail(c.id));
        assert [w][..0] == [];
        assert res.Ok? && res.value == w;
        step := [w];
      } else {
        assert expected == [];
        step := [];
      }
    }
  }

  // ---------------------------------------------------------------------------
  // Properties

  /** What one candidate adds to QualityAwards. */
  function QualityStep(c: Content, content: seq<Content>, now: nat, evalError: string -> Option<string>, awardFails: string -> bool): seq<Reward> {
    var found := FindContent(content, c.id);
    if Qualifies(c, content, evalError, awardFails)
    then [QualityReward(c, ContentScore(found.value), now)] else []
  }

  lemma AwardsStep(cands: seq<Content>, i: nat, content: seq<Content>, now: nat, evalError: string -> Option<string>, awardFails: string -> bool)
    requires i < |cands|
    ensures QualityAwards(cands[..i + 1], content, now, evalError, awardFails) ==
      QualityAwards(cands[..i], content, now, evalError, awardFails) + QualityStep(cands[i], content, now, evalError, awardFails)
  {
    assert cands[..i + 1][..i] == cands[..i];
  }

  lemma {:induction false} CreditedStep(points: map<string, int>, awarded: seq<Reward>, w: Reward, pointsFail: string -> bool)
    ensures Credited(points, awarded + [w], pointsFail) == Credited(Credited(points, awarded, pointsFail), [w], pointsFail)
  {
    assert (awarded + [w])[..|awarded|] == awarded;
    assert [w][..0] == [];
  }

  lemma {:induction false} CreditedConcat(points: map<string, int>, awarded: seq<Reward>, step: seq<Reward>,
                                          pointsFail: string -> bool)
    requires |step| <= 1
    ensures Credited(points, awarded + step, pointsFail) == Credited(Credited(points, awarded, pointsFail), step, pointsFail)
  {
    if step == [] {
      assert awarded + step == awarded;
    } else {
      assert step == [step[0]];
      CreditedStep(points, awarded, step[0], pointsFail);
    }
  }

  /** A user's row in `user_points`, 0 when there is none. */
  function Total(points: map<string, int>, userID: string): int {
    if userID in points then points[userID] else 0
  }

  /** The points of the user's rewards whose upsert succeeds. */
  function CreditedTo(awarded: seq<Reward>, userID: string, pointsFail: string -> bool): int {
    if awarded == [] then 0
    else
      var w := awarded[|awarded| - 1];
      CreditedTo(awarded[..|awarded| - 1], userID, pointsFail)
        + (if w.userID == userID && !pointsFail(w.contentID) then w.points else 0)
  }

  /** Each user's total rises by exactly the points of their rewards whose upsert
      succeeds; a reward whose upsert fails stays stored and credits nothing. */
  lemma {:induction false} CreditedTotals(points: map<string, int>, awarded: seq<Reward>, pointsFail: string -> bool,
                                          userID: string)
    ensures Total(Credited(points, awarded, pointsFail), userID) == Total(points, userID) + CreditedTo(awarded, userID, pointsFail)
  {
    if awarded != [] {
      CreditedTotals(points, awarded[..|awarded| - 1], pointsFail, userID);
    }
  }

  /** A freshly awarded reward is pending, so it does not change the delivered total. */
  lemma {:induction false} PendingNotCounted(rewards: seq<Reward>, w: Reward, userID: string)
    requires w.status == "pending"
    ensures DeliveredTotal(rewards + [w], userID) == DeliveredTotal(rewards, userID)
  {
    assert (rewards + [w])[..|rewards|] == rewards;
  }

  /** Only candidates are awarded. */
  lemma {:induction false} AwardsFromCandidates(cands: seq<Content>, content: seq<Content>, now: nat, evalError: string -> Option<string>, awardFails: string -> bool, k: nat)
    requires k < |QualityAwards(cands, content, now, evalError, awardFails)|
    ensures exists j :: 0 <= j < |cands| && QualityAwards(cands, content, now, evalError, awardFails)[k].contentID == cands[j].id
  {
    var init := cands[..|cands| - 1];
    var r := QualityAwards(cands, content, now, evalError, awardFails);
    if k < |QualityAwards(init, content, now, evalError, awardFails)| {
      AwardsFromCandidates(init, content, now, evalError, awardFails, k);
      var j :| 0 <= j < |init| && QualityAwards(init, content, now, evalError, awardFails)[k].contentID == init[j].id;
      assert r[k] == QualityAwards(init, content, now, evalError, awardFails)[k];
      assert init[j] == cands[j];
    } else {
      assert r[k].contentID == cands[|cands| - 1].id;
    }
  }

  /** Every content id a pass awards is rewarded afterwards. */
  lemma AwardedAreRewarded(rewards: seq<Reward>, awarded: seq<Reward>, k: nat)
    requires k < |awarded|
    ensures awarded[k].contentID in RewardedContent(rewards + awarded)
  {
    assert (rewards + awarded)[|rewards| + k] == awarded[k];
  }

  /** A second pass at the same instant awards nothing: what the first pass rewarded is
      no longer a candidate, and the rest still scores too low or still fails. */
  lemma SecondPassAwardsNothing(content: seq<Content>, rewards: seq<Reward>, now: nat, evalError: string -> Option<string>, awardFails: string -> bool)
    ensures var first := QualityAwards(Candidates(content, RewardedContent(rewards), now), content, now, evalError, awardFails);
      QualityAwards(Candidates(content, RewardedContent(rewards + first), now), content, now, evalError, awardFails) == []
  {
    var rewarded := RewardedContent(rewards);
    var first := QualityAwards(Candidates(content, rewarded, now), content, now, evalError, awardFails);
    var rewarded2 := RewardedContent(rewards + first);
    var cands2 := Candidates(content, rewarded2, now);
    forall c | c in cands2
      ensures !Qualifies(c, content, evalError, awardFails)
    {
      if Qualifies(c, content, evalError, awardFails) {
        assert c in content && c.createdAt > now - Day;
        assert c.id !in rewarded by {
          assert rewarded <= rewarded2 by {
            forall x | x in rewarded ensures x in rewarded2 {
              var k :| 0 <= k < |rewards| && rewards[k].contentID == x;
              assert (rewards + first)[k] == rewards[k];
            }
          }
        }
        CandidateSelected(content, rewarded, now, c);
        AwardedIfQualified(Candidates(content, rewarded, now), content, now, evalError, awardFails, c);
        var k :| 0 <= k < |first| && first[k].contentID == c.id;
        AwardedAreRewarded(rewards, first, k);
      }
    }
    NothingQualifies(cands2, content, now, evalError, awardFails);
  }

  lemma {:induction false} CandidateSelected(content: seq<Content>, rewarded: set<string>, now: int, c: Content)
    requires c in content && c.createdAt > now - Day && c.id !in rewarded
    ensures c in Candidates(content, rewarded, now)
  {
    var init := content[..|content| - 1];
    if c != content[|content| - 1] {
      assert c in init by {
        var k :| 0 <= k < |content| && content[k] == c;
        assert init[k] == c;
      }
      CandidateSelected(init, rewarded, now, c);
    }
  }

  lemma {:induction false} AwardedIfQualified(cands: seq<Content>, content: seq<Content>, now: nat, evalError: string -> Option<string>, awardFails: string -> bool, c: Content)
    requires c in cands
    requires Qualifies(c, content, evalError, awardFails)
    ensures exists k :: 0 <= k < |QualityAwards(cands, content, now, evalError, awardFails)| && QualityAwards(cands, content, now, evalError, awardFails)[k].contentID == c.id
  {
    var init := cands[..|cands| - 1];
    var r := QualityAwards(cands, content, now, evalError, awardFails);
    if c == cands[|cands| - 1] {
      assert r[|r| - 1].contentID == c.id;
    } else {
      assert c in init by {
        var k :| 0 <= k < |cands| && cands[k] == c;
        assert init[k] == c;
      }
      AwardedIfQualified(init, content, now, evalError, awardFails, c);
      var k :| 0 <= k < |QualityAwards(init, content, now, evalError, awardFails)| && QualityAwards(init, content, now, evalError, awardFails)[k].contentID == c.id;
      assert r[k] == QualityAwards(init, content, now, evalError, awardFails)[k];
    }
  }

  /** A candidate whose evaluation fails is skipped: no reward of the pass is for it. */
  lemma {:induction false} FailedEvaluationSkipped(cands: seq<Content>, content: seq<Content>, now: nat,
                                                   evalError: string -> Option<string>, awardFails: string -> bool, id: string)
    requires evalError(id).Some?
    ensures forall k :: 0 <= k < |QualityAwards(cands, content, now, evalError, awardFails)| ==>
      QualityAwards(cands, content, now, evalError, awardFails)[k].contentID != id
  {
    if cands != [] {
      var init := cands[..|cands| - 1];
      FailedEvaluationSkipped(init, content, now, evalError, awardFails, id);
    }
  }

  lemma {:induction false} NothingQualifies(cands: seq<Content>, content: seq<Content>, now: nat, evalError: string -> Option<string>, awardFails: string -> bool)
    requires forall c | c in cands ::
      !Qualifies(c, content, evalError, awardFails)
    ensures QualityAwards(cands, content, now, evalError, awardFails) == []
  {
    if cands != [] {
      var init := cands[..|cands| - 1];
      assert forall c | c in init :: c in cands;
      NothingQualifies(init, content, now, evalError, awardFails);
      assert cands[|cands| - 1] in cands;
    }
  }
}
