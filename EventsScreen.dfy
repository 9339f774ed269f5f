/** The event list of mobile-client/src/screens/EventsScreen.tsx: the search filter over
    name, description and address, the status badge, and the two role flags. */
module EventsScreen {
  import opened Strings
  import opened Wrappers
  import EventDetails

  /** The fields of an event the screen reads. */
  datatype ClientEvent = ClientEvent(id: string, name: string, description: string, address: string, status: string)

  /** The search test for one event: the lower-cased query inside the lower-cased name,
      description or address. */
  predicate Matches(e: ClientEvent, query: string) {
    var q := ToLower(query);
    Contains(ToLower(e.name), q) || Contains(ToLower(e.description), q) || Contains(ToLower(e.address), q)
  }

  /** `events.filter(...)`: the matching events in list order. */
  function Filtered(events: seq<ClientEvent>, query: string): (r: seq<ClientEvent>)
    ensures |r| <= |events|
    ensures forall k :: 0 <= k < |r| ==> r[k] in events && Matches(r[k], query)
  {
    if events == [] then []
    else
      var last := events[|events| - 1];
      Filtered(events[..|events| - 1], query) + (if Matches(last, query) then [last] else [])
  }

  /** filterEvents: every event for an empty query, the matching ones otherwise. */
  function FilterEvents(events: seq<ClientEvent>, query: string): (r: seq<ClientEvent>)
    ensures query == "" ==> r == events
  {
    if query == "" then events else Filtered(events, query)
  }

  /** Exactly the matching events are kept. */
  lemma {:induction false} FilteredExactly(events: seq<ClientEvent>, query: string, e: ClientEvent)
    ensures e in Filtered(events, query) <==> e in events && Matches(e, query)
  {
    if events != [] {
      var init := events[..|events| - 1];
      FilteredExactly(init, query, e);
      assert events == init + [events[|events| - 1]];
    }
  }

  /** `idx` lists, in increasing order, the positions of `r`'s elements in `s`. */
  predicate Embeds(r: seq<ClientEvent>, s: seq<ClientEvent>, idx: seq<nat>) {
    |idx| == |r|
    && (forall k :: 0 <= k < |idx| ==> idx[k] < |s| && s[idx[k]] == r[k])
    && (forall j, k :: 0 <= j < k < |idx| ==> idx[j] < idx[k])
  }

  /** The result keeps the events' order: it is a subsequence of them. */
  lemma {:induction false} FilterSubsequence(events: seq<ClientEvent>, query: string) returns (idx: seq<nat>)
    ensures Embeds(FilterEvents(events, query), events, idx)
  {
    if query == "" {
      idx := seq(|events|, k requires 0 <= k < |events| => k);
    } else {
      idx := FilteredSubsequence(events, query);
    }
  }

  lemma {:induction false} FilteredSubsequence(events: seq<ClientEvent>, query: string) returns (idx: seq<nat>)
    ensures Embeds(Filtered(events, query), events, idx)
    ensures forall k :: 0 <= k < |idx| ==> idx[k] < |events|
  {
    if events == [] {
      idx := [];
    } else {
      var n := |events| - 1;
      var init := events[..n];
      var head := FilteredSubsequence(init, query);
      if Matches(events[n], query) {
        idx := head + [n];
      } else {
        idx := head;
      }
      var r := Filtered(events, query);
      assert r[..|head|] == Filtered(init, query);
      forall k | 0 <= k < |head| ensures events[head[k]] == r[k] {
        assert init[head[k]] == events[head[k]];
        assert r[..|head|][k] == r[k];
      }
    }
  }

  /** Filtering the result again with the same query changes nothing. */
  lemma {:induction false} FilterIdempotent(events: seq<ClientEvent>, query: string)
    ensures FilterEvents(FilterEvents(events, query), query) == FilterEvents(events, query)
  {
    if query != "" {
      FilteredIdempotent(events, query);
    }
  }

  lemma {:induction false} FilteredIdempotent(events: seq<ClientEvent>, query: string)
    ensures Filtered(Filtered(events, query), query) == Filtered(events, query)
  {
    if events != [] {
      var n := |events| - 1;
      var head := Filtered(events[..n], query);
      FilteredIdempotent(events[..n], query);
      var x := events[n];
      if Matches(x, query) {
        var r := head + [x];
        assert Filtered(events, query) == r;
        assert r[..|r| - 1] == head && r[|r| - 1] == x;
        assert Filtered(r, query) == Filtered(head, query) + [x];
      } else {
        assert Filtered(events, query) == head;
      }
    }
  }

  /** getStatusColor. */
  function StatusColor(status: string): (c: string)
    ensures c == "#28a745" <==> status == "live"
    ensures c == "#6c757d" <==> status == "ended"
    ensures c == "#007AFF" <==> status != "live" && status != "ended"
  {
    if status == "live" then "#28a745"
    else if status == "upcoming" then "#007AFF"
    else if status == "ended" then "#6c757d"
    else "#007AFF"
  }

  /** getStatusText. */
  function StatusText(status: string): (t: string)
    ensures status !in {"live", "upcoming", "ended"} ==> t == "📅 Event"
  {
    if status == "live" then "🔴 LIVE"
    else if status == "upcoming" then "📅 Upcoming"
    else if status == "ended" then "✅ Ended"
    else "📅 Event"
  }

  /** The badge tells the three known statuses apart from each other and from any other
      status; an unknown status shares only the upcoming colour. */
  lemma BadgeDistinct(s1: string, s2: string)
    ensures StatusText(s1) == StatusText(s2) <==>
      (s1 == s2 || (s1 !in {"live", "upcoming", "ended"} && s2 !in {"live", "upcoming", "ended"}))
    ensures s1 !in {"live", "upcoming", "ended"} ==> StatusColor(s1) == StatusColor("upcoming")
  {
    assert "🔴 LIVE"[2] == 'L' && "📅 Upcoming"[2] == 'U' && "✅ Ended"[2] == 'E' && "📅 Event"[2] == 'E';
    assert "✅ Ended"[3] == 'n' && "📅 Event"[3] == 'v';
  }

  /** `isBrand`. */
  predicate IsBrand(role: Option<string>) {
    role == Some("brand")
  }

  /** A role is never both the user and the brand flag. */
  lemma RolesExclusive(role: Option<string>)
    ensures !(EventDetails.IsUser(role) && IsBrand(role))
    ensures role.Some? && role.value !in {"", "user", "brand"} ==> !EventDetails.IsUser(role) && !IsBrand(role)
  {
  }
}
