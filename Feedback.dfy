/** Poll creation in backend/internal/services/feedback.go: the poll and its options,
    built in a preallocated list filled by index. The clock (nanoseconds) is a parameter. */
module Feedback {
  import opened Wrappers
  import opened Strings

  datatype PollOption = PollOption(id: string, text: string, votes: int)

  datatype Poll = Poll(id: string, question: string, options: seq<PollOption>, eventID: string)

  /** The option at position `i`. */
  function OptionAt(options: seq<string>, i: nat): PollOption
    requires i < |options|
  {
    PollOption("option_" + NatToString(i), options[i], 0)
  }

  /** CreatePoll at `now`: one unvoted option per given text, numbered from 0. It never fails. */
  method CreatePoll(question: string, eventID: string, options: seq<string>, now: nat) returns (r: Result<Poll>)
    ensures r.Ok?
    ensures r.value.id == "poll_" + NatToString(now) && r.value.question == question && r.value.eventID == eventID
    ensures |r.value.options| == |options|
    ensures forall i :: 0 <= i < |options| ==> r.value.options[i] == OptionAt(options, i)
  {
    var pollID := "poll_" + NatToString(now);
    var slots := new PollOption[|options|](_ => PollOption("", "", 0));
    var i := 0;
    while i < |options|
      invariant 0 <= i <= |options|
      invariant forall k :: 0 <= k < i ==> slots[k] == OptionAt(options, k)
      modifies slots
    {
      slots[i] := PollOption("option_" + NatToString(i), options[i], 0);
      i := i + 1;
    }
    return Ok(Poll(pollID, question, slots[..], eventID));
  }

  /** Option ids are distinct, and every option starts with no votes. */
  lemma OptionIdsDistinct(options: seq<string>, i: nat, j: nat)
    requires i < |options| && j < |options| && i != j
    ensures OptionAt(options, i).id != OptionAt(options, j).id
    ensures OptionAt(options, i).votes == 0
  {
    if OptionAt(options, i).id == OptionAt(options, j).id {
      var a := NatToString(i);
      var b := NatToString(j);
      assert ("option_" + a)[7..] == a && ("option_" + b)[7..] == b;
      NatToStringInjective(i, j);
    }
  }
}
