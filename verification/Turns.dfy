/** A whole conversation on one task: turn after turn, by either method, until a turn
    leaves the task terminal (transport/request-handler.ts). */
module Turns {
  import opened Options
  import opened Artifacts
  import opened Tasks
  import opened StreamFold
  import opened Executors
  import opened StreamEqualsSend
  import opened StreamRecord

  datatype Method = Send | Stream

  /** One request: a terminal task is not continued (a fresh task is created instead). */
  function TurnBy(way: Method, task: Task, run: AgentRun): Task {
    if IsTerminal(task.status.state) then task
    else if way.Send? then SendStored(task, run)
    else StreamStored(task, run).stored
  }

  function Conversation(task: Task, turns: seq<(Method, AgentRun)>): Task {
    if turns == [] then task
    else
      var (way, run) := turns[|turns| - 1];
      TurnBy(way, Conversation(task, turns[..|turns| - 1]), run)
  }

  /** Whatever methods the client mixes, the record is the same, nothing an earlier turn
      produced is dropped, changed or moved, ids stay distinct across all turns, and the
      task waits or is over after each. */
  lemma {:induction false} ConversationOnlyAdds(
    task: Task, turns: seq<(Method, AgentRun)>, other: seq<(Method, AgentRun)>)
    requires Distinct(PriorOf(task)) && |turns| == |other|
    requires forall i | 0 <= i < |turns| :: turns[i].1 == other[i].1
    ensures Conversation(task, turns) == Conversation(task, other)
    ensures PriorOf(task) <= PriorOf(Conversation(task, turns)) && Distinct(PriorOf(Conversation(task, turns)))
    ensures turns != [] ==> IsSettled(Conversation(task, turns).status.state)
  {
    if turns != [] {
      var last := |turns| - 1;
      ConversationOnlyAdds(task, turns[..last], other[..last]);
      var before := Conversation(task, turns[..last]);
      if !IsTerminal(before.status.state) {
        StreamLeavesWhatSendLeaves(before, turns[last].1);
        TurnOnlyAdds(before, turns[last].1);
      }
    }
  }
}
