/** LevelStateIds.cs: the identifiers of the three level states and their playing order. */
module LevelStateIds {
  import opened Wrappers
  import opened Collections

  const Warmup: string := "warmup"
  const Miqat: string := "miqat"
  const Tawaf: string := "tawaf"

  /** Every state id, in the order the levels are played. */
  const AllStates: seq<string> := [Warmup, Miqat, Tawaf]

  /** GetNextState: the id after `currentStateId` in the playing order, or None for the last
      id and for an unknown one. */
  function GetNextState(currentStateId: string): (next: Option<string>)
    ensures next.Some? <==> IsValid(currentStateId) && currentStateId != Tawaf
    ensures next.Some? ==>
      IsValid(next.value) && IndexOf(AllStates, next.value) == IndexOf(AllStates, currentStateId) + 1
  {
    var index := IndexOf(AllStates, currentStateId);
    if index < 0 || index >= |AllStates| - 1 then None else Some(AllStates[index + 1])
  }

  /** GetPreviousState: the id before `currentStateId` in the playing order, or None for the
      first id and for an unknown one. */
  function GetPreviousState(currentStateId: string): (previous: Option<string>)
    ensures previous.Some? <==> IsValid(currentStateId) && currentStateId != Warmup
    ensures previous.Some? ==>
      IsValid(previous.value) && IndexOf(AllStates, previous.value) == IndexOf(AllStates, currentStateId) - 1
  {
    var index := IndexOf(AllStates, currentStateId);
    if index <= 0 then None else Some(AllStates[index - 1])
  }

  /** IsValid: the id is one of the three state ids. */
  function IsValid(stateId: string): (valid: bool)
    ensures valid <==> stateId == Warmup || stateId == Miqat || stateId == Tawaf
  {
    stateId in AllStates
  }

  /** The three ids are distinct, so the order is a list without repeats. */
  lemma AllStatesDistinct()
    ensures NoDuplicates(AllStates)
  {
    assert Warmup[0] != Miqat[0] && Miqat[0] != Tawaf[0] && Warmup[0] != Tawaf[0];
  }

  /** Each id sits at its own position of the order. */
  lemma PositionsInOrder()
    ensures IndexOf(AllStates, Warmup) == 0
    ensures IndexOf(AllStates, Miqat) == 1
    ensures IndexOf(AllStates, Tawaf) == 2
  {
    AllStatesDistinct();
    IndexOfDistinct(AllStates, 0);
    IndexOfDistinct(AllStates, 1);
    IndexOfDistinct(AllStates, 2);
  }

  /** The order, step by step: warmup, then miqat, then tawaf, then nothing. */
  lemma NextStateTable()
    ensures GetNextState(Warmup) == Some(Miqat)
    ensures GetNextState(Miqat) == Some(Tawaf)
    ensures GetNextState(Tawaf) == None
    ensures GetPreviousState(Warmup) == None
    ensures GetPreviousState(Miqat) == Some(Warmup)
    ensures GetPreviousState(Tawaf) == Some(Miqat)
  {
    PositionsInOrder();
  }

  /** Going forward and then back returns to the starting id. */
  lemma NextThenPrevious(stateId: string)
    requires GetNextState(stateId).Some?
    ensures GetPreviousState(GetNextState(stateId).value) == Some(stateId)
  {
    NextStateTable();
  }

  /** Going back and then forward returns to the starting id. */
  lemma PreviousThenNext(stateId: string)
    requires GetPreviousState(stateId).Some?
    ensures GetNextState(GetPreviousState(stateId).value) == Some(stateId)
  {
    NextStateTable();
  }
}
