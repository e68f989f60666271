/**
 * The pupils attached to a parent account, as the parent clients keep them:
 * the first pupil chosen at login, and `selectPupil`'s scan for an id.
 */
module Roster {
  import opened Wrappers
  import opened Errors
  import opened Http

  /** The index of the first pupil with the given id, scanning from the front. */
  function FindPupil(pupils: seq<Pupil>, id: int): (r: Option<nat>)
    ensures r.Some? ==> r.value < |pupils| && pupils[r.value].id == id
    ensures r.Some? ==> forall j :: 0 <= j < r.value ==> pupils[j].id != id
    ensures r.None? <==> forall j :: 0 <= j < |pupils| ==> pupils[j].id != id
    decreases |pupils|
  {
    if pupils == [] then None
    else if pupils[0].id == id then Some(0)
    else
      match FindPupil(pupils[1..], id)
      case None => None
      case Some(k) => Some(k + 1)
  }

  /** A match found further down the roster is the same pupil, one place later. */
  lemma {:induction false} FindPupilSkips(p: Pupil, pupils: seq<Pupil>, id: int)
    requires p.id != id
    ensures FindPupil([p] + pupils, id) == if FindPupil(pupils, id).None? then None else Some(FindPupil(pupils, id).value + 1)
  {
    assert ([p] + pupils)[1..] == pupils;
  }

  /** A pupil with the id, with none before it, is the one `FindPupil` finds. */
  lemma FindPupilFirst(pupils: seq<Pupil>, id: int, i: nat)
    requires i < |pupils| && pupils[i].id == id
    requires forall j :: 0 <= j < i ==> pupils[j].id != id
    ensures FindPupil(pupils, id) == Some(i)
  {
  }

  /**
   * The login's choice of pupil, as evidently intended by
   * `if (!this.pupils) throw ...; studentId = this.pupils[0].id`: a missing
   * or empty roster has no pupils attached, otherwise the first pupil is
   * chosen.
   */
  function FirstPupil(roster: Option<seq<Pupil>>): (r: Result<Pupil, Error>)
    ensures r.Success? <==> roster.Some? && roster.value != []
    ensures r.Success? ==> r.value == roster.value[0]
    ensures r.Failure? ==> r.error == Thrown("Account has no pupils attached")
  {
    if roster.None? || roster.value == [] then Failure(Thrown("Account has no pupils attached"))
    else Success(roster.value[0])
  }

  /**
   * The same choice as written: `!this.pupils` is false for an empty array,
   * so an empty roster reaches `this.pupils[0].id`, which reads a property of
   * `undefined` and throws a TypeError.
   */
  function FirstPupilAsWritten(roster: Option<seq<Pupil>>): Result<Pupil, Error> {
    if roster.None? then Failure(Thrown("Account has no pupils attached"))
    else if roster.value == [] then Failure(TypeError)
    else Success(roster.value[0])
  }

  /** An empty roster: a TypeError as written, the intended message once corrected. */
  lemma EmptyRosterThrowsTypeError()
    ensures FirstPupilAsWritten(Some([])) == Failure(TypeError)
    ensures FirstPupil(Some([])) == Failure(Thrown("Account has no pupils attached"))
  {
  }

  /** The two agree on every roster but the empty one. */
  lemma FirstPupilAgrees(roster: Option<seq<Pupil>>)
    requires roster != Some([])
    ensures FirstPupilAsWritten(roster) == FirstPupil(roster)
  {
  }
}
